/** What each upgrade instruction comes to: its refusals in the order they are made, and the ledger it leaves. */
module UpgradeOutcomes {
  import opened Wrappers
  import opened ByteStrings
  import opened Chain
  import opened Ledger
  import opened Programs
  import Bridge
  import BridgeOutcomes
  import D = Driver
  import Signed = UpgradeContent
  import Upgrade

  // The account has to hold an initialised admin; new accounts are zeroed.
  function AdminRefusal(d: Data): (refused: Option<Error>)
    ensures refused == None <==> d.UpgradeData? && d.upgrade.isInitialized
    ensures refused in {None, Some(NotInitialized), Some(Runtime)}
    ensures d.UpgradeData? ==> refused != Some(Runtime)
  {
    match d
    case UpgradeData(a) => if a.isInitialized then None else Some(NotInitialized)
    case Blank(size) => if size < 64 + 32 + 8 + 1 then Some(Runtime) else Some(NotInitialized)
    case _ => Some(Runtime)
  }

  /** A new upgrade admin: at the address derived from its contract, with the given key and nonce zero. */
  lemma InitializeAdminOutcome(env: Env, l: Accounts, signers: set<Address>, prior: Option<Bridge.Prior>,
                               admin: Address, payer: Address, key: Bytes, contract: Address)
    requires Outsiders(env, signers)
    ensures Exec(env, l, Item(signers, prior, UpgradeIx(Upgrade.InitializeAdmin(admin, payer, key, contract))))
            == var cost, funds := env.rent(64 + 32 + 8 + 1), Get(l, payer);
               if admin != Pda(env.upgrade, [Raw(UPGRADE_ADMIN_SEED), Of(contract)]) then Failure(WrongAdmin)
               else if payer !in signers || !CanSpend(env, l, payer, cost) || Occupied(l, admin) then Failure(Runtime)
               else
                 Success(l[payer := funds.(lamports := funds.lamports - cost)]
                          [admin := Account(cost, env.upgrade, UpgradeData(UpgradeAdmin(key, contract, 0, true)))])
  {
    var ix, auth := Upgrade.InitializeAdmin(admin, payer, key, contract), Auth(env.upgrade, signers);
    PlayCheck(env, auth, l, Upgrade.InitializeAdminScript(env, ix), 0);
    if admin == UpgradeKey(env, contract) {
      CreationPlays(env, auth, l, ix);
    }
  }

  lemma CreationPlays(env: Env, auth: Auth, l: Accounts, ix: Upgrade.Instruction)
    requires ix.InitializeAdmin? && auth.program == env.upgrade && Outsiders(env, auth.signers)
    requires ix.admin == UpgradeKey(env, ix.contract)
    ensures Play(env, auth, l, Upgrade.InitializeAdminScript(env, ix), 1)
            == var cost, funds := env.rent(64 + 32 + 8 + 1), Get(l, ix.payer);
               var a := UpgradeAdmin(ix.publicKey, ix.contract, 0, true);
               if ix.payer !in auth.signers || !CanSpend(env, l, ix.payer, cost) || Occupied(l, ix.admin) then
                 Failure(Runtime)
               else
                 Success(l[ix.payer := funds.(lamports := funds.lamports - cost)]
                          [ix.admin := Account(cost, env.upgrade, UpgradeData(a))])
  {
    var ops := Upgrade.InitializeAdminScript(env, ix);
    PlayNext(env, auth, l, ops, 1);
    BridgeOutcomes.CreatedWritten(env, l, ix.payer, ix.admin, UPGRADE_ADMIN_SIZE, env.upgrade, ops[2].data);
    var created := Apply(env, auth, l, ops[1]);
    if created.Success? {
      PlayLast(env, auth, created.value, ops);
    }
  }

  /** The key changes, and nothing else, on the word of the key before. */
  lemma TransferOwnershipOutcome(env: Env, l: Accounts, signers: set<Address>, prior: Option<Bridge.Prior>,
                                 admin: Address, key: Bytes, signature: Bytes, recoveryId: byte)
    requires Outsiders(env, signers)
    ensures Exec(env, l, Item(signers, prior, UpgradeIx(Upgrade.TransferOwnership(admin, key, signature, recoveryId))))
            == var account, refused := Get(l, admin), AdminRefusal(DataAt(l, admin));
               if refused.Some? then Failure(refused.value)
               else
                 var a, signer := account.data.upgrade, env.recover(env.keccak(key), recoveryId, signature);
                 if admin != Pda(env.upgrade, [Raw(UPGRADE_ADMIN_SEED), Of(a.contract)]) then Failure(WrongSeeds)
                 else if signer == None then Failure(InvalidSignature)
                 else if signer != Some(a.publicKey) then Failure(WrongSignature)
                 else if account.owner != env.upgrade then Failure(Runtime)
                 else Success(l[admin := account.(data := UpgradeData(a.(publicKey := key)))])
  {
    var ix := Upgrade.TransferOwnership(admin, key, signature, recoveryId);
    PlayLast(env, Auth(env.upgrade, signers), l, Upgrade.TransferOwnershipScript(ix, Upgrade.Rotated(env, l, ix)));
  }

  // The loader replaces the code of a program by a buffer's, if both obey the admin.
  lemma DeploymentPlays(env: Env, auth: Auth, l: Accounts, ix: Upgrade.Instruction, a: UpgradeAdmin)
    requires ix.UpgradeProgram? && auth.program == env.upgrade && ix.admin == UpgradeKey(env, ix.target)
    requires DataAt(l, ix.admin).UpgradeData?
    ensures var account, program, source := Get(l, ix.admin), Get(l, ix.target), DataAt(l, ix.buffer);
            Play(env, auth, l, Upgrade.UpgradeScript(ix, Success(a)), 0)
            == if !program.data.ProgramData? || program.data.upgradeAuthority != Some(ix.admin)
                  || !source.BufferData? || source.bufferAuthority != Some(ix.admin)
                  || account.owner != env.upgrade then Failure(Runtime)
               else
                 Success(l[ix.target := program.(data := program.data.(image := source.code))]
                          [ix.admin := account.(data := UpgradeData(a))])
  {
    var ops := Upgrade.UpgradeScript(ix, Success(a));
    PlayNext(env, auth, l, ops, 0);
    var deployed := Apply(env, auth, l, ops[0]);
    if deployed.Success? {
      PlayLast(env, auth, deployed.value, ops);
    }
  }

  lemma ApprovalAgrees(env: Env, l: Accounts, ix: Upgrade.Instruction)
    requires ix.UpgradeProgram?
    ensures var refused := AdminRefusal(DataAt(l, ix.admin));
            Upgrade.Upgraded(env, l, ix)
            == if ix.admin != UpgradeKey(env, ix.target) then Failure(WrongSeeds)
               else if refused.Some? then Failure(refused.value)
               else
                 var a := DataAt(l, ix.admin).upgrade;
                 var content := Signed.Content(a.nonce, env.bytes(a.contract), env.bytes(ix.buffer));
                 var unsigned := ProofError(env, Signed.Encode(content), ix.proof, a.publicKey);
                 if unsigned.Some? then Failure(unsigned.value) else Success(a.(nonce := D.Successor(a.nonce)))
  {
  }

  /** An upgrade: signed for this buffer with the current nonce, it replaces the code and moves the nonce on. */
  lemma UpgradeProgramOutcome(env: Env, l: Accounts, signers: set<Address>, prior: Option<Bridge.Prior>,
                              admin: Address, target: Address, buffer: Address, proof: Proof)
    requires Outsiders(env, signers)
    ensures Exec(env, l, Item(signers, prior, UpgradeIx(Upgrade.UpgradeProgram(admin, target, buffer, proof))))
            == var account, program, source := Get(l, admin), Get(l, target), DataAt(l, buffer);
               var refused := AdminRefusal(account.data);
               if admin != Pda(env.upgrade, [Raw(UPGRADE_ADMIN_SEED), Of(target)]) then Failure(WrongSeeds)
               else if refused.Some? then Failure(refused.value)
               else
                 var a := account.data.upgrade;
                 var content := Signed.Content(a.nonce, env.bytes(a.contract), env.bytes(buffer));
                 var unsigned := ProofError(env, Signed.Encode(content), proof, a.publicKey);
                 if unsigned.Some? then Failure(unsigned.value)
                 else if !program.data.ProgramData? || program.data.upgradeAuthority != Some(admin)
                         || !source.BufferData? || source.bufferAuthority != Some(admin)
                         || account.owner != env.upgrade then Failure(Runtime)
                 else
                   Success(l[target := program.(data := program.data.(image := source.code))]
                            [admin := account.(data := UpgradeData(a.(nonce := D.Successor(a.nonce))))])
  {
    var ix, auth := Upgrade.UpgradeProgram(admin, target, buffer, proof), Auth(env.upgrade, signers);
    var next := Upgrade.Upgraded(env, l, ix);
    ApprovalAgrees(env, l, ix);
    if next.Failure? {
      PlayCheck(env, auth, l, Upgrade.UpgradeScript(ix, next), 0);
    } else {
      DeploymentPlays(env, auth, l, ix, next.value);
    }
  }
}
