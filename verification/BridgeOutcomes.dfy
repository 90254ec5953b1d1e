/** What each bridge instruction comes to: its refusals in the order they are made, and the ledger it leaves. */
module BridgeOutcomes {
  import opened Wrappers
  import opened ByteStrings
  import opened BridgeContent
  import opened Chain
  import opened Ledger
  import opened Programs
  import Bridge

  // Creating an account and writing it is creating it written.
  lemma CreatedWritten(env: Env, l: Accounts, payer: Address, key: Address, size: nat, owner: Address, data: Data)
    ensures var blank, written := Created(env, l, payer, key, size, owner, Blank(size)),
                                  Created(env, l, payer, key, size, owner, data);
            if blank.Failure? then written == blank else written == Success(WithData(blank.value, key, data))
  {
    var blank := Created(env, l, payer, key, size, owner, Blank(size));
    if blank.Success? {
      assert WithData(blank.value, key, data) == Created(env, l, payer, key, size, owner, data).value;
    }
  }

  // ---- Refusals ----

  // The admin account has to be the one its seeds derive, and hold an initialised admin; new accounts are zeroed.
  function AdminRefusal(env: Env, l: Accounts, admin: Address, seeds: Bytes32): (refused: Option<Error>)
    ensures refused == None
            <==> admin == Pda(env.bridge, [Raw(seeds)])
                 && DataAt(l, admin).BridgeData? && DataAt(l, admin).bridge.isInitialized
    ensures refused == Some(WrongSeeds) <==> admin != Pda(env.bridge, [Raw(seeds)])
    ensures refused in {None, Some(WrongSeeds), Some(NotInitialized), Some(Runtime)}
    ensures refused == Some(Runtime) ==> !DataAt(l, admin).BridgeData?
  {
    if admin != Pda(env.bridge, [Raw(seeds)]) then Some(WrongSeeds)
    else
      match DataAt(l, admin)
      case BridgeData(a) => if a.isInitialized then None else Some(NotInitialized)
      case Blank(size) => if size < 64 + 32 + 1 then Some(Runtime) else Some(NotInitialized)
      case _ => Some(Runtime)
  }

  // The instruction before has to be the charge that the admin's commission program makes for this deposit.
  function FeeRefusal(prior: Option<Bridge.Prior>, admin: Address, program: Address, kind: TokenType,
                      amount: u64): (refused: Option<Error>)
    ensures refused == None
            <==> prior == Some(Bridge.Prior(program, Some(Pda(program, [Raw(COMMISSION_ADMIN_SEED), Of(admin)])),
                                            Bridge.Charge(kind, amount)))
    ensures refused == Some(WrongCommissionProgram) <==> prior.Some? && prior.value.program != program
    ensures refused == Some(WrongCommissionArguments) ==>
              prior.Some? && prior.value.payload != Bridge.Charge(kind, amount)
    ensures refused == Some(WrongCommissionAccount) ==>
              prior.Some? && prior.value.firstAccount != Some(Pda(program, [Raw(COMMISSION_ADMIN_SEED), Of(admin)]))
    ensures prior == None ==> refused == Some(Runtime)
  {
    var feeAdmin := Pda(program, [Raw(COMMISSION_ADMIN_SEED), Of(admin)]);
    match prior
    case None => Some(Runtime)
    case Some(Prior(caller, account, payload)) =>
      if caller != program then Some(WrongCommissionProgram)
      else if account == None then Some(Runtime)
      else if account != Some(feeAdmin) then Some(WrongCommissionAccount)
      else if payload == Bridge.Unreadable then Some(Runtime)
      else if payload != Bridge.Charge(kind, amount) then Some(WrongCommissionArguments)
      else None
  }

  // What comes before a deposit takes effect.
  function DepositRefusal(env: Env, l: Accounts, prior: Option<Bridge.Prior>, admin: Address, seeds: Bytes32,
                          network: Bytes, receiver: Bytes, kind: TokenType, amount: u64): (refused: Option<Error>)
    ensures refused == None
            <==> |receiver| <= 100 && |network| <= 20 && amount > 0
                 && admin == Pda(env.bridge, [Raw(seeds)])
                 && DataAt(l, admin).BridgeData? && DataAt(l, admin).bridge.isInitialized
                 && FeeRefusal(prior, admin, DataAt(l, admin).bridge.commissionProgram, kind, amount) == None
    ensures refused == Some(WrongArgsSize) <==> |receiver| > 100 || |network| > 20 || amount == 0
  {
    if |receiver| > 100 || |network| > 20 || amount == 0 then Some(WrongArgsSize)
    else
      var refused := AdminRefusal(env, l, admin, seeds);
      if refused.Some? then refused
      else FeeRefusal(prior, admin, DataAt(l, admin).bridge.commissionProgram, kind, amount)
  }

  lemma DepositRefusalAgrees(env: Env, l: Accounts, prior: Option<Bridge.Prior>, ix: Bridge.Instruction)
    requires ix.DepositNative? || ix.DepositToken?
    ensures var fungibly := if ix.DepositToken? && ix.nonFungible then NonFungible else Fungible;
            var kind := if ix.DepositNative? then Sol else fungibly;
            var amount := if ix.DepositToken? && ix.nonFungible then 1 else ix.amount;
            Bridge.DepositError(env, l, prior, ix)
            == DepositRefusal(env, l, prior, ix.admin, ix.seeds, ix.network, ix.receiver, kind, amount)
  {
  }

  // ---- Instructions ----

  /** A new admin: at the address of its seeds, with the given key and commission program. */
  lemma InitializeAdminOutcome(env: Env, l: Accounts, signers: set<Address>, prior: Option<Bridge.Prior>,
                               admin: Address, payer: Address, seeds: Bytes32, key: Bytes, program: Address)
    requires Outsiders(env, signers)
    ensures Exec(env, l, Item(signers, prior, BridgeIx(Bridge.InitializeAdmin(admin, payer, seeds, key, program))))
            == var cost, funds := env.rent(64 + 32 + 1), Get(l, payer);
               if admin != Pda(env.bridge, [Raw(seeds)]) then Failure(WrongSeeds)
               else if payer !in signers || !CanSpend(env, l, payer, cost) || Occupied(l, admin) then Failure(Runtime)
               else
                 Success(l[payer := funds.(lamports := funds.lamports - cost)]
                          [admin := Account(cost, env.bridge, BridgeData(BridgeAdmin(key, program, true)))])
  {
    var ix, auth := Bridge.InitializeAdmin(admin, payer, seeds, key, program), Auth(env.bridge, signers);
    var ops := Bridge.InitializeAdminScript(env, ix);
    PlayCheck(env, auth, l, ops, 0);
    PlayNext(env, auth, l, ops, 1);
    CreatedWritten(env, l, payer, admin, BRIDGE_ADMIN_SIZE, env.bridge, ops[2].data);
    var created := Apply(env, auth, l, ops[1]);
    if created.Success? {
      PlayLast(env, auth, created.value, ops);
    }
  }

  /** The key changes, and nothing else, on the word of the key before. */
  lemma TransferOwnershipOutcome(env: Env, l: Accounts, signers: set<Address>, prior: Option<Bridge.Prior>,
                                 admin: Address, seeds: Bytes32, key: Bytes, signature: Bytes, recoveryId: byte)
    requires Outsiders(env, signers)
    ensures Exec(env, l, Item(signers, prior,
                              BridgeIx(Bridge.TransferOwnership(admin, seeds, key, signature, recoveryId))))
            == var account, refused := Get(l, admin), AdminRefusal(env, l, admin, seeds);
               var signer := env.recover(env.keccak(key), recoveryId, signature);
               if refused.Some? then Failure(refused.value)
               else if signer == None then Failure(InvalidSignature)
               else if signer != Some(account.data.bridge.publicKey) then Failure(WrongSignature)
               else if account.owner != env.bridge then Failure(Runtime)
               else Success(l[admin := account.(data := BridgeData(account.data.bridge.(publicKey := key)))])
  {
    var ix := Bridge.TransferOwnership(admin, seeds, key, signature, recoveryId);
    PlayLast(env, Auth(env.bridge, signers), l, Bridge.TransferOwnershipScript(ix, Bridge.Rotated(env, l, ix)));
  }

  /** A native deposit with its charge before it moves the amount from its owner to the admin. */
  lemma DepositNativeOutcome(env: Env, l: Accounts, signers: set<Address>, prior: Option<Bridge.Prior>, admin: Address,
                             owner: Address, seeds: Bytes32, network: Bytes, receiver: Bytes, amount: u64)
    requires Outsiders(env, signers)
    ensures Exec(env, l, Item(signers, prior,
                              BridgeIx(Bridge.DepositNative(admin, owner, seeds, network, receiver, amount))))
            == var from, to := Get(l, owner), Get(l, admin);
               var refused := DepositRefusal(env, l, prior, admin, seeds, network, receiver, Sol, amount);
               if refused.Some? then Failure(refused.value)
               else if owner !in signers || !CanSpend(env, l, owner, amount) || to.lamports + amount >= U64 then
                 Failure(Runtime)
               else
                 Success(l[owner := from.(lamports := from.lamports - amount)]
                          [admin := to.(lamports := to.lamports + amount)])
  {
    var ix, auth := Bridge.DepositNative(admin, owner, seeds, network, receiver, amount), Auth(env.bridge, signers);
    var ops := Bridge.DepositNativeScript(ix, Bridge.DepositError(env, l, prior, ix));
    PlayCheck(env, auth, l, ops, 0);
    PlayLast(env, auth, l, ops);
  }

  // A token account, opened by the payer if it has no data yet.
  function WithTokenAccount(env: Env, l: Accounts, signers: set<Address>, payer: Address, wallet: Address,
                            mint: Address, key: Address): (next: Outcome<Accounts>)
    ensures !NoData(l, key) ==> next == Success(l)
    ensures NoData(l, key) && next.Success? ==>
              payer in signers && DataAt(l, mint).MintData? && DataAt(next.value, key) == TokenData(mint, wallet, 0)
              && key == Found(env, env.associatedProgram, [Of(wallet), Of(env.tokenProgram), Of(mint)])
  {
    if !NoData(l, key) then Success(l)
    else if payer !in signers || !DataAt(l, mint).MintData?
            || key != Found(env, env.associatedProgram, [Of(wallet), Of(env.tokenProgram), Of(mint)]) then
      Failure(Runtime)
    else Opened(env, l, payer, key, 165, env.tokenProgram, TokenData(mint, wallet, 0))
  }

  // A wrapped token is burnt, any other is locked in the vault.
  function BurntOrLocked(l: Accounts, signers: set<Address>, wrapped: bool, from: Address, vault: Address,
                         mint: Address, owner: Address, amount: u64): Outcome<Accounts> {
    if owner !in signers then Failure(Runtime)
    else if wrapped then Burned(l, from, mint, owner, amount)
    else Moved(l, from, vault, owner, amount)
  }

  function DepositToken(env: Env, l: Accounts, signers: set<Address>, prior: Option<Bridge.Prior>,
                        ix: Bridge.Instruction): Outcome<Accounts>
    requires ix.DepositToken?
  {
    var kind, amount := if ix.nonFungible then NonFungible else Fungible, if ix.nonFungible then 1 else ix.amount;
    var refused := DepositRefusal(env, l, prior, ix.admin, ix.seeds, ix.network, ix.receiver, kind, amount);
    if refused.Some? then Failure(refused.value) else Deposited(env, l, signers, ix)
  }

  function Deposited(env: Env, l: Accounts, signers: set<Address>, ix: Bridge.Instruction): Outcome<Accounts>
    requires ix.DepositToken?
  {
    var amount := if ix.nonFungible then 1 else ix.amount;
    if ix.vault != Found(env, env.associatedProgram, [Of(ix.admin), Of(env.tokenProgram), Of(ix.mint)]) then
      Failure(WrongTokenAccount)
    else
      var vaulted := WithTokenAccount(env, l, signers, ix.owner, ix.admin, ix.mint, ix.vault);
      if vaulted.Failure? then vaulted
      else if ix.tokenSeed.Some? && ix.mint != Found(env, env.bridge, [Raw(ix.tokenSeed.value)]) then
        Failure(WrongTokenSeed)
      else
        BurntOrLocked(vaulted.value, signers, ix.tokenSeed.Some?, ix.ownerToken, ix.vault, ix.mint, ix.owner, amount)
  }

  /** A token deposit with its charge before it opens the vault if need be, then burns or locks: one for an NFT. */
  lemma DepositTokenOutcome(env: Env, l: Accounts, signers: set<Address>, prior: Option<Bridge.Prior>,
                            ix: Bridge.Instruction)
    requires ix.DepositToken? && Outsiders(env, signers)
    ensures Exec(env, l, Item(signers, prior, BridgeIx(ix))) == DepositToken(env, l, signers, prior, ix)
  {
    var early := Bridge.DepositError(env, l, prior, ix);
    DepositRefusalAgrees(env, l, prior, ix);
    TokenScriptOutcome(env, Auth(env.bridge, signers), l, ix, early);
  }

  lemma TokenScriptOutcome(env: Env, auth: Auth, l: Accounts, ix: Bridge.Instruction, early: Option<Error>)
    requires ix.DepositToken?
    ensures Play(env, auth, l, Bridge.DepositTokenScript(env, ix, early), 0)
            == if early.Some? then Failure(early.value) else Deposited(env, l, auth.signers, ix)
  {
    var ops := Bridge.DepositTokenScript(env, ix, early);
    PlayCheck(env, auth, l, ops, 0);
    PlayCheck(env, auth, l, ops, 1);
    PlayNext(env, auth, l, ops, 2);
    var vaulted := Apply(env, auth, l, ops[2]);
    if vaulted.Success? {
      PlayCheck(env, auth, vaulted.value, ops, 3);
      PlayLast(env, auth, vaulted.value, ops);
    }
  }

  lemma NativeScriptOutcome(env: Env, auth: Auth, l: Accounts, ix: Bridge.Instruction)
    requires ix.WithdrawNative? && auth.program == env.bridge && Outsiders(env, auth.signers)
    requires ix.admin == Pda(env.bridge, [Raw(ix.seeds)]) && ix.record == Found(env, env.bridge, [Raw(ix.origin)])
    requires DataAt(l, ix.admin).BridgeData?
    ensures var admin, owner, cost := Get(l, ix.admin), Get(l, ix.owner), env.rent(env.tagSize + 161);
            var record := Withdraw(Sol, None, ix.amount, ix.origin, ix.owner, true);
            Play(env, auth, l, Bridge.WithdrawNativeScript(env, ix, None), 0)
            == if ix.owner !in auth.signers || !CanSpend(env, l, ix.owner, cost) || Occupied(l, ix.record)
                  || admin.owner != env.bridge then Failure(Runtime)
               else
                 Success(l[ix.admin := admin.(lamports := (admin.lamports - ix.amount) % U64)]
                          [ix.owner := owner.(lamports := (owner.lamports - cost + ix.amount) % U64)]
                          [ix.record := Account(cost, env.bridge, WithdrawData(record))])
  {
    var ops := Bridge.WithdrawNativeScript(env, ix, None);
    PlayCheck(env, auth, l, ops, 0);
    PlayNext(env, auth, l, ops, 1);
    var created := Apply(env, auth, l, ops[1]);
    if created.Success? {
      var l1 := created.value;
      PlayNext(env, auth, l1, ops, 2);
      assert Get(l1, ix.admin) == Get(l, ix.admin);
      if Get(l, ix.admin).owner == env.bridge {
        var l2 := PaidOut(l1, ix.admin, ix.owner, ix.amount);
        PlayLast(env, auth, l2, ops);
        var admin, owner, cost := Get(l, ix.admin), Get(l, ix.owner), env.rent(env.tagSize + 161);
        assert WithData(l2, ix.record, ops[3].data)
               == l[ix.admin := admin.(lamports := (admin.lamports - ix.amount) % U64)]
                   [ix.owner := owner.(lamports := (owner.lamports - cost + ix.amount) % U64)]
                   [ix.record := Account(cost, env.bridge, ops[3].data)];
      }
    }
  }

  /** A native withdrawal: signed for this receiver and amount, paid from the admin, recorded under its origin. */
  lemma WithdrawNativeOutcome(env: Env, l: Accounts, signers: set<Address>, prior: Option<Bridge.Prior>,
                              ix: Bridge.Instruction)
    requires ix.WithdrawNative? && Outsiders(env, signers)
    ensures Exec(env, l, Item(signers, prior, BridgeIx(ix)))
            == var admin, owner, cost := Get(l, ix.admin), Get(l, ix.owner), env.rent(env.tagSize + 161);
               var refused := AdminRefusal(env, l, ix.admin, ix.seeds);
               if ix.amount == 0 then Failure(WrongArgsSize)
               else if refused.Some? then Failure(refused.value)
               else
                 var transfer, receiver := NativeTransfer(ix.amount), env.bytes(ix.owner);
                 var content := Content(transfer, ix.origin, receiver, env.bytes(env.bridge));
                 var unsigned := ProofError(env, Encode(content), ix.proof, admin.data.bridge.publicKey);
                 if unsigned.Some? then Failure(unsigned.value)
                 else if admin.lamports < ix.amount then Failure(WrongBalance)
                 else if ix.record != Found(env, env.bridge, [Raw(ix.origin)]) then Failure(WrongNonce)
                 else if ix.owner !in signers || !CanSpend(env, l, ix.owner, cost) || Occupied(l, ix.record)
                         || admin.owner != env.bridge then Failure(Runtime)
                 else
                   var record := Withdraw(Sol, None, ix.amount, ix.origin, ix.owner, true);
                   Success(l[ix.admin := admin.(lamports := (admin.lamports - ix.amount) % U64)]
                            [ix.owner := owner.(lamports := (owner.lamports - cost + ix.amount) % U64)]
                            [ix.record := Account(cost, env.bridge, WithdrawData(record))])
  {
    var early := Bridge.WithdrawNativeError(env, l, ix);
    PlayCheck(env, Auth(env.bridge, signers), l, Bridge.WithdrawNativeScript(env, ix, early), 0);
    if early == None {
      NativeScriptOutcome(env, Auth(env.bridge, signers), l, ix);
    }
  }
}
