/** The upgrade handlers, step by step as upgrade/program/src/processor.rs runs them, each proved to do to the
    ledger exactly what its script says. */
module UpgradeProcessor {
  import opened Wrappers
  import opened ByteStrings
  import opened Chain
  import opened Ledger
  import opened Worlds
  import opened Upgrade
  import Signed = UpgradeContent

  /** `process_init_admin`. */
  method ProcessInitAdmin(w: World, auth: Auth, ix: Instruction) returns (status: Status)
    requires ix.InitializeAdmin? && auth.program == w.env.upgrade
    modifies w
    ensures Refines(Play(w.env, auth, old(w.accounts), InitializeAdminScript(w.env, ix), 0), status, w.accounts)
  {
    ghost var ops, l0 := InitializeAdminScript(w.env, ix), w.accounts;
    if UpgradeKey(w.env, ix.contract) != ix.admin {
      return Err(WrongAdmin);
    }
    assert Play(w.env, auth, l0, ops, 0) == Play(w.env, auth, l0, ops, 1);
    :- w.CreateAccount(auth, ix.payer, ix.admin, UPGRADE_ADMIN_SIZE, w.env.upgrade, AdminSeeds(ix.contract));
    assert Play(w.env, auth, l0, ops, 1) == Play(w.env, auth, w.accounts, ops, 2);
    var admin := ReadUpgrade(w.accounts, ix.admin).value;
    if admin.isInitialized {
      return Err(AlreadyInUse);
    }
    admin := admin.(contract := ix.contract);
    admin := admin.(publicKey := ix.publicKey);
    admin := admin.(isInitialized := true);
    status := w.Serialize(auth, ix.admin, UpgradeData(admin));
  }

  /** `process_transfer_ownership`. */
  method ProcessTransferOwnership(w: World, auth: Auth, ix: Instruction) returns (status: Status)
    requires ix.TransferOwnership? && auth.program == w.env.upgrade
    modifies w
    ensures Refines(Play(w.env, auth, old(w.accounts),
                         TransferOwnershipScript(ix, Rotated(w.env, old(w.accounts), ix)), 0), status, w.accounts)
  {
    var read := ReadUpgrade(w.accounts, ix.admin);
    if read.None? {
      return Err(Runtime);
    }
    var admin := read.value;
    if !admin.isInitialized {
      return Err(NotInitialized);
    }
    if UpgradeKey(w.env, admin.contract) != ix.admin {
      return Err(WrongSeeds);
    }
    :- VerifyEcdsaSignature(w.env, w.env.keccak(ix.newPublicKey), ix.signature, ix.recoveryId, admin.publicKey);
    admin := admin.(publicKey := ix.newPublicKey);
    status := w.Serialize(auth, ix.admin, UpgradeData(admin));
  }

  /** `process_upgrade`. */
  method ProcessUpgrade(w: World, auth: Auth, ix: Instruction) returns (status: Status)
    requires ix.UpgradeProgram? && auth.program == w.env.upgrade
    modifies w
    ensures Refines(Play(w.env, auth, old(w.accounts), UpgradeScript(ix, Upgraded(w.env, old(w.accounts), ix)), 0),
                    status, w.accounts)
  {
    ghost var ops, l0 := UpgradeScript(ix, Upgraded(w.env, w.accounts, ix)), w.accounts;
    if UpgradeKey(w.env, ix.target) != ix.admin {
      return Err(WrongSeeds);
    }
    var read := ReadUpgrade(w.accounts, ix.admin);
    if read.None? {
      return Err(Runtime);
    }
    var admin := read.value;
    if !admin.isInitialized {
      return Err(NotInitialized);
    }
    var content := Signed.Content(admin.nonce, w.env.bytes(admin.contract), w.env.bytes(ix.buffer));
    var hash := Signed.HashContent(w.env.keccak, content);
    :- VerifyProof(w.env, hash, ix.proof, admin.publicKey);
    :- w.UpgradeProgram(auth, ix.target, ix.buffer, ix.admin, AdminSeeds(ix.target));
    assert Play(w.env, auth, l0, ops, 0) == Play(w.env, auth, w.accounts, ops, 1);
    admin := admin.(nonce := WrapAdd(admin.nonce, 1));
    status := w.Serialize(auth, ix.admin, UpgradeData(admin));
  }

  /** `process_instruction`. */
  method Process(w: World, auth: Auth, ix: Instruction) returns (status: Status)
    requires auth.program == w.env.upgrade
    modifies w
    ensures Refines(Play(w.env, auth, old(w.accounts), Upgrade.Ops(w.env, old(w.accounts), ix), 0), status, w.accounts)
  {
    match ix {
      case InitializeAdmin(_, _, _, _) => status := ProcessInitAdmin(w, auth, ix);
      case TransferOwnership(_, _, _, _) => status := ProcessTransferOwnership(w, auth, ix);
      case UpgradeProgram(_, _, _, _) => status := ProcessUpgrade(w, auth, ix);
    }
  }
}
