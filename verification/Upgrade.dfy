/** What each upgrade instruction asks of the ledger (upgrade/program/src/processor.rs). */
module Upgrade {
  import opened Wrappers
  import opened ByteStrings
  import opened Chain
  import opened Ledger
  import Signed = UpgradeContent

  datatype Instruction =
    | InitializeAdmin(admin: Address, payer: Address, publicKey: Bytes, contract: Address)
    | TransferOwnership(admin: Address, newPublicKey: Bytes, signature: Bytes, recoveryId: byte)
    | UpgradeProgram(admin: Address, target: Address, buffer: Address, proof: Proof)

  function AdminSeeds(contract: Address): seq<Seed> {
    [Raw(UPGRADE_ADMIN_SEED), Of(contract)]
  }

  function InitializeAdminScript(env: Env, ix: Instruction): seq<Op>
    requires ix.InitializeAdmin?
  {
    [ Check(if ix.admin != UpgradeKey(env, ix.contract) then Some(WrongAdmin) else None),
      Create(ix.payer, ix.admin, UPGRADE_ADMIN_SIZE, env.upgrade, AdminSeeds(ix.contract)),
      Store(ix.admin, UpgradeData(UpgradeAdmin(ix.publicKey, ix.contract, 0, true))) ]
  }

  // Here the admin's address is derived again from the contract it stores.
  function TransferOwnershipError(env: Env, l: Accounts, ix: Instruction): Option<Error>
    requires ix.TransferOwnership?
  {
    match ReadUpgrade(l, ix.admin)
    case None => Some(Runtime)
    case Some(a) =>
      if !a.isInitialized then Some(NotInitialized)
      else if ix.admin != UpgradeKey(env, a.contract) then Some(WrongSeeds)
      else SignatureError(env, env.keccak(ix.newPublicKey), ix.signature, ix.recoveryId, a.publicKey)
  }

  // The admin to write back, or why the rotation is refused.
  function Rotated(env: Env, l: Accounts, ix: Instruction): Outcome<UpgradeAdmin>
    requires ix.TransferOwnership?
  {
    var e := TransferOwnershipError(env, l, ix);
    if e.Some? then Failure(e.value) else Success(ReadUpgrade(l, ix.admin).value.(publicKey := ix.newPublicKey))
  }

  function TransferOwnershipScript(ix: Instruction, next: Outcome<UpgradeAdmin>): seq<Op>
    requires ix.TransferOwnership?
  {
    if next.Failure? then [Check(Some(next.error))] else [Store(ix.admin, UpgradeData(next.value))]
  }

  // The signed content names the stored contract, not the account that is upgraded.
  function ContentOf(env: Env, a: UpgradeAdmin, ix: Instruction): Signed.Content
    requires ix.UpgradeProgram?
  {
    Signed.Content(a.nonce, env.bytes(a.contract), env.bytes(ix.buffer))
  }

  function UpgradeError(env: Env, l: Accounts, ix: Instruction): Option<Error>
    requires ix.UpgradeProgram?
  {
    if ix.admin != UpgradeKey(env, ix.target) then Some(WrongSeeds)
    else
      match ReadUpgrade(l, ix.admin)
      case None => Some(Runtime)
      case Some(a) =>
        if !a.isInitialized then Some(NotInitialized)
        else ProofError(env, Signed.Encode(ContentOf(env, a, ix)), ix.proof, a.publicKey)
  }

  // The admin to write back, or why the upgrade is refused.
  function Upgraded(env: Env, l: Accounts, ix: Instruction): Outcome<UpgradeAdmin>
    requires ix.UpgradeProgram?
  {
    var e := UpgradeError(env, l, ix);
    if e.Some? then Failure(e.value)
    else
      var a := ReadUpgrade(l, ix.admin).value;
      Success(a.(nonce := WrapAdd(a.nonce, 1)))
  }

  function UpgradeScript(ix: Instruction, next: Outcome<UpgradeAdmin>): seq<Op>
    requires ix.UpgradeProgram?
  {
    if next.Failure? then [Check(Some(next.error))]
    else
      [ Deploy(ix.target, ix.buffer, ix.admin, AdminSeeds(ix.target)),
        Store(ix.admin, UpgradeData(next.value)) ]
  }

  function Ops(env: Env, l: Accounts, ix: Instruction): seq<Op> {
    match ix
    case InitializeAdmin(_, _, _, _) => InitializeAdminScript(env, ix)
    case TransferOwnership(_, _, _, _) => TransferOwnershipScript(ix, Rotated(env, l, ix))
    case UpgradeProgram(_, _, _, _) => UpgradeScript(ix, Upgraded(env, l, ix))
  }
}
