/** What each commission instruction asks of the ledger (commission/program/src/processor.rs). */
module Commission {
  import opened Wrappers
  import opened ByteStrings
  import opened FeeList
  import opened Borsh
  import opened Chain
  import opened Ledger
  import Signed = CommissionContent

  datatype Edit = Add | Remove | Update

  datatype Instruction =
    | InitializeAdmin(admin: Address, bridgeAdmin: Address, payer: Address, tokens: seq<FeeEntry<Address>>)
    | ChargeCommission(admin: Address, bridgeAdmin: Address, owner: Address, ownerToken: Address, vault: Address,
                       mintAccount: Address, token: FeeToken<Address>, depositKind: TokenType, depositAmount: u64)
    | EditToken(edit: Edit, admin: Address, bridgeAdmin: Address, proof: Proof, entry: FeeEntry<Address>)
    | Withdraw(admin: Address, bridgeAdmin: Address, receiver: Address, receiverToken: Address, vault: Address,
               mintAccount: Address, proof: Proof, entry: FeeEntry<Address>, withdrawAmount: u64)

  function AdminSeeds(bridgeAdmin: Address): seq<Seed> {
    [Raw(COMMISSION_ADMIN_SEED), Of(bridgeAdmin)]
  }

  // The admin is the account derived from the bridge admin's address, and initialised.
  function AdminError(env: Env, l: Accounts, ix: Instruction): Option<Error> {
    if ix.admin != CommissionKey(env.commission, ix.bridgeAdmin) then Some(WrongAdmin)
    else
      match ReadCommission(l, ix.admin)
      case None => Some(Runtime)
      case Some(a) => if a.isInitialized then None else Some(NotInitialized)
  }

  function SizeError(env: Env, a: FeeAdmin): Option<Error> {
    if AdminSize(a) > MaxAdminSize(env.tokenSize) then Some(Runtime) else None
  }

  function InitialAdmin(tokens: seq<FeeEntry<Address>>): FeeAdmin {
    CommissionAdmin(tokens, 0, 0, 0, 0, true)
  }

  function InitializeAdminScript(env: Env, ix: Instruction): seq<Op>
    requires ix.InitializeAdmin?
  {
    [ Check(if ix.admin != CommissionKey(env.commission, ix.bridgeAdmin) then Some(WrongAdmin) else None),
      Create(ix.payer, ix.admin, MaxAdminSize(env.tokenSize), env.commission, AdminSeeds(ix.bridgeAdmin)),
      Check(SizeError(env, InitialAdmin(ix.tokens))),
      Store(ix.admin, CommissionData(InitialAdmin(ix.tokens))) ]
  }

  // The price asked for the token, or why there is none.
  function Price(env: Env, l: Accounts, ix: Instruction): Outcome<u64>
    requires ix.ChargeCommission?
  {
    var e := AdminError(env, l, ix);
    if e.Some? then Failure(e.value)
    else
      match PriceOf(ReadCommission(l, ix.admin).value.acceptableTokens, ix.token)
      case None => Failure(NotAcceptable)
      case Some(price) => Success(price)
  }

  function ChargeScript(env: Env, ix: Instruction, price: Outcome<u64>): seq<Op>
    requires ix.ChargeCommission?
  {
    if price.Failure? then [Check(Some(price.error))]
    else
      match ix.token
      case Native => [Pay(ix.owner, ix.admin, price.value, AdminSeeds(ix.bridgeAdmin))]
      case FT(mint) =>
        [ Check(if ix.vault != AssociatedKey(env, ix.admin, mint) then Some(WrongTokenAccount) else None),
          EnsureAssociated(ix.owner, ix.admin, ix.mintAccount, ix.vault),
          Move(ix.ownerToken, ix.vault, ix.owner, price.value, AdminSeeds(ix.bridgeAdmin)) ]
      case NFT(_) => [Check(Some(NotSupported))]
  }

  function OperationOf(edit: Edit): Signed.OperationType {
    match edit
    case Add => Signed.AddToken
    case Remove => Signed.RemoveToken
    case Update => Signed.UpdateToken
  }

  function NonceOf(a: FeeAdmin, op: Signed.OperationType): u64 {
    match op
    case AddToken => a.addTokenNonce
    case RemoveToken => a.removeTokenNonce
    case UpdateToken => a.updateTokenNonce
    case WithdrawToken => a.withdrawTokenNonce
  }

  // Every accepted operation advances the nonce of its own kind.
  function Advanced(a: FeeAdmin, op: Signed.OperationType): FeeAdmin {
    match op
    case AddToken => a.(addTokenNonce := WrapAdd(a.addTokenNonce, 1))
    case RemoveToken => a.(removeTokenNonce := WrapAdd(a.removeTokenNonce, 1))
    case UpdateToken => a.(updateTokenNonce := WrapAdd(a.updateTokenNonce, 1))
    case WithdrawToken => a.(withdrawTokenNonce := WrapAdd(a.withdrawTokenNonce, 1))
  }

  function Edited(list: seq<FeeEntry<Address>>, edit: Edit, entry: FeeEntry<Address>): seq<FeeEntry<Address>> {
    match edit
    case Add => list + [entry]
    case Remove => RemoveFirst(list, entry)
    case Update => Reprice(list, entry)
  }

  function OnWire(env: Env, t: FeeToken<Address>): FeeToken<Bytes32> {
    match t
    case Native => Native
    case FT(mint) => FT(env.bytes(mint))
    case NFT(mint) => NFT(env.bytes(mint))
  }

  function SignedOperation(ix: Instruction): Signed.OperationType
    requires ix.EditToken? || ix.Withdraw?
  {
    if ix.EditToken? then OperationOf(ix.edit) else Signed.WithdrawToken
  }

  // What the signers of a list edit or a withdrawal agreed to.
  function ContentOf(env: Env, a: FeeAdmin, ix: Instruction): (c: Signed.Content)
    requires ix.EditToken? || ix.Withdraw?
    ensures c.Formed()
  {
    Signed.Content(NonceOf(a, SignedOperation(ix)), if ix.Withdraw? then Some(env.bytes(ix.receiver)) else None,
                   env.bytes(env.commission), SignedOperation(ix), OnWire(env, ix.entry.token), ix.entry.amount)
  }

  function SignedError(env: Env, l: Accounts, ix: Instruction): Option<Error>
    requires ix.EditToken? || ix.Withdraw?
  {
    var e := AdminError(env, l, ix);
    if e.Some? then e
    else
      match ReadBridge(l, ix.bridgeAdmin)
      case None => Some(Runtime)
      case Some(b) =>
        if !b.isInitialized then Some(NotInitialized)
        else ProofError(env, Signed.Encode(ContentOf(env, ReadCommission(l, ix.admin).value, ix)), ix.proof,
                        b.publicKey)
  }

  // The admin an accepted operation writes back.
  function After(a: FeeAdmin, ix: Instruction): FeeAdmin
    requires ix.EditToken? || ix.Withdraw?
  {
    var next := Advanced(a, SignedOperation(ix));
    if ix.EditToken? then next.(acceptableTokens := Edited(a.acceptableTokens, ix.edit, ix.entry)) else next
  }

  // The admin to write back, or why the operation is refused.
  function Next(env: Env, l: Accounts, ix: Instruction): Outcome<FeeAdmin>
    requires ix.EditToken? || ix.Withdraw?
  {
    var e := SignedError(env, l, ix);
    if e.Some? then Failure(e.value) else Success(After(ReadCommission(l, ix.admin).value, ix))
  }

  function EditScript(env: Env, ix: Instruction, next: Outcome<FeeAdmin>): seq<Op>
    requires ix.EditToken?
  {
    if next.Failure? then [Check(Some(next.error))]
    else [Check(SizeError(env, next.value)), Store(ix.admin, CommissionData(next.value))]
  }

  function WithdrawScript(env: Env, ix: Instruction, next: Outcome<FeeAdmin>): seq<Op>
    requires ix.Withdraw?
  {
    if next.Failure? then [Check(Some(next.error))]
    else
      match ix.entry.token
      case Native =>
        [ Pay(ix.admin, ix.receiver, ix.withdrawAmount, AdminSeeds(ix.bridgeAdmin)),
          Check(SizeError(env, next.value)),
          Store(ix.admin, CommissionData(next.value)) ]
      case FT(mint) =>
        [ Check(if ix.vault != AssociatedKey(env, ix.admin, mint)
                   || ix.receiverToken != AssociatedKey(env, ix.receiver, mint)
                then Some(WrongTokenAccount) else None),
          EnsureAssociated(ix.receiver, ix.receiver, ix.mintAccount, ix.receiverToken),
          Move(ix.vault, ix.receiverToken, ix.admin, ix.withdrawAmount, AdminSeeds(ix.bridgeAdmin)),
          Check(SizeError(env, next.value)),
          Store(ix.admin, CommissionData(next.value)) ]
      case NFT(_) => [Check(Some(NotSupported))]
  }

  function Ops(env: Env, l: Accounts, ix: Instruction): seq<Op> {
    match ix
    case InitializeAdmin(_, _, _, _) => InitializeAdminScript(env, ix)
    case ChargeCommission(_, _, _, _, _, _, _, _, _) => ChargeScript(env, ix, Price(env, l, ix))
    case EditToken(_, _, _, _, _) => EditScript(env, ix, Next(env, l, ix))
    case Withdraw(_, _, _, _, _, _, _, _, _) => WithdrawScript(env, ix, Next(env, l, ix))
  }
}
