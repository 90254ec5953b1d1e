/** What each bridge instruction asks of the ledger (bridge/program/src/processor.rs). */
module Bridge {
  import opened Wrappers
  import opened ByteStrings
  import opened BridgeContent
  import opened Chain
  import opened Ledger

  datatype SignedMetadata = SignedMetadata(name: Bytes, symbol: Bytes, uri: Bytes, decimals: byte)

  datatype Instruction =
    | InitializeAdmin(admin: Address, payer: Address, seeds: Bytes32, publicKey: Bytes, commissionProgram: Address)
    | TransferOwnership(admin: Address, seeds: Bytes32, newPublicKey: Bytes, signature: Bytes, recoveryId: byte)
    | DepositNative(admin: Address, owner: Address, seeds: Bytes32, network: Bytes, receiver: Bytes, amount: u64)
      // FT and NFT: the kinds differ in the amount (an NFT deposit moves 1) and in the fee they must have paid
    | DepositToken(nonFungible: bool, admin: Address, mint: Address, ownerToken: Address, vault: Address,
                   owner: Address, seeds: Bytes32, network: Bytes, receiver: Bytes, amount: u64,
                   tokenSeed: Option<Bytes32>)
    | WithdrawNative(admin: Address, owner: Address, record: Address, seeds: Bytes32, proof: Proof, origin: Bytes32,
                     amount: u64)
      // FT and NFT: the kinds differ in the amount (an NFT withdrawal moves 1) and in the signed content
    | WithdrawToken(nonFungible: bool, admin: Address, mint: Address, metadata: Address, owner: Address,
                    ownerToken: Address, vault: Address, record: Address, collectionMetadata: Option<Address>,
                    seeds: Bytes32, proof: Proof, origin: Bytes32, amount: u64, tokenSeed: Option<Bytes32>,
                    signedMeta: Option<SignedMetadata>)

  const MAX_NETWORKS_SIZE: nat := 20
  const MAX_ADDRESS_SIZE: nat := 100

  // The instruction before this one in the transaction, as the instructions sysvar shows it.
  datatype Payload = Unreadable | OtherInstruction | Charge(kind: TokenType, amount: u64)

  datatype Prior = Prior(program: Address, firstAccount: Option<Address>, payload: Payload)

  function UnitsMoved(ix: Instruction): u64
    requires ix.DepositNative? || ix.DepositToken? || ix.WithdrawNative? || ix.WithdrawToken?
  {
    if (ix.DepositToken? || ix.WithdrawToken?) && ix.nonFungible then 1 else ix.amount
  }

  function KindOf(ix: Instruction): TokenType {
    if (ix.DepositToken? || ix.WithdrawToken?) then (if ix.nonFungible then NonFungible else Fungible) else Sol
  }

  /** `verify_commission_charged`. */
  function FeeError(prior: Option<Prior>, adminKey: Address, admin: BridgeAdmin, kind: TokenType,
                    amount: u64): Option<Error> {
    if prior.None? then Some(Runtime)
    else if prior.value.program != admin.commissionProgram then Some(WrongCommissionProgram)
    else if prior.value.firstAccount.None? then Some(Runtime)
    else if prior.value.firstAccount.value != CommissionKey(prior.value.program, adminKey) then
      Some(WrongCommissionAccount)
    else if prior.value.payload.Unreadable? then Some(Runtime)
    else if prior.value.payload == Charge(kind, amount) then None
    else Some(WrongCommissionArguments)
  }

  // The admin is the account derived from the seeds, and initialised.
  function AdminError(env: Env, l: Accounts, adminKey: Address, seeds: Bytes32): Option<Error> {
    if adminKey != BridgeKey(env, seeds) then Some(WrongSeeds)
    else
      match ReadBridge(l, adminKey)
      case None => Some(Runtime)
      case Some(a) => if a.isInitialized then None else Some(NotInitialized)
  }

  function InitializeAdminScript(env: Env, ix: Instruction): seq<Op>
    requires ix.InitializeAdmin?
  {
    [ Check(if ix.admin != BridgeKey(env, ix.seeds) then Some(WrongSeeds) else None),
      Create(ix.payer, ix.admin, BRIDGE_ADMIN_SIZE, env.bridge, [Raw(ix.seeds)]),
      Store(ix.admin, BridgeData(BridgeAdmin(ix.publicKey, ix.commissionProgram, true))) ]
  }

  function TransferOwnershipError(env: Env, l: Accounts, ix: Instruction): Option<Error>
    requires ix.TransferOwnership?
  {
    var e := AdminError(env, l, ix.admin, ix.seeds);
    if e.Some? then e
    else SignatureError(env, env.keccak(ix.newPublicKey), ix.signature, ix.recoveryId,
                        ReadBridge(l, ix.admin).value.publicKey)
  }

  // The admin to write back, or why the rotation is refused.
  function Rotated(env: Env, l: Accounts, ix: Instruction): Outcome<BridgeAdmin>
    requires ix.TransferOwnership?
  {
    var e := TransferOwnershipError(env, l, ix);
    if e.Some? then Failure(e.value) else Success(ReadBridge(l, ix.admin).value.(publicKey := ix.newPublicKey))
  }

  function TransferOwnershipScript(ix: Instruction, next: Outcome<BridgeAdmin>): seq<Op>
    requires ix.TransferOwnership?
  {
    if next.Failure? then [Check(Some(next.error))] else [Store(ix.admin, BridgeData(next.value))]
  }

  function DepositError(env: Env, l: Accounts, prior: Option<Prior>, ix: Instruction): Option<Error>
    requires ix.DepositNative? || ix.DepositToken?
  {
    if |ix.receiver| > MAX_ADDRESS_SIZE || |ix.network| > MAX_NETWORKS_SIZE || UnitsMoved(ix) == 0 then
      Some(WrongArgsSize)
    else
      var e := AdminError(env, l, ix.admin, ix.seeds);
      if e.Some? then e
      else FeeError(prior, ix.admin, ReadBridge(l, ix.admin).value, KindOf(ix), UnitsMoved(ix))
  }

  function DepositNativeScript(ix: Instruction, early: Option<Error>): seq<Op>
    requires ix.DepositNative?
  {
    [ Check(early), Pay(ix.owner, ix.admin, ix.amount, []) ]
  }

  function DepositTokenScript(env: Env, ix: Instruction, early: Option<Error>): seq<Op>
    requires ix.DepositToken?
  {
    [ Check(early),
      Check(if ix.vault != AssociatedKey(env, ix.admin, ix.mint) then Some(WrongTokenAccount) else None),
      EnsureAssociated(ix.owner, ix.admin, ix.mint, ix.vault),
      Check(if ix.tokenSeed.Some?
          && ix.mint != OneSeedKey(env, ix.tokenSeed.value) then Some(WrongTokenSeed) else None),
      if ix.tokenSeed.Some? then Burn(ix.ownerToken, ix.mint, ix.owner, UnitsMoved(ix))
      else Move(ix.ownerToken, ix.vault, ix.owner, UnitsMoved(ix), []) ]
  }

  function NativeContent(env: Env, ix: Instruction): Content
    requires ix.WithdrawNative?
  {
    Content(NativeTransfer(ix.amount), ix.origin, env.bytes(ix.owner), env.bytes(env.bridge))
  }

  function WithdrawNativeError(env: Env, l: Accounts, ix: Instruction): Option<Error>
    requires ix.WithdrawNative?
  {
    if ix.amount == 0 then Some(WrongArgsSize)
    else
      var e := AdminError(env, l, ix.admin, ix.seeds);
      if e.Some? then e
      else
        var e := ProofError(env, Encode(NativeContent(env, ix)), ix.proof, ReadBridge(l, ix.admin).value.publicKey);
        if e.Some? then e
        else if Get(l, ix.admin).lamports < ix.amount then Some(WrongBalance)
        else if ix.record != OneSeedKey(env, ix.origin) then Some(WrongNonce)
        else None
  }

  function RecordOf(ix: Instruction): Withdraw
    requires ix.WithdrawNative? || ix.WithdrawToken?
  {
    Withdraw(KindOf(ix), if ix.WithdrawNative? then None else Some(ix.mint), UnitsMoved(ix), ix.origin, ix.owner, true)
  }

  function WithdrawNativeScript(env: Env, ix: Instruction, early: Option<Error>): seq<Op>
    requires ix.WithdrawNative?
  {
    [ Check(early),
      Create(ix.owner, ix.record, WithdrawSize(env), env.bridge, FoundSeeds(env, env.bridge, [Raw(ix.origin)])),
      Payout(ix.admin, ix.owner, ix.amount),
      Store(ix.record, WithdrawData(RecordOf(ix))) ]
  }

  function TrimStart(b: Bytes): Bytes {
    if b != [] && b[0] == 0 then TrimStart(b[1..]) else b
  }

  function TrimEnd(b: Bytes): Bytes {
    if b != [] && b[|b| - 1] == 0 then TrimEnd(b[..|b| - 1]) else b
  }

  // `trim_matches(char::from(0))`
  function Trim(b: Bytes): Bytes {
    TrimEnd(TrimStart(b))
  }

  // `try_mint_token_with_meta` creates the mint and its metadata when the mint has no data yet.
  predicate CreatesMint(l: Accounts, ix: Instruction)
    requires ix.WithdrawToken?
  {
    ix.tokenSeed.Some? && ix.signedMeta.Some? && NoData(l, ix.mint)
  }

  function NewMetadata(m: SignedMetadata): Metadata {
    Metadata(m.name, m.symbol, m.uri, None)
  }

  // The mint's metadata and decimals once the mint exists.
  function MetadataSeen(l: Accounts, ix: Instruction): Option<Metadata>
    requires ix.WithdrawToken?
  {
    if CreatesMint(l, ix) then Some(NewMetadata(ix.signedMeta.value))
    else if DataAt(l, ix.metadata).MetadataData? then Some(DataAt(l, ix.metadata).metadata)
    else None
  }

  function DecimalsSeen(l: Accounts, ix: Instruction): Option<byte>
    requires ix.WithdrawToken?
  {
    if CreatesMint(l, ix) then Some(ix.signedMeta.value.decimals)
    else if DataAt(l, ix.mint).MintData? then Some(DataAt(l, ix.mint).decimals)
    else None
  }

  // An NFT in a collection is described by the collection's name and symbol.
  function NftTransferOf(env: Env, l: Accounts, ix: Instruction, seen: Metadata): Outcome<TransferData>
    requires ix.WithdrawToken?
  {
    if seen.collection.None? then
      Success(NftTransfer(env.bytes(ix.mint), None, Trim(seen.name), Trim(seen.symbol), Trim(seen.uri)))
    else if ix.collectionMetadata.None? then Failure(Runtime)
    else if ix.collectionMetadata.value != MetadataKey(env, seen.collection.value) then Failure(WrongMetadataAccount)
    else if !DataAt(l, ix.collectionMetadata.value).MetadataData? then Failure(Runtime)
    else
      var c := DataAt(l, ix.collectionMetadata.value).metadata;
      Success(NftTransfer(env.bytes(ix.mint), Some(env.bytes(seen.collection.value)), Trim(c.name), Trim(c.symbol),
                          Trim(seen.uri)))
  }

  function TransferOf(env: Env, l: Accounts, ix: Instruction): Outcome<TransferData>
    requires ix.WithdrawToken?
  {
    var seen := MetadataSeen(l, ix);
    if seen.None? then Failure(Runtime)
    else if ix.nonFungible then NftTransferOf(env, l, ix, seen.value)
    else
      var decimals := DecimalsSeen(l, ix);
      if decimals.None? then Failure(Runtime)
      else Success(FtTransfer(env.bytes(ix.mint), ix.amount, Trim(seen.value.name), Trim(seen.value.symbol),
                              Trim(seen.value.uri), decimals.value))
  }

  function TokenContent(env: Env, ix: Instruction, transfer: TransferData): Content
    requires ix.WithdrawToken?
  {
    Content(transfer, ix.origin, env.bytes(ix.owner), env.bytes(env.bridge))
  }

  function WithdrawTokenError(env: Env, l: Accounts, ix: Instruction): Option<Error>
    requires ix.WithdrawToken?
  {
    if ix.amount == 0 then Some(WrongArgsSize)
    else
      var e := AdminError(env, l, ix.admin, ix.seeds);
      if e.Some? then e
      else if ix.metadata != MetadataKey(env, ix.mint) then Some(WrongMetadataAccount)
      else if ix.tokenSeed.Some? && ix.mint != OneSeedKey(env, ix.tokenSeed.value) then Some(WrongTokenSeed)
      else if ix.tokenSeed.Some? && ix.signedMeta.None? then Some(NoTokenMeta)
      else None
  }

  // Checked once the mint exists; `publicKey` is the admin's.
  function TokenProofError(env: Env, l: Accounts, ix: Instruction, publicKey: Bytes): Option<Error>
    requires ix.WithdrawToken?
  {
    match TransferOf(env, l, ix)
    case Failure(e) => Some(e)
    case Success(transfer) =>
      var e := ProofError(env, Encode(TokenContent(env, ix, transfer)), ix.proof, publicKey);
      if e.Some? then e
      else if ix.vault != AssociatedKey(env, ix.admin, ix.mint) then Some(WrongTokenAccount)
      else None
  }

  function WhenCreated(creates: bool, op: Op): Op {
    if creates then op else Check(None)
  }

  // What the script of a token withdrawal takes from the ledger: two checks, and whether to create the mint.
  datatype Parts = Parts(early: Option<Error>, proof: Option<Error>, creates: bool, tokenSeed: Bytes,
                         meta: SignedMetadata)

  function PartsOf(env: Env, l: Accounts, ix: Instruction): Parts
    requires ix.WithdrawToken?
  {
    var early := WithdrawTokenError(env, l, ix);
    Parts(early, if early.Some? then None else TokenProofError(env, l, ix, ReadBridge(l, ix.admin).value.publicKey),
          CreatesMint(l, ix), if ix.tokenSeed.Some? then ix.tokenSeed.value else [],
          if ix.signedMeta.Some? then ix.signedMeta.value else SignedMetadata([], [], [], 0))
  }

  function WithdrawTokenScript(env: Env, ix: Instruction, p: Parts): seq<Op>
    requires ix.WithdrawToken?
  {
    [ Check(p.early),
      WhenCreated(p.creates, Create(ix.owner, ix.mint, MINT_SIZE, env.tokenProgram,
                                    FoundSeeds(env, env.bridge, [Raw(p.tokenSeed)]))),
      WhenCreated(p.creates, InitMint(ix.mint, ix.admin, p.meta.decimals)),
      WhenCreated(p.creates, CreateMetadata(ix.metadata, ix.mint, ix.admin, ix.owner, NewMetadata(p.meta),
                                            [Raw(ix.seeds)])),
      Check(p.proof),
      EnsureAssociated(ix.owner, ix.admin, ix.mint, ix.vault),
      NeedToken(ix.vault),
      Check(if ix.ownerToken != AssociatedKey(env, ix.owner, ix.mint) then Some(WrongTokenAccount) else None),
      EnsureAssociated(ix.owner, ix.owner, ix.mint, ix.ownerToken),
      TopUp(ix.mint, ix.vault, ix.admin, UnitsMoved(ix), [Raw(ix.seeds)]),
      Move(ix.vault, ix.ownerToken, ix.admin, UnitsMoved(ix), [Raw(ix.seeds)]),
      Check(if ix.record != OneSeedKey(env, ix.origin) then Some(WrongNonce) else None),
      Create(ix.owner, ix.record, WithdrawSize(env), env.bridge, FoundSeeds(env, env.bridge, [Raw(ix.origin)])),
      Store(ix.record, WithdrawData(RecordOf(ix))) ]
  }

  function Ops(env: Env, l: Accounts, prior: Option<Prior>, ix: Instruction): seq<Op> {
    match ix
    case InitializeAdmin(_, _, _, _, _) => InitializeAdminScript(env, ix)
    case TransferOwnership(_, _, _, _, _) => TransferOwnershipScript(ix, Rotated(env, l, ix))
    case DepositNative(_, _, _, _, _, _) => DepositNativeScript(ix, DepositError(env, l, prior, ix))
    case DepositToken(_, _, _, _, _, _, _, _, _, _, _) => DepositTokenScript(env, ix, DepositError(env, l, prior, ix))
    case WithdrawNative(_, _, _, _, _, _, _) => WithdrawNativeScript(env, ix, WithdrawNativeError(env, l, ix))
    case WithdrawToken(_, _, _, _, _, _, _, _, _, _, _, _, _, _, _) => WithdrawTokenScript(env, ix, PartsOf(env, l, ix))
  }
}
