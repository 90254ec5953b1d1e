/** The bridge handlers, step by step as bridge/program/src/processor.rs runs them, each proved to do to the
    ledger exactly what its script says. */
module BridgeProcessor {
  import opened Wrappers
  import opened ByteStrings
  import opened Merkle
  import opened BridgeContent
  import opened Chain
  import opened Ledger
  import opened Worlds
  import opened Bridge

  // Every handler starts by loading the admin.
  method LoadAdmin(w: World, key: Address, seeds: Bytes32) returns (r: Outcome<BridgeAdmin>)
    ensures match Bridge.AdminError(w.env, w.accounts, key, seeds)
            case Some(e) => r == Failure(e)
            case None => ReadBridge(w.accounts, key).Some? && r == Success(ReadBridge(w.accounts, key).value)
  {
    if key != BridgeKey(w.env, seeds) {
      return Failure(WrongSeeds);
    }
    var read := ReadBridge(w.accounts, key);
    if read.None? {
      return Failure(Runtime);
    }
    if !read.value.isInitialized {
      return Failure(NotInitialized);
    }
    return Success(read.value);
  }

  /** `verify_commission_charged`: the instruction before this one must be the matching charge. */
  method VerifyCommissionCharged(prior: Option<Prior>, adminKey: Address, admin: BridgeAdmin, kind: TokenType,
                                 amount: u64)
    returns (status: Status)
    ensures status == StatusOf(FeeError(prior, adminKey, admin, kind, amount))
  {
    if prior.None? {
      return Err(Runtime);
    }
    var commission := prior.value;
    if commission.program != admin.commissionProgram {
      return Err(WrongCommissionProgram);
    }
    var key := CommissionKey(commission.program, adminKey);
    if commission.firstAccount.None? {
      return Err(Runtime);
    }
    if key != commission.firstAccount.value {
      return Err(WrongCommissionAccount);
    }
    if commission.payload.Unreadable? {
      return Err(Runtime);
    }
    if commission.payload.Charge? {
      if commission.payload.kind == kind && commission.payload.amount == amount {
        return Ok;
      }
    }
    return Err(WrongCommissionArguments);
  }

  /** `process_init_admin`. */
  method ProcessInitAdmin(w: World, auth: Auth, ix: Instruction) returns (status: Status)
    requires ix.InitializeAdmin? && auth.program == w.env.bridge
    modifies w
    ensures Refines(Play(w.env, auth, old(w.accounts), InitializeAdminScript(w.env, ix), 0), status, w.accounts)
  {
    ghost var ops, l0 := InitializeAdminScript(w.env, ix), w.accounts;
    if BridgeKey(w.env, ix.seeds) != ix.admin {
      return Err(WrongSeeds);
    }
    assert Play(w.env, auth, l0, ops, 0) == Play(w.env, auth, l0, ops, 1);
    :- w.CreateAccount(auth, ix.payer, ix.admin, BRIDGE_ADMIN_SIZE, w.env.bridge, [Raw(ix.seeds)]);
    assert Play(w.env, auth, l0, ops, 1) == Play(w.env, auth, w.accounts, ops, 2);
    var admin := ReadBridge(w.accounts, ix.admin).value;
    if admin.isInitialized {
      return Err(AlreadyInUse);
    }
    admin := admin.(publicKey := ix.publicKey);
    admin := admin.(isInitialized := true);
    admin := admin.(commissionProgram := ix.commissionProgram);
    status := w.Serialize(auth, ix.admin, BridgeData(admin));
  }

  /** `process_transfer_ownership`. */
  method ProcessTransferOwnership(w: World, auth: Auth, ix: Instruction) returns (status: Status)
    requires ix.TransferOwnership? && auth.program == w.env.bridge
    modifies w
    ensures Refines(Play(w.env, auth, old(w.accounts),
                         TransferOwnershipScript(ix, Rotated(w.env, old(w.accounts), ix)), 0), status, w.accounts)
  {
    var loaded := LoadAdmin(w, ix.admin, ix.seeds);
    if loaded.Failure? {
      return Err(loaded.error);
    }
    var admin := loaded.value;
    :- VerifyEcdsaSignature(w.env, w.env.keccak(ix.newPublicKey), ix.signature, ix.recoveryId, admin.publicKey);
    admin := admin.(publicKey := ix.newPublicKey);
    status := w.Serialize(auth, ix.admin, BridgeData(admin));
  }

  // The validation of the arguments and the checks every deposit starts with.
  method CheckDeposit(w: World, prior: Option<Prior>, ix: Instruction) returns (status: Status)
    requires ix.DepositNative? || ix.DepositToken?
    ensures status == StatusOf(DepositError(w.env, w.accounts, prior, ix))
  {
    if |ix.receiver| > MAX_ADDRESS_SIZE || |ix.network| > MAX_NETWORKS_SIZE {
      return Err(WrongArgsSize);
    }
    if (ix.DepositNative? || !ix.nonFungible) && ix.amount == 0 {
      return Err(WrongArgsSize);
    }
    var loaded := LoadAdmin(w, ix.admin, ix.seeds);
    if loaded.Failure? {
      return Err(loaded.error);
    }
    if ix.DepositNative? {
      status := VerifyCommissionCharged(prior, ix.admin, loaded.value, Sol, ix.amount);
    } else if ix.nonFungible {
      status := VerifyCommissionCharged(prior, ix.admin, loaded.value, NonFungible, 1);
    } else {
      status := VerifyCommissionCharged(prior, ix.admin, loaded.value, Fungible, ix.amount);
    }
  }

  /** `process_deposit_native`. */
  method ProcessDepositNative(w: World, auth: Auth, prior: Option<Prior>, ix: Instruction) returns (status: Status)
    requires ix.DepositNative? && auth.program == w.env.bridge
    modifies w
    ensures Refines(Play(w.env, auth, old(w.accounts),
                         DepositNativeScript(ix, DepositError(w.env, old(w.accounts), prior, ix)), 0),
                    status, w.accounts)
  {
    ghost var ops, l0 := DepositNativeScript(ix, DepositError(w.env, w.accounts, prior, ix)), w.accounts;
    :- CheckDeposit(w, prior, ix);
    assert Play(w.env, auth, l0, ops, 0) == Play(w.env, auth, l0, ops, 1);
    status := w.TransferLamports(auth, ix.owner, ix.admin, ix.amount, []);
  }

  /** `process_deposit_ft` and `process_deposit_nft`. */
  method ProcessDepositToken(w: World, auth: Auth, prior: Option<Prior>, ix: Instruction) returns (status: Status)
    requires ix.DepositToken? && auth.program == w.env.bridge
    modifies w
    ensures Refines(Play(w.env, auth, old(w.accounts),
                         DepositTokenScript(w.env, ix, DepositError(w.env, old(w.accounts), prior, ix)), 0),
                    status, w.accounts)
  {
    ghost var ops, l0 := DepositTokenScript(w.env, ix, DepositError(w.env, w.accounts, prior, ix)), w.accounts;
    :- CheckDeposit(w, prior, ix);
    assert Play(w.env, auth, l0, ops, 0) == Play(w.env, auth, l0, ops, 1);
    if ix.vault != AssociatedKey(w.env, ix.admin, ix.mint) {
      return Err(WrongTokenAccount);
    }
    assert Play(w.env, auth, l0, ops, 1) == Play(w.env, auth, l0, ops, 2);
    :- w.EnsureAssociatedAccount(auth, ix.owner, ix.admin, ix.mint, ix.vault);
    assert Play(w.env, auth, l0, ops, 2) == Play(w.env, auth, w.accounts, ops, 3);
    if ix.tokenSeed.Some? && OneSeedKey(w.env, ix.tokenSeed.value) != ix.mint {
      return Err(WrongTokenSeed);
    }
    assert Play(w.env, auth, l0, ops, 2) == Play(w.env, auth, w.accounts, ops, 4);
    PlayLast(w.env, auth, w.accounts, ops);
    var amount: u64 := if ix.nonFungible then 1 else ix.amount;
    if ix.tokenSeed.Some? {
      status := w.BurnTokens(auth, ix.ownerToken, ix.mint, ix.owner, amount);
    } else {
      status := w.TransferTokens(auth, ix.ownerToken, ix.vault, ix.owner, amount, []);
    }
  }

  // Fills in the new record; `ops` is the script of the withdrawal, which ends with this.
  method InitializeRecord(w: World, auth: Auth, ix: Instruction, ghost ops: seq<Op>) returns (status: Status)
    requires (ix.WithdrawNative? || ix.WithdrawToken?) && ops != []
             && ops[|ops| - 1] == Store(ix.record, WithdrawData(RecordOf(ix)))
    requires DataAt(w.accounts, ix.record) == Blank(WithdrawSize(w.env))
    modifies w
    ensures RefinesPart(w.env, auth, ops, old(w.accounts), |ops| - 1, status, w.accounts, |ops|)
  {
    var withdraw := Withdraw(Sol, None, 0, Zeros(32), Base(0), false);
    withdraw := withdraw.(isInitialized := true, origin := ix.origin, receiver := ix.owner);
    if ix.WithdrawNative? {
      withdraw := withdraw.(tokenType := Sol, mint := None, amount := ix.amount);
    } else if ix.nonFungible {
      withdraw := withdraw.(tokenType := NonFungible, mint := Some(ix.mint), amount := 1);
    } else {
      withdraw := withdraw.(tokenType := Fungible, mint := Some(ix.mint), amount := ix.amount);
    }
    status := w.Serialize(auth, ix.record, WithdrawData(withdraw));
  }

  // The checks before a native payout.
  method CheckNativeWithdrawal(w: World, ix: Instruction) returns (status: Status)
    requires ix.WithdrawNative?
    ensures status == StatusOf(WithdrawNativeError(w.env, w.accounts, ix))
  {
    if ix.amount == 0 {
      return Err(WrongArgsSize);
    }
    var loaded := LoadAdmin(w, ix.admin, ix.seeds);
    if loaded.Failure? {
      return Err(loaded.error);
    }
    var content := Content(NativeTransfer(ix.amount), ix.origin, w.env.bytes(ix.owner), w.env.bytes(w.env.bridge));
    var hash := HashContent(w.env.keccak, content);
    :- VerifyProof(w.env, hash, ix.proof, loaded.value.publicKey);
    if Get(w.accounts, ix.admin).lamports < ix.amount {
      return Err(WrongBalance);
    }
    if OneSeedKey(w.env, ix.origin) != ix.record {
      return Err(WrongNonce);
    }
    return Ok;
  }

  /** `process_withdraw_native`: the record is created before the lamports move. */
  method ProcessWithdrawNative(w: World, auth: Auth, ix: Instruction) returns (status: Status)
    requires ix.WithdrawNative? && auth.program == w.env.bridge
    modifies w
    ensures Refines(Play(w.env, auth, old(w.accounts),
                         WithdrawNativeScript(w.env, ix, WithdrawNativeError(w.env, old(w.accounts), ix)), 0),
                    status, w.accounts)
  {
    ghost var ops, l0 := WithdrawNativeScript(w.env, ix, WithdrawNativeError(w.env, w.accounts, ix)), w.accounts;
    :- CheckNativeWithdrawal(w, ix);
    assert Play(w.env, auth, l0, ops, 0) == Play(w.env, auth, l0, ops, 1);
    :- w.CreateAccount(auth, ix.owner, ix.record, WithdrawSize(w.env), w.env.bridge,
                       FoundSeeds(w.env, w.env.bridge, [Raw(ix.origin)]));
    assert Play(w.env, auth, l0, ops, 1) == Play(w.env, auth, w.accounts, ops, 2);
    :- w.PayOut(auth, ix.admin, ix.owner, ix.amount);
    assert Play(w.env, auth, l0, ops, 1) == Play(w.env, auth, w.accounts, ops, 3);
    status := InitializeRecord(w, auth, ix, ops);
  }

  // The checks of a token withdrawal up to the mint.
  method BeginTokenWithdrawal(w: World, ix: Instruction) returns (r: Outcome<BridgeAdmin>)
    requires ix.WithdrawToken?
    ensures var e := WithdrawTokenError(w.env, w.accounts, ix);
            match r
            case Failure(error) => e == Some(error)
            case Success(admin) =>
              ReadBridge(w.accounts, ix.admin) == Some(admin)
              && e == if ix.tokenSeed.None? then None
                      else if ix.mint != OneSeedKey(w.env, ix.tokenSeed.value) then Some(WrongTokenSeed)
                      else if ix.signedMeta.None? then Some(NoTokenMeta) else None
  {
    if ix.amount == 0 {
      return Failure(WrongArgsSize);
    }
    r := LoadAdmin(w, ix.admin, ix.seeds);
    if r.Success? && ix.metadata != MetadataKey(w.env, ix.mint) {
      return Failure(WrongMetadataAccount);
    }
  }

  // The parts of the script that are about the mint agree with the ledger before it.
  predicate MintParts(l: Accounts, ix: Instruction, p: Parts)
    requires ix.WithdrawToken?
  {
    p.creates == CreatesMint(l, ix)
    && (ix.tokenSeed.Some? ==> p.tokenSeed == ix.tokenSeed.value)
    && (ix.signedMeta.Some? ==> p.meta == ix.signedMeta.value)
  }

  // The script's place for creating the mint.
  ghost predicate MintsAt(env: Env, ix: Instruction, p: Parts, ops: seq<Op>)
    requires ix.WithdrawToken?
  {
    |ops| > 4
    && ops[1] == WhenCreated(p.creates, Create(ix.owner, ix.mint, MINT_SIZE, env.tokenProgram,
                                                  FoundSeeds(env, env.bridge, [Raw(p.tokenSeed)])))
    && ops[2] == WhenCreated(p.creates, InitMint(ix.mint, ix.admin, p.meta.decimals))
    && ops[3] == WhenCreated(p.creates, CreateMetadata(ix.metadata, ix.mint, ix.admin, ix.owner, NewMetadata(p.meta),
                                                          [Raw(ix.seeds)]))
  }

  /** `try_mint_token_with_meta`: creates the mint and its metadata the first time a wrapped token is withdrawn. */
  method TryMintTokenWithMeta(w: World, auth: Auth, ix: Instruction, ghost p: Parts, ghost ops: seq<Op>)
    returns (status: Status)
    requires ix.WithdrawToken? && ix.tokenSeed.Some? && auth.program == w.env.bridge
    requires MintParts(w.accounts, ix, p) && MintsAt(w.env, ix, p, ops)
    modifies w
    ensures ix.mint != OneSeedKey(w.env, ix.tokenSeed.value) ==> status == Err(WrongTokenSeed)
    ensures ix.mint == OneSeedKey(w.env, ix.tokenSeed.value) && ix.signedMeta.None? ==> status == Err(NoTokenMeta)
    ensures ix.mint == OneSeedKey(w.env, ix.tokenSeed.value) && ix.signedMeta.Some? ==>
              RefinesPart(w.env, auth, ops, old(w.accounts), 1, status, w.accounts, 4)
    ensures status.Ok? ==> if p.creates then MintedBy(w.accounts, ix) else w.accounts == old(w.accounts)
  {
    var seed := ix.tokenSeed.value;
    if OneSeedKey(w.env, seed) != ix.mint {
      return Err(WrongTokenSeed);
    }
    if ix.signedMeta.None? {
      return Err(NoTokenMeta);
    }
    var signedMeta := ix.signedMeta.value;
    if NoData(w.accounts, ix.mint) {
      status := CreateMint(w, auth, ix, seed, signedMeta, ops);
    } else {
      PassesChecks(w.env, auth, w.accounts, ops, 1);
      status := Ok;
    }
  }

  // The mint account, its initialisation and its metadata.
  method CreateMint(w: World, auth: Auth, ix: Instruction, seed: Bytes32, meta: SignedMetadata,
                    ghost ops: seq<Op>) returns (status: Status)
    requires ix.WithdrawToken? && auth.program == w.env.bridge && |ops| > 3
    requires ops[1] == Create(ix.owner, ix.mint, MINT_SIZE, w.env.tokenProgram,
                              FoundSeeds(w.env, w.env.bridge, [Raw(seed)]))
    requires ops[2] == InitMint(ix.mint, ix.admin, meta.decimals)
    requires ops[3] == CreateMetadata(ix.metadata, ix.mint, ix.admin, ix.owner, NewMetadata(meta), [Raw(ix.seeds)])
    modifies w
    ensures RefinesPart(w.env, auth, ops, old(w.accounts), 1, status, w.accounts, 4)
    ensures status.Ok? ==> DataAt(w.accounts, ix.mint) == MintData(Some(ix.admin), 0, meta.decimals)
                           && DataAt(w.accounts, ix.metadata) == MetadataData(NewMetadata(meta))
  {
    ghost var l0 := w.accounts;
    :- w.CreateAccount(auth, ix.owner, ix.mint, MINT_SIZE, w.env.tokenProgram,
                       FoundSeeds(w.env, w.env.bridge, [Raw(seed)]));
    assert Play(w.env, auth, l0, ops, 1) == Play(w.env, auth, w.accounts, ops, 2);
    :- w.InitializeMint(auth, ix.mint, ix.admin, meta.decimals);
    assert Play(w.env, auth, l0, ops, 1) == Play(w.env, auth, w.accounts, ops, 3);
    status := w.CreateMetadataAccount(auth, ix.metadata, ix.mint, ix.admin, ix.owner, NewMetadata(meta),
                                      [Raw(ix.seeds)]);
  }

  // Three checks that cannot fail.
  lemma PassesChecks(env: Env, auth: Auth, l: Accounts, ops: seq<Op>, i: nat)
    requires i + 3 <= |ops| && ops[i] == Check(None) && ops[i + 1] == Check(None) && ops[i + 2] == Check(None)
    ensures Play(env, auth, l, ops, i) == Play(env, auth, l, ops, i + 3)
  {
    assert Play(env, auth, l, ops, i) == Play(env, auth, l, ops, i + 1);
    assert Play(env, auth, l, ops, i + 1) == Play(env, auth, l, ops, i + 2);
  }

  // The mint exists, described by the signed metadata.
  predicate MintedBy(l: Accounts, ix: Instruction)
    requires ix.WithdrawToken?
  {
    ix.signedMeta.Some?
    && DataAt(l, ix.mint) == MintData(Some(ix.admin), 0, ix.signedMeta.value.decimals)
    && DataAt(l, ix.metadata) == MetadataData(NewMetadata(ix.signedMeta.value))
  }

  // What the handler reads back from a mint it has just created is what the script foresaw.
  lemma ForeseenTransfer(env: Env, l: Accounts, l': Accounts, ix: Instruction)
    requires ix.WithdrawToken? && if CreatesMint(l, ix) then MintedBy(l', ix) else l' == l
    ensures !CreatesMint(l', ix) && TransferOf(env, l', ix) == TransferOf(env, l, ix)
  {
  }

  lemma ForeseenProof(env: Env, l: Accounts, l': Accounts, ix: Instruction, publicKey: Bytes)
    requires ix.WithdrawToken? && if CreatesMint(l, ix) then MintedBy(l', ix) else l' == l
    ensures !CreatesMint(l', ix) && TokenProofError(env, l', ix, publicKey) == TokenProofError(env, l, ix, publicKey)
  {
    ForeseenTransfer(env, l, l', ix);
  }

  // The signed description of what is withdrawn, read from the mint's accounts.
  method ReadTransfer(w: World, ix: Instruction) returns (r: Outcome<TransferData>)
    requires ix.WithdrawToken? && !CreatesMint(w.accounts, ix)
    ensures r == TransferOf(w.env, w.accounts, ix)
  {
    var data := DataAt(w.accounts, ix.metadata);
    if !data.MetadataData? {
      return Failure(Runtime);
    }
    var metadata := data.metadata;
    if !ix.nonFungible {
      var mint := DataAt(w.accounts, ix.mint);
      if !mint.MintData? {
        return Failure(Runtime);
      }
      return Success(FtTransfer(w.env.bytes(ix.mint), ix.amount, Trim(metadata.name), Trim(metadata.symbol),
                                Trim(metadata.uri), mint.decimals));
    }
    var name, symbol := metadata.name, metadata.symbol;
    var collection: Option<Bytes32> := None;
    if metadata.collection.Some? {
      var key := metadata.collection.value;
      if ix.collectionMetadata.None? {
        return Failure(Runtime);
      }
      if ix.collectionMetadata.value != MetadataKey(w.env, key) {
        return Failure(WrongMetadataAccount);
      }
      var collectionData := DataAt(w.accounts, ix.collectionMetadata.value);
      if !collectionData.MetadataData? {
        return Failure(Runtime);
      }
      name, symbol := collectionData.metadata.name, collectionData.metadata.symbol;
      collection := Some(w.env.bytes(key));
    }
    return Success(NftTransfer(w.env.bytes(ix.mint), collection, Trim(name), Trim(symbol), Trim(metadata.uri)));
  }

  method VerifyTokenWithdrawal(w: World, ix: Instruction, publicKey: Bytes) returns (status: Status)
    requires ix.WithdrawToken? && !CreatesMint(w.accounts, ix)
    ensures status == StatusOf(TokenProofError(w.env, w.accounts, ix, publicKey))
  {
    var transfer := ReadTransfer(w, ix);
    if transfer.Failure? {
      return Err(transfer.error);
    }
    var content := Content(transfer.value, ix.origin, w.env.bytes(ix.owner), w.env.bytes(w.env.bridge));
    var hash := HashContent(w.env.keccak, content);
    :- VerifyProof(w.env, hash, ix.proof, publicKey);
    if ix.vault != AssociatedKey(w.env, ix.admin, ix.mint) {
      return Err(WrongTokenAccount);
    }
    return Ok;
  }

  // Creates the two token accounts where missing; `held` is what the vault has.
  method OpenTokenAccounts(w: World, auth: Auth, ix: Instruction, ghost p: Parts) returns (status: Status, held: u64)
    requires ix.WithdrawToken? && auth.program == w.env.bridge
    modifies w
    ensures RefinesPart(w.env, auth, WithdrawTokenScript(w.env, ix, p), old(w.accounts), 5, status, w.accounts, 9)
    ensures status.Ok? ==> held == Balance(w.accounts, ix.vault)
  {
    ghost var ops, l0 := WithdrawTokenScript(w.env, ix, p), w.accounts;
    held := 0;
    status := w.EnsureAssociatedAccount(auth, ix.owner, ix.admin, ix.mint, ix.vault);
    if status.Err? {
      return;
    }
    assert Play(w.env, auth, l0, ops, 5) == Play(w.env, auth, w.accounts, ops, 6);
    var vault := DataAt(w.accounts, ix.vault);
    if !vault.TokenData? {
      return Err(Runtime), 0;
    }
    held := vault.amount;
    assert Play(w.env, auth, l0, ops, 5) == Play(w.env, auth, w.accounts, ops, 7);
    if ix.ownerToken != AssociatedKey(w.env, ix.owner, ix.mint) {
      return Err(WrongTokenAccount), 0;
    }
    assert Play(w.env, auth, l0, ops, 5) == Play(w.env, auth, w.accounts, ops, 8);
    status := w.EnsureAssociatedAccount(auth, ix.owner, ix.owner, ix.mint, ix.ownerToken);
  }

  // Mints what the vault lacks, and pays out of the vault.
  method PayOutOfVault(w: World, auth: Auth, ix: Instruction, held: u64, ghost ops: seq<Op>) returns (status: Status)
    requires ix.WithdrawToken? && auth.program == w.env.bridge && held == Balance(w.accounts, ix.vault) && |ops| > 10
    requires ops[9] == TopUp(ix.mint, ix.vault, ix.admin, UnitsMoved(ix), [Raw(ix.seeds)])
    requires ops[10] == Move(ix.vault, ix.ownerToken, ix.admin, UnitsMoved(ix), [Raw(ix.seeds)])
    modifies w
    ensures RefinesPart(w.env, auth, ops, old(w.accounts), 9, status, w.accounts, 11)
  {
    ghost var l0 := w.accounts;
    var amount: u64 := if ix.nonFungible then 1 else ix.amount;
    if held < amount {
      :- w.MintTokens(auth, ix.mint, ix.vault, ix.admin, amount - held, [Raw(ix.seeds)]);
    }
    assert Play(w.env, auth, l0, ops, 9) == Play(w.env, auth, w.accounts, ops, 10);
    status := w.TransferTokens(auth, ix.vault, ix.ownerToken, ix.admin, amount, [Raw(ix.seeds)]);
  }

  method RecordTokenWithdrawal(w: World, auth: Auth, ix: Instruction, ghost p: Parts) returns (status: Status)
    requires ix.WithdrawToken? && auth.program == w.env.bridge
    modifies w
    ensures RefinesPart(w.env, auth, WithdrawTokenScript(w.env, ix, p), old(w.accounts), 11, status, w.accounts, 14)
  {
    ghost var ops, l0 := WithdrawTokenScript(w.env, ix, p), w.accounts;
    if OneSeedKey(w.env, ix.origin) != ix.record {
      return Err(WrongNonce);
    }
    assert Play(w.env, auth, l0, ops, 11) == Play(w.env, auth, l0, ops, 12);
    :- w.CreateAccount(auth, ix.owner, ix.record, WithdrawSize(w.env), w.env.bridge,
                       FoundSeeds(w.env, w.env.bridge, [Raw(ix.origin)]));
    assert Play(w.env, auth, l0, ops, 11) == Play(w.env, auth, w.accounts, ops, 13);
    status := InitializeRecord(w, auth, ix, ops);
  }

  // Everything up to the verified signature.
  method AuthoriseTokenWithdrawal(w: World, auth: Auth, ix: Instruction, ghost p: Parts, ghost ops: seq<Op>)
    returns (status: Status)
    requires ix.WithdrawToken? && auth.program == w.env.bridge && MintParts(w.accounts, ix, p)
    requires p.early == WithdrawTokenError(w.env, w.accounts, ix)
    requires forall admin | ReadBridge(w.accounts, ix.admin) == Some(admin) ::
               p.early.None? ==> p.proof == TokenProofError(w.env, w.accounts, ix, admin.publicKey)
    requires MintsAt(w.env, ix, p, ops) && ops[0] == Check(p.early) && ops[4] == Check(p.proof)
    modifies w
    ensures RefinesPart(w.env, auth, ops, old(w.accounts), 0, status, w.accounts, 5)
  {
    ghost var l0 := w.accounts;
    PlayCheck(w.env, auth, l0, ops, 0);
    var loaded := BeginTokenWithdrawal(w, ix);
    if loaded.Failure? {
      return Err(loaded.error);
    }
    if ix.tokenSeed.Some? {
      :- TryMintTokenWithMeta(w, auth, ix, p, ops);
    } else {
      PassesChecks(w.env, auth, l0, ops, 1);
    }
    assert Play(w.env, auth, l0, ops, 0) == Play(w.env, auth, w.accounts, ops, 4);
    ForeseenProof(w.env, l0, w.accounts, ix, loaded.value.publicKey);
    PlayCheck(w.env, auth, w.accounts, ops, 4);
    status := VerifyTokenWithdrawal(w, ix, loaded.value.publicKey);
  }

  /** `process_withdraw_ft` and `process_withdraw_nft`. */
  method ProcessWithdrawToken(w: World, auth: Auth, ix: Instruction) returns (status: Status)
    requires ix.WithdrawToken? && auth.program == w.env.bridge
    modifies w
    ensures Refines(Play(w.env, auth, old(w.accounts),
                         WithdrawTokenScript(w.env, ix, PartsOf(w.env, old(w.accounts), ix)), 0),
                    status, w.accounts)
  {
    ghost var p := PartsOf(w.env, w.accounts, ix);
    :- AuthoriseTokenWithdrawal(w, auth, ix, p, WithdrawTokenScript(w.env, ix, p));
    var held;
    status, held := OpenTokenAccounts(w, auth, ix, p);
    if status.Err? {
      return;
    }
    :- PayOutOfVault(w, auth, ix, held, WithdrawTokenScript(w.env, ix, p));
    status := RecordTokenWithdrawal(w, auth, ix, p);
  }

  /** `process_instruction`. */
  method Process(w: World, auth: Auth, prior: Option<Prior>, ix: Instruction) returns (status: Status)
    requires auth.program == w.env.bridge
    modifies w
    ensures Refines(Play(w.env, auth, old(w.accounts), Bridge.Ops(w.env, old(w.accounts), prior, ix), 0), status,
                    w.accounts)
  {
    match ix {
      case InitializeAdmin(_, _, _, _, _) => status := ProcessInitAdmin(w, auth, ix);
      case TransferOwnership(_, _, _, _, _) => status := ProcessTransferOwnership(w, auth, ix);
      case DepositNative(_, _, _, _, _, _) => status := ProcessDepositNative(w, auth, prior, ix);
      case DepositToken(_, _, _, _, _, _, _, _, _, _, _) => status := ProcessDepositToken(w, auth, prior, ix);
      case WithdrawNative(_, _, _, _, _, _, _) => status := ProcessWithdrawNative(w, auth, ix);
      case WithdrawToken(_, _, _, _, _, _, _, _, _, _, _, _, _, _, _) => status := ProcessWithdrawToken(w, auth, ix);
    }
  }
}
