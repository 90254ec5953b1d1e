/** What a token withdrawal comes to, stage by stage: its refusals in order, and the ledger it leaves. */
module TokenOutcomes {
  import opened Wrappers
  import opened ByteStrings
  import opened BridgeContent
  import opened Chain
  import opened Ledger
  import opened Programs
  import opened BridgeOutcomes
  import opened Trimming
  import Bridge

  // ---- The stages ----

  // Writing the record, paid for by the receiver.
  function Recording(env: Env, l: Accounts, signers: set<Address>, ix: Bridge.Instruction): Outcome<Accounts>
    requires ix.WithdrawToken?
  {
    if ix.record != Found(env, env.bridge, [Raw(ix.origin)]) then Failure(WrongNonce)
    else if ix.owner !in signers then Failure(Runtime)
    else
      var kind, amount := if ix.nonFungible then NonFungible else Fungible, if ix.nonFungible then 1 else ix.amount;
      var record := Withdraw(kind, Some(ix.mint), amount, ix.origin, ix.owner, true);
      Created(env, l, ix.owner, ix.record, env.tagSize + 161, env.bridge, WithdrawData(record))
  }

  // The vault pays.
  function Moving(env: Env, l: Accounts, signers: set<Address>, ix: Bridge.Instruction): Outcome<Accounts>
    requires ix.WithdrawToken?
  {
    var paid := Moved(l, ix.vault, ix.ownerToken, ix.admin, if ix.nonFungible then 1 else ix.amount);
    if paid.Failure? then paid else Recording(env, paid.value, signers, ix)
  }

  // The admin mints what the vault lacks.
  function Covered(l: Accounts, ix: Bridge.Instruction): Outcome<Accounts>
    requires ix.WithdrawToken?
  {
    var amount, held := if ix.nonFungible then 1 else ix.amount, Balance(l, ix.vault);
    if held < amount then Minted(l, ix.mint, ix.vault, ix.admin, amount - held) else Success(l)
  }

  function Paying(env: Env, l: Accounts, signers: set<Address>, ix: Bridge.Instruction): Outcome<Accounts>
    requires ix.WithdrawToken?
  {
    var covered := Covered(l, ix);
    if covered.Failure? then covered else Moving(env, covered.value, signers, ix)
  }

  // The two token accounts: the admin's has to be one, and the receiver's to be the receiver's.
  function Opening(env: Env, l: Accounts, signers: set<Address>, ix: Bridge.Instruction): Outcome<Accounts>
    requires ix.WithdrawToken?
  {
    var vaulted := WithTokenAccount(env, l, signers, ix.owner, ix.admin, ix.mint, ix.vault);
    if vaulted.Failure? then vaulted
    else if !DataAt(vaulted.value, ix.vault).TokenData? then Failure(Runtime)
    else if ix.ownerToken != Found(env, env.associatedProgram, [Of(ix.owner), Of(env.tokenProgram), Of(ix.mint)]) then
      Failure(WrongTokenAccount)
    else
      var received := WithTokenAccount(env, vaulted.value, signers, ix.owner, ix.owner, ix.mint, ix.ownerToken);
      if received.Failure? then received else Paying(env, received.value, signers, ix)
  }

  // What is signed for, as the accounts describe it: an NFT by its collection's name and symbol, if it has one.
  ghost function Transfer(env: Env, l: Accounts, ix: Bridge.Instruction): Outcome<TransferData>
    requires ix.WithdrawToken?
  {
    var mint := env.bytes(ix.mint);
    match (DataAt(l, ix.metadata), DataAt(l, ix.mint))
    case (MetadataData(own), data) =>
      if !ix.nonFungible then
        if !data.MintData? then Failure(Runtime)
        else Success(FtTransfer(mint, ix.amount, Bare(own.name), Bare(own.symbol), Bare(own.uri), data.decimals))
      else if own.collection == None then
        Success(NftTransfer(mint, None, Bare(own.name), Bare(own.symbol), Bare(own.uri)))
      else if ix.collectionMetadata == None then Failure(Runtime)
      else
        var collection, account := own.collection.value, ix.collectionMetadata.value;
        if account != Found(env, env.metadataProgram, [Raw(METADATA_SEED), Of(env.metadataProgram), Of(collection)])
        then Failure(WrongMetadataAccount)
        else if !DataAt(l, account).MetadataData? then Failure(Runtime)
        else
          var whole := DataAt(l, account).metadata;
          Success(NftTransfer(mint, Some(env.bytes(collection)), Bare(whole.name), Bare(whole.symbol), Bare(own.uri)))
    case _ => Failure(Runtime)
  }

  ghost function Authorising(env: Env, l: Accounts, signers: set<Address>, ix: Bridge.Instruction,
                             key: Bytes): Outcome<Accounts>
    requires ix.WithdrawToken?
  {
    var transfer := Transfer(env, l, ix);
    if transfer.Failure? then Failure(transfer.error)
    else
      var content := Content(transfer.value, ix.origin, env.bytes(ix.owner), env.bytes(env.bridge));
      var unsigned := ProofError(env, Encode(content), ix.proof, key);
      if unsigned.Some? then Failure(unsigned.value)
      else if ix.vault != Found(env, env.associatedProgram, [Of(ix.admin), Of(env.tokenProgram), Of(ix.mint)]) then
        Failure(WrongTokenAccount)
      else Opening(env, l, signers, ix)
  }

  // A wrapped mint that does not exist yet is created under the admin's authority, described as was signed.
  function Minting(env: Env, l: Accounts, signers: set<Address>, ix: Bridge.Instruction,
                   meta: Bridge.SignedMetadata): Outcome<Accounts>
    requires ix.WithdrawToken?
  {
    if ix.owner !in signers then Failure(Runtime)
    else
      var data := MintData(Some(ix.admin), 0, meta.decimals);
      var minted := Created(env, l, ix.owner, ix.mint, 82, env.tokenProgram, data);
      if minted.Failure? then minted
      else
        Created(env, minted.value, ix.owner, ix.metadata, 679, env.metadataProgram,
                MetadataData(Metadata(meta.name, meta.symbol, meta.uri, None)))
  }

  ghost function WithdrawToken(env: Env, l: Accounts, signers: set<Address>, ix: Bridge.Instruction): Outcome<Accounts>
    requires ix.WithdrawToken?
  {
    var refused := AdminRefusal(env, l, ix.admin, ix.seeds);
    if ix.amount == 0 then Failure(WrongArgsSize)
    else if refused.Some? then Failure(refused.value)
    else if ix.metadata != Found(env, env.metadataProgram, [Raw(METADATA_SEED), Of(env.metadataProgram), Of(ix.mint)])
    then Failure(WrongMetadataAccount)
    else if ix.tokenSeed.Some? && ix.mint != Found(env, env.bridge, [Raw(ix.tokenSeed.value)]) then
      Failure(WrongTokenSeed)
    else if ix.tokenSeed.Some? && ix.signedMeta == None then Failure(NoTokenMeta)
    else
      var created := if ix.tokenSeed.Some? && NoData(l, ix.mint)
                     then Minting(env, l, signers, ix, ix.signedMeta.value) else Success(l);
      if created.Failure? then created
      else Authorising(env, created.value, signers, ix, DataAt(l, ix.admin).bridge.publicKey)
  }

  // ---- The script, from its end ----

  lemma RecordingPlays(env: Env, auth: Auth, l: Accounts, ix: Bridge.Instruction, p: Bridge.Parts)
    requires ix.WithdrawToken? && auth.program == env.bridge
    ensures Play(env, auth, l, Bridge.WithdrawTokenScript(env, ix, p), 11) == Recording(env, l, auth.signers, ix)
  {
    var ops := Bridge.WithdrawTokenScript(env, ix, p);
    PlayCheck(env, auth, l, ops, 11);
    PlayNext(env, auth, l, ops, 12);
    var created := Apply(env, auth, l, ops[12]);
    CreatedWritten(env, l, ix.owner, ix.record, WithdrawSize(env), env.bridge, ops[13].data);
    if created.Success? {
      PlayLast(env, auth, created.value, ops);
    }
  }

  function MintShortfall(ix: Bridge.Instruction): Op
    requires ix.WithdrawToken?
  {
    TopUp(ix.mint, ix.vault, ix.admin, Bridge.UnitsMoved(ix), [Raw(ix.seeds)])
  }

  function PayReceiver(ix: Bridge.Instruction): Op
    requires ix.WithdrawToken?
  {
    Move(ix.vault, ix.ownerToken, ix.admin, Bridge.UnitsMoved(ix), [Raw(ix.seeds)])
  }

  // The admin signs for its own minting and moving.
  lemma AdminMints(env: Env, auth: Auth, l: Accounts, ix: Bridge.Instruction)
    requires ix.WithdrawToken? && auth.program == env.bridge && ix.admin == Pda(env.bridge, [Raw(ix.seeds)])
    ensures Apply(env, auth, l, MintShortfall(ix)) == Covered(l, ix)
  {
  }

  lemma AdminPays(env: Env, auth: Auth, l: Accounts, ix: Bridge.Instruction)
    requires ix.WithdrawToken? && auth.program == env.bridge && ix.admin == Pda(env.bridge, [Raw(ix.seeds)])
    ensures Apply(env, auth, l, PayReceiver(ix))
            == Moved(l, ix.vault, ix.ownerToken, ix.admin, if ix.nonFungible then 1 else ix.amount)
  {
  }

  lemma MovingPlays(env: Env, auth: Auth, l: Accounts, ix: Bridge.Instruction, p: Bridge.Parts)
    requires ix.WithdrawToken? && auth.program == env.bridge && ix.admin == Pda(env.bridge, [Raw(ix.seeds)])
    ensures Play(env, auth, l, Bridge.WithdrawTokenScript(env, ix, p), 10) == Moving(env, l, auth.signers, ix)
  {
    PlayNext(env, auth, l, Bridge.WithdrawTokenScript(env, ix, p), 10);
    AdminPays(env, auth, l, ix);
    var paid := Apply(env, auth, l, PayReceiver(ix));
    if paid.Success? {
      RecordingPlays(env, auth, paid.value, ix, p);
    }
  }

  lemma CoveringScript(env: Env, auth: Auth, l: Accounts, ix: Bridge.Instruction, p: Bridge.Parts)
    requires ix.WithdrawToken?
    ensures var ops, covered := Bridge.WithdrawTokenScript(env, ix, p), Apply(env, auth, l, MintShortfall(ix));
            Play(env, auth, l, ops, 9) == if covered.Failure? then covered else Play(env, auth, covered.value, ops, 10)
  {
    PlayNext(env, auth, l, Bridge.WithdrawTokenScript(env, ix, p), 9);
  }

  lemma PayingPlays(env: Env, auth: Auth, l: Accounts, ix: Bridge.Instruction, p: Bridge.Parts)
    requires ix.WithdrawToken? && auth.program == env.bridge && ix.admin == Pda(env.bridge, [Raw(ix.seeds)])
    ensures Play(env, auth, l, Bridge.WithdrawTokenScript(env, ix, p), 9) == Paying(env, l, auth.signers, ix)
  {
    CoveringScript(env, auth, l, ix, p);
    AdminMints(env, auth, l, ix);
    if Covered(l, ix).Success? {
      MovingPlays(env, auth, Covered(l, ix).value, ix, p);
    }
  }

  lemma OpeningPlays(env: Env, auth: Auth, l: Accounts, ix: Bridge.Instruction, p: Bridge.Parts)
    requires ix.WithdrawToken? && auth.program == env.bridge && ix.admin == Pda(env.bridge, [Raw(ix.seeds)])
    requires ix.vault == AssociatedKey(env, ix.admin, ix.mint)
    ensures Play(env, auth, l, Bridge.WithdrawTokenScript(env, ix, p), 5) == Opening(env, l, auth.signers, ix)
  {
    var ops := Bridge.WithdrawTokenScript(env, ix, p);
    PlayNext(env, auth, l, ops, 5);
    var vaulted := Apply(env, auth, l, ops[5]);
    if vaulted.Success? {
      PlayNext(env, auth, vaulted.value, ops, 6);
      PlayCheck(env, auth, vaulted.value, ops, 7);
      PlayNext(env, auth, vaulted.value, ops, 8);
      var received := Apply(env, auth, vaulted.value, ops[8]);
      if received.Success? {
        PayingPlays(env, auth, received.value, ix, p);
      }
    }
  }

  // Creating the mint and initialising it.
  lemma MintPlays(env: Env, auth: Auth, l: Accounts, ix: Bridge.Instruction, p: Bridge.Parts)
    requires ix.WithdrawToken? && auth.program == env.bridge && p.creates && ix.mint == OneSeedKey(env, p.tokenSeed)
    ensures var ops, data := Bridge.WithdrawTokenScript(env, ix, p), MintData(Some(ix.admin), 0, p.meta.decimals);
            var minted := Created(env, l, ix.owner, ix.mint, 82, env.tokenProgram, data);
            Play(env, auth, l, ops, 1)
            == if ix.owner !in auth.signers then Failure(Runtime)
               else if minted.Failure? then minted
               else Play(env, auth, minted.value, ops, 3)
  {
    var ops := Bridge.WithdrawTokenScript(env, ix, p);
    CreatedWritten(env, l, ix.owner, ix.mint, 82, env.tokenProgram, MintData(Some(ix.admin), 0, p.meta.decimals));
    PlayNext(env, auth, l, ops, 1);
    var blank := Apply(env, auth, l, ops[1]);
    if blank.Success? {
      PlayNext(env, auth, blank.value, ops, 2);
    }
  }

  lemma MetadataPlays(env: Env, auth: Auth, l: Accounts, ix: Bridge.Instruction, p: Bridge.Parts)
    requires ix.WithdrawToken? && auth.program == env.bridge && ix.admin == Pda(env.bridge, [Raw(ix.seeds)])
    requires ix.metadata == MetadataKey(env, ix.mint) && p.creates && ix.owner in auth.signers
    requires DataAt(l, ix.mint) == MintData(Some(ix.admin), 0, p.meta.decimals)
    ensures var ops, data := Bridge.WithdrawTokenScript(env, ix, p),
                             MetadataData(Metadata(p.meta.name, p.meta.symbol, p.meta.uri, None));
            var described := Created(env, l, ix.owner, ix.metadata, 679, env.metadataProgram, data);
            Play(env, auth, l, ops, 3)
            == if described.Failure? then described else Play(env, auth, described.value, ops, 4)
  {
    PlayNext(env, auth, l, Bridge.WithdrawTokenScript(env, ix, p), 3);
  }

  lemma MintingPlays(env: Env, auth: Auth, l: Accounts, ix: Bridge.Instruction, p: Bridge.Parts)
    requires ix.WithdrawToken? && auth.program == env.bridge && ix.admin == Pda(env.bridge, [Raw(ix.seeds)])
    requires ix.metadata == MetadataKey(env, ix.mint)
    requires p.creates && ix.mint == OneSeedKey(env, p.tokenSeed)
    ensures var created := Minting(env, l, auth.signers, ix, p.meta);
            Play(env, auth, l, Bridge.WithdrawTokenScript(env, ix, p), 1)
            == if created.Failure? then created
               else Play(env, auth, created.value, Bridge.WithdrawTokenScript(env, ix, p), 4)
  {
    MintPlays(env, auth, l, ix, p);
    var minted := Created(env, l, ix.owner, ix.mint, 82, env.tokenProgram,
                          MintData(Some(ix.admin), 0, p.meta.decimals));
    if ix.owner in auth.signers && minted.Success? {
      MetadataPlays(env, auth, minted.value, ix, p);
    }
  }

  // ---- What the handler foresees is what it finds ----

  lemma TransferAgrees(env: Env, l: Accounts, ix: Bridge.Instruction)
    requires ix.WithdrawToken? && !Bridge.CreatesMint(l, ix)
    ensures Bridge.TransferOf(env, l, ix) == Transfer(env, l, ix)
  {
    if DataAt(l, ix.metadata).MetadataData? {
      var own := DataAt(l, ix.metadata).metadata;
      TrimIsBare(own.name);
      TrimIsBare(own.symbol);
      TrimIsBare(own.uri);
      if ix.collectionMetadata.Some? && DataAt(l, ix.collectionMetadata.value).MetadataData? {
        TrimIsBare(DataAt(l, ix.collectionMetadata.value).metadata.name);
        TrimIsBare(DataAt(l, ix.collectionMetadata.value).metadata.symbol);
      }
    }
  }

  lemma ForeseenAgrees(env: Env, l: Accounts, m: Accounts, ix: Bridge.Instruction)
    requires ix.WithdrawToken? && Bridge.CreatesMint(l, ix)
    requires var meta := ix.signedMeta.value;
             DataAt(m, ix.metadata) == MetadataData(Metadata(meta.name, meta.symbol, meta.uri, None))
             && DataAt(m, ix.mint) == MintData(Some(ix.admin), 0, meta.decimals)
    ensures Bridge.TransferOf(env, l, ix) == Transfer(env, m, ix)
  {
    TrimIsBare(ix.signedMeta.value.name);
    TrimIsBare(ix.signedMeta.value.symbol);
    TrimIsBare(ix.signedMeta.value.uri);
  }

  lemma MintedIsDescribed(env: Env, l: Accounts, signers: set<Address>, ix: Bridge.Instruction,
                          meta: Bridge.SignedMetadata)
    requires ix.WithdrawToken? && Minting(env, l, signers, ix, meta).Success?
    requires ix.metadata == MetadataKey(env, ix.mint)
    ensures var m := Minting(env, l, signers, ix, meta).value;
            DataAt(m, ix.metadata) == MetadataData(Metadata(meta.name, meta.symbol, meta.uri, None))
            && DataAt(m, ix.mint) == MintData(Some(ix.admin), 0, meta.decimals)
  {
  }

  // The part of the script from the proof on.
  lemma AuthorisingPlays(env: Env, auth: Auth, l: Accounts, ix: Bridge.Instruction, p: Bridge.Parts,
                         transfer: Outcome<TransferData>, key: Bytes)
    requires ix.WithdrawToken? && auth.program == env.bridge && ix.admin == Pda(env.bridge, [Raw(ix.seeds)])
    requires transfer == Transfer(env, l, ix)
    requires p.proof == match transfer
                        case Failure(e) => Some(e)
                        case Success(t) =>
                          var content := Content(t, ix.origin, env.bytes(ix.owner), env.bytes(env.bridge));
                          var unsigned := ProofError(env, Encode(content), ix.proof, key);
                          if unsigned.Some? then unsigned
                          else if ix.vault != AssociatedKey(env, ix.admin, ix.mint) then Some(WrongTokenAccount)
                          else None
    ensures Play(env, auth, l, Bridge.WithdrawTokenScript(env, ix, p), 4)
            == Authorising(env, l, auth.signers, ix, key)
  {
    PlayCheck(env, auth, l, Bridge.WithdrawTokenScript(env, ix, p), 4);
    if p.proof == None {
      OpeningPlays(env, auth, l, ix, p);
    }
  }

  lemma EarlyAgrees(env: Env, l: Accounts, ix: Bridge.Instruction)
    requires ix.WithdrawToken?
    ensures Bridge.WithdrawTokenError(env, l, ix)
            == if ix.amount == 0 then Some(WrongArgsSize)
               else if AdminRefusal(env, l, ix.admin, ix.seeds).Some? then AdminRefusal(env, l, ix.admin, ix.seeds)
               else if ix.metadata != MetadataKey(env, ix.mint) then Some(WrongMetadataAccount)
               else if ix.tokenSeed.Some? && ix.mint != OneSeedKey(env, ix.tokenSeed.value) then Some(WrongTokenSeed)
               else if ix.tokenSeed.Some? && ix.signedMeta == None then Some(NoTokenMeta)
               else None
  {
  }

  /** A token withdrawal, FT or NFT: the mint created if need be, the content verified that its accounts describe, the
      accounts opened if need be, the shortfall minted, the amount moved, the record written; in this order. */
  lemma WithdrawTokenOutcome(env: Env, l: Accounts, signers: set<Address>, prior: Option<Bridge.Prior>,
                             ix: Bridge.Instruction)
    requires ix.WithdrawToken? && Outsiders(env, signers)
    ensures Exec(env, l, Item(signers, prior, BridgeIx(ix))) == WithdrawToken(env, l, signers, ix)
  {
    var auth, p := Auth(env.bridge, signers), Bridge.PartsOf(env, l, ix);
    var ops := Bridge.WithdrawTokenScript(env, ix, p);
    EarlyAgrees(env, l, ix);
    PlayCheck(env, auth, l, ops, 0);
    if p.early == None {
      AuthorisedOutcome(env, auth, l, ix, p);
    }
  }

  lemma AuthorisedOutcome(env: Env, auth: Auth, l: Accounts, ix: Bridge.Instruction, p: Bridge.Parts)
    requires ix.WithdrawToken? && auth.program == env.bridge && p == Bridge.PartsOf(env, l, ix) && p.early == None
    ensures var created := if p.creates then Minting(env, l, auth.signers, ix, ix.signedMeta.value) else Success(l);
            Play(env, auth, l, Bridge.WithdrawTokenScript(env, ix, p), 1)
            == if created.Failure? then created
               else Authorising(env, created.value, auth.signers, ix, DataAt(l, ix.admin).bridge.publicKey)
  {
    var transfer, key := Bridge.TransferOf(env, l, ix), DataAt(l, ix.admin).bridge.publicKey;
    if p.creates {
      MintingPlays(env, auth, l, ix, p);
      var created := Minting(env, l, auth.signers, ix, p.meta);
      if created.Success? {
        MintedIsDescribed(env, l, auth.signers, ix, p.meta);
        ForeseenAgrees(env, l, created.value, ix);
        AuthorisingPlays(env, auth, created.value, ix, p, transfer, key);
      }
    } else {
      TransferAgrees(env, l, ix);
      NothingCreated(env, auth, l, ix, p);
      AuthorisingPlays(env, auth, l, ix, p, transfer, key);
    }
  }

  lemma NothingCreated(env: Env, auth: Auth, l: Accounts, ix: Bridge.Instruction, p: Bridge.Parts)
    requires ix.WithdrawToken? && !p.creates
    ensures var ops := Bridge.WithdrawTokenScript(env, ix, p); Play(env, auth, l, ops, 1) == Play(env, auth, l, ops, 4)
  {
    var ops := Bridge.WithdrawTokenScript(env, ix, p);
    PlayCheck(env, auth, l, ops, 1);
    PlayCheck(env, auth, l, ops, 2);
    PlayCheck(env, auth, l, ops, 3);
  }
}
