/** When a signed withdrawal takes effect, exactly; and how anyone keeps it from doing so. */
module Payability {
  import opened Wrappers
  import opened ByteStrings
  import opened Chain
  import opened Ledger
  import opened Gauges
  import opened Programs
  import opened Steps
  import opened Journal
  import opened Occupancy
  import Bridge
  import Vaults

  // ---- Native withdrawals ----

  // All that a native withdrawal needs, its record's address apart.
  predicate NativeReady(env: Env, l: Accounts, ix: Bridge.Instruction, signers: set<Address>)
    requires ix.WithdrawNative?
  {
    Outsiders(env, signers) && ix.owner in signers
    && Bridge.WithdrawNativeError(env, l, ix) == None
    && CanSpend(env, l, ix.owner, env.rent(WithdrawSize(env)))
    && Get(l, ix.admin).owner == env.bridge
  }

  lemma NativeScriptTakesEffect(env: Env, auth: Auth, l: Accounts, ix: Bridge.Instruction)
    requires ix.WithdrawNative? && auth.program == env.bridge
    requires Outsiders(env, auth.signers) && ix.owner in auth.signers
    requires ix.record == OneSeedKey(env, ix.origin) && Get(l, ix.admin).owner == env.bridge && Ours(env, ix.admin)
    requires CanSpend(env, l, ix.owner, env.rent(WithdrawSize(env))) && !Occupied(l, ix.record)
    ensures Play(env, auth, l, Bridge.WithdrawNativeScript(env, ix, None), 0).Success?
  {
    var ops := Bridge.WithdrawNativeScript(env, ix, None);
    var l1 := Apply(env, auth, l, ops[1]).value;
    var l2 := PaidOut(l1, ix.admin, ix.owner, ix.amount);
    assert Apply(env, auth, l1, ops[2]) == Success(l2);
    assert Apply(env, auth, l2, ops[3]).Success?;
    assert Play(env, auth, l2, ops, 3).Success?;
    assert Play(env, auth, l1, ops, 2).Success?;
    assert Play(env, auth, l, ops, 1).Success?;
  }

  lemma NativeScriptNeeds(env: Env, auth: Auth, l: Accounts, ix: Bridge.Instruction, early: Option<Error>)
    requires ix.WithdrawNative? && auth.program == env.bridge && Outsiders(env, auth.signers)
    requires Play(env, auth, l, Bridge.WithdrawNativeScript(env, ix, early), 0).Success?
    requires ix.record == OneSeedKey(env, ix.origin) && ix.admin == BridgeKey(env, ix.seeds)
    ensures early == None && ix.owner in auth.signers && CanSpend(env, l, ix.owner, env.rent(WithdrawSize(env)))
    ensures Get(l, ix.admin).owner == env.bridge && !Occupied(l, ix.record)
  {
    var ops := Bridge.WithdrawNativeScript(env, ix, early);
    var l0 := PlayOne(env, auth, l, ops, 0);
    var l1 := PlayOne(env, auth, l, ops, 1);
    var l2 := PlayOne(env, auth, l1, ops, 2);
  }

  /** A native withdrawal takes effect if and only if it is ready and nothing occupies its record's address. */
  lemma NativePayableIff(env: Env, l: Accounts, ix: Bridge.Instruction, signers: set<Address>,
                         prior: Option<Bridge.Prior>)
    requires ix.WithdrawNative?
    ensures Exec(env, l, Item(signers, prior, BridgeIx(ix))).Success?
            <==> NativeReady(env, l, ix, signers) && !Occupied(l, ix.record)
  {
    var item := Item(signers, prior, BridgeIx(ix));
    var early := Bridge.WithdrawNativeError(env, l, ix);
    if Exec(env, l, item).Success? {
      PlayChecks(env, AuthOf(env, item), l, Bridge.WithdrawNativeScript(env, ix, early), 0);
      assert Bridge.WithdrawNativeScript(env, ix, early)[0].error == None;
      NativeScriptNeeds(env, AuthOf(env, item), l, ix, early);
    } else if NativeReady(env, l, ix, signers) && !Occupied(l, ix.record) {
      NativeScriptTakesEffect(env, AuthOf(env, item), l, ix);
    }
  }

  // ---- Token withdrawals ----

  // Lamports leave `payer`; the accounts at `touched` change; nothing else does.
  ghost predicate Spent(l: Accounts, l': Accounts, payer: Address, cost: nat, touched: set<Address>) {
    cost <= Get(l, payer).lamports
    && Get(l', payer) == Get(l, payer).(lamports := Get(l, payer).lamports - cost)
    && forall key :: key != payer && key !in touched ==> Get(l', key) == Get(l, key)
  }

  function TopUpCost(env: Env, l: Accounts, key: Address, size: nat): nat {
    if Get(l, key).lamports < env.rent(size) then env.rent(size) - Get(l, key).lamports else 0
  }

  // What opening the token account at `key` costs, and what will be there.
  function OpeningCost(env: Env, l: Accounts, key: Address): nat {
    if NoData(l, key) then TopUpCost(env, l, key, TOKEN_SIZE) else 0
  }

  function TokenSeen(l: Accounts, key: Address, wallet: Address, mint: Address): Data {
    if NoData(l, key) then TokenData(mint, wallet, 0) else DataAt(l, key)
  }

  lemma OpeningIff(env: Env, auth: Auth, l: Accounts, payer: Address, wallet: Address, mint: Address, key: Address)
    requires key == AssociatedKey(env, wallet, mint) && payer in auth.signers
    ensures var next := Apply(env, auth, l, EnsureAssociated(payer, wallet, mint, key));
            (next.Success?
             <==> (NoData(l, key) ==>
                     DataAt(l, mint).MintData? && payer != key && CanSpend(env, l, payer, OpeningCost(env, l, key))))
            && (next.Success? && payer != key ==>
                  Spent(l, next.value, payer, OpeningCost(env, l, key), {key})
                  && DataAt(next.value, key) == TokenSeen(l, key, wallet, mint))
  {
  }

  // The mint and its metadata, created and paid for by the receiver.
  function MintingCost(env: Env): nat {
    env.rent(MINT_SIZE) + env.rent(METADATA_SIZE)
  }

  function MintSeen(l: Accounts, ix: Bridge.Instruction): Data
    requires ix.WithdrawToken?
  {
    if Bridge.CreatesMint(l, ix) then MintData(Some(ix.admin), 0, ix.signedMeta.value.decimals) else DataAt(l, ix.mint)
  }

  predicate MintingFree(l: Accounts, ix: Bridge.Instruction)
    requires ix.WithdrawToken?
  {
    !Occupied(l, ix.mint) && !Occupied(l, ix.metadata) && ix.owner != ix.mint && ix.owner != ix.metadata
  }

  // The vault covers the amount, or the admin can mint what is missing; and what is paid fits.
  predicate Movable(vault: Data, receiver: Data, mint: Data, ix: Bridge.Instruction)
    requires ix.WithdrawToken?
  {
    var amount := Bridge.UnitsMoved(ix);
    vault.TokenData? && receiver.TokenData? && vault.mint == receiver.mint && vault.holder == ix.admin
    && receiver.amount + amount < U64
    && (vault.amount < amount ==>
          mint.MintData? && mint.authority == Some(ix.admin) && vault.mint == ix.mint
          && mint.supply + (amount - vault.amount) < U64)
  }

  function TokenCost(env: Env, l: Accounts, ix: Bridge.Instruction): nat
    requires ix.WithdrawToken?
  {
    (if Bridge.CreatesMint(l, ix) then MintingCost(env) else 0)
    + OpeningCost(env, l, ix.vault) + OpeningCost(env, l, ix.ownerToken) + env.rent(WithdrawSize(env))
  }

  // The token accounts exist or can be opened, and hold what is needed.
  predicate TokensReady(l: Accounts, ix: Bridge.Instruction, mint: Data)
    requires ix.WithdrawToken?
  {
    (NoData(l, ix.vault) || NoData(l, ix.ownerToken) ==> mint.MintData?)
    && ix.owner != ix.vault && ix.owner != ix.ownerToken
    && Movable(TokenSeen(l, ix.vault, ix.admin, ix.mint), TokenSeen(l, ix.ownerToken, ix.owner, ix.mint), mint, ix)
  }

  // What the accounts have to provide: the creations, the openings, the tokens and the lamports for all of it.
  predicate ScriptReady(env: Env, l: Accounts, ix: Bridge.Instruction)
    requires ix.WithdrawToken?
  {
    (Bridge.CreatesMint(l, ix) ==> MintingFree(l, ix) && ix.record != ix.mint)
    && TokensReady(l, ix, MintSeen(l, ix)) && CanSpend(env, l, ix.owner, TokenCost(env, l, ix))
  }

  // All that a token withdrawal needs, its record's address apart.
  predicate TokenReady(env: Env, l: Accounts, ix: Bridge.Instruction, signers: set<Address>)
    requires ix.WithdrawToken?
  {
    Outsiders(env, signers) && ix.owner in signers
    && Bridge.PartsOf(env, l, ix).early == None && Bridge.PartsOf(env, l, ix).proof == None
    && ix.ownerToken == AssociatedKey(env, ix.owner, ix.mint) && ix.record == OneSeedKey(env, ix.origin)
    && ScriptReady(env, l, ix)
  }

  // From the shortfall on: minting, moving, recording.
  predicate TailReady(env: Env, l: Accounts, ix: Bridge.Instruction)
    requires ix.WithdrawToken?
  {
    Movable(DataAt(l, ix.vault), DataAt(l, ix.ownerToken), DataAt(l, ix.mint), ix)
    && CanSpend(env, l, ix.owner, env.rent(WithdrawSize(env))) && !Occupied(l, ix.record)
  }

  // Minting and moving leave the owner's funds and the record's address as they are.
  lemma TokensMoved(env: Env, auth: Auth, l: Accounts, ix: Bridge.Instruction, up: Op, mv: Op)
    requires ix.WithdrawToken? && ix.vault != ix.ownerToken && ix.admin == BridgeKey(env, ix.seeds)
    requires auth.program == env.bridge
    requires up == TopUp(ix.mint, ix.vault, ix.admin, Bridge.UnitsMoved(ix), [Raw(ix.seeds)])
    requires mv == Move(ix.vault, ix.ownerToken, ix.admin, Bridge.UnitsMoved(ix), [Raw(ix.seeds)])
    ensures var minted := Apply(env, auth, l, up);
            (minted.Success? && Apply(env, auth, minted.value, mv).Success?)
            <==> Movable(DataAt(l, ix.vault), DataAt(l, ix.ownerToken), DataAt(l, ix.mint), ix)
    ensures var minted := Apply(env, auth, l, up);
            minted.Success? && Apply(env, auth, minted.value, mv).Success? ==>
              var l' := Apply(env, auth, minted.value, mv).value;
              forall key :: Get(l', key).lamports == Get(l, key).lamports
                            && (NoData(l', key) <==> NoData(l, key))
                            && (DataAt(l', key).CommissionData? <==> DataAt(l, key).CommissionData?)
  {
  }

  // What the script's keys and signers have to be, whatever the ledger holds.
  predicate Addressed(env: Env, auth: Auth, ix: Bridge.Instruction, p: Bridge.Parts)
    requires ix.WithdrawToken?
  {
    auth.program == env.bridge && Outsiders(env, auth.signers) && ix.owner in auth.signers
    && p.early == None && p.proof == None
    && ix.admin == BridgeKey(env, ix.seeds) && ix.metadata == MetadataKey(env, ix.mint)
    && ix.vault == AssociatedKey(env, ix.admin, ix.mint) && ix.ownerToken == AssociatedKey(env, ix.owner, ix.mint)
    && ix.vault != ix.ownerToken && ix.record == OneSeedKey(env, ix.origin)
    && (p.creates ==> ix.mint == OneSeedKey(env, p.tokenSeed))
  }

  lemma TailIff(env: Env, auth: Auth, l: Accounts, ix: Bridge.Instruction, p: Bridge.Parts)
    requires ix.WithdrawToken? && Addressed(env, auth, ix, p)
    ensures Play(env, auth, l, Bridge.WithdrawTokenScript(env, ix, p), 9).Success? <==> TailReady(env, l, ix)
  {
    var ops := Bridge.WithdrawTokenScript(env, ix, p);
    TokensMoved(env, auth, l, ix, ops[9], ops[10]);
    var minted := Apply(env, auth, l, ops[9]);
    if minted.Success? && Apply(env, auth, minted.value, ops[10]).Success? {
      var l2 := Apply(env, auth, minted.value, ops[10]).value;
      RecordingIff(env, auth, l2, ix, p);
      assert Play(env, auth, l, ops, 9) == Play(env, auth, minted.value, ops, 10) == Play(env, auth, l2, ops, 11);
    }
  }

  lemma RecordingIff(env: Env, auth: Auth, l: Accounts, ix: Bridge.Instruction, p: Bridge.Parts)
    requires ix.WithdrawToken? && Addressed(env, auth, ix, p)
    ensures Play(env, auth, l, Bridge.WithdrawTokenScript(env, ix, p), 11).Success?
            <==> CanSpend(env, l, ix.owner, env.rent(WithdrawSize(env))) && !Occupied(l, ix.record)
  {
    var ops := Bridge.WithdrawTokenScript(env, ix, p);
    assert Play(env, auth, l, ops, 11) == Play(env, auth, l, ops, 12);
    if Apply(env, auth, l, ops[12]).Success? {
      var l1 := Apply(env, auth, l, ops[12]).value;
      assert Get(l1, ix.record) == Account(env.rent(WithdrawSize(env)), env.bridge, Blank(WithdrawSize(env)));
      var l2 := Apply(env, auth, l1, ops[13]).value;
      assert Play(env, auth, l, ops, 12) == Play(env, auth, l1, ops, 13) == Play(env, auth, l2, ops, 14);
    }
  }

  // Whoever pays for the record holds no data, so the owner is neither of the token accounts.
  lemma OwnerIsNoTokenAccount(env: Env, auth: Auth, l: Accounts, ix: Bridge.Instruction, p: Bridge.Parts)
    requires ix.WithdrawToken? && Play(env, auth, l, Bridge.WithdrawTokenScript(env, ix, p), 0).Success?
    ensures ix.owner != ix.vault && ix.owner != ix.ownerToken
  {
    var ops := Bridge.WithdrawTokenScript(env, ix, p);
    var before := Reach(env, auth, l, ops, 0, 10);
    ReachPlays(env, auth, l, ops, 0, 10);
    MoveEffect(env, auth, before, ops[10], ix.vault);
    var after := Reach(env, auth, before, ops, 10, 12);
    ReachPlays(env, auth, before, ops, 10, 12);
    assert Evolves(DataAt(before, ix.vault), DataAt(after, ix.vault));
    assert Evolves(DataAt(before, ix.ownerToken), DataAt(after, ix.ownerToken));
  }

  // The two openings, given a ledger in which the mint exists if it is to.
  predicate Openable(env: Env, l: Accounts, ix: Bridge.Instruction)
    requires ix.WithdrawToken?
  {
    var cost := OpeningCost(env, l, ix.vault);
    (NoData(l, ix.vault) ==> DataAt(l, ix.mint).MintData? && CanSpend(env, l, ix.owner, cost))
    && TokenSeen(l, ix.vault, ix.admin, ix.mint).TokenData?
    && (NoData(l, ix.ownerToken) ==>
          DataAt(l, ix.mint).MintData?
          && CanSpend(env, l, ix.owner, cost + OpeningCost(env, l, ix.ownerToken)))
  }

  function Opening(ix: Bridge.Instruction, wallet: Address, key: Address): Op
    requires ix.WithdrawToken?
  {
    EnsureAssociated(ix.owner, wallet, ix.mint, key)
  }

  lemma BothOpen(env: Env, auth: Auth, l: Accounts, l1: Accounts, ix: Bridge.Instruction)
    requires ix.WithdrawToken? && ix.owner in auth.signers && ix.vault != ix.ownerToken
    requires ix.vault == AssociatedKey(env, ix.admin, ix.mint) && ix.ownerToken == AssociatedKey(env, ix.owner, ix.mint)
    requires ix.owner != ix.vault && ix.owner != ix.ownerToken
    requires Apply(env, auth, l, Opening(ix, ix.admin, ix.vault)) == Success(l1) && DataAt(l1, ix.vault).TokenData?
    ensures var next := Apply(env, auth, l1, Opening(ix, ix.owner, ix.ownerToken));
            (next.Success? <==> Openable(env, l, ix))
            && (next.Success? ==>
                  Spent(l, next.value, ix.owner, OpeningCost(env, l, ix.vault) + OpeningCost(env, l, ix.ownerToken),
                        {ix.vault, ix.ownerToken})
                  && DataAt(next.value, ix.vault) == TokenSeen(l, ix.vault, ix.admin, ix.mint)
                  && DataAt(next.value, ix.ownerToken) == TokenSeen(l, ix.ownerToken, ix.owner, ix.mint))
  {
    OpeningIff(env, auth, l, ix.owner, ix.admin, ix.mint, ix.vault);
    OpeningIff(env, auth, l1, ix.owner, ix.owner, ix.mint, ix.ownerToken);
  }

  lemma OpenablePlays(env: Env, auth: Auth, l: Accounts, ix: Bridge.Instruction, p: Bridge.Parts)
    requires ix.WithdrawToken? && Addressed(env, auth, ix, p)
    ensures var ops, first := Bridge.WithdrawTokenScript(env, ix, p),
                              Apply(env, auth, l, Opening(ix, ix.admin, ix.vault));
            if first.Failure? || !DataAt(first.value, ix.vault).TokenData? then Play(env, auth, l, ops, 5).Failure?
            else
              match Apply(env, auth, first.value, Opening(ix, ix.owner, ix.ownerToken))
              case Failure(_) => Play(env, auth, l, ops, 5).Failure?
              case Success(m) => Play(env, auth, l, ops, 5) == Play(env, auth, m, ops, 9)
  {
    var ops := Bridge.WithdrawTokenScript(env, ix, p);
    var first := Apply(env, auth, l, ops[5]);
    if first.Success? && DataAt(first.value, ix.vault).TokenData? {
      var l1 := first.value;
      assert Play(env, auth, l, ops, 5) == Play(env, auth, l1, ops, 6) == Play(env, auth, l1, ops, 7);
      assert Play(env, auth, l1, ops, 7) == Play(env, auth, l1, ops, 8);
    }
  }

  lemma OpeningsIff(env: Env, auth: Auth, l: Accounts, ix: Bridge.Instruction, p: Bridge.Parts) returns (m: Accounts)
    requires ix.WithdrawToken? && Addressed(env, auth, ix, p) && ix.owner != ix.vault && ix.owner != ix.ownerToken
    ensures Play(env, auth, l, Bridge.WithdrawTokenScript(env, ix, p), 5).Success?
            <==> Openable(env, l, ix) && Play(env, auth, m, Bridge.WithdrawTokenScript(env, ix, p), 9).Success?
    ensures Openable(env, l, ix) ==>
              Spent(l, m, ix.owner, OpeningCost(env, l, ix.vault) + OpeningCost(env, l, ix.ownerToken),
                    {ix.vault, ix.ownerToken})
              && DataAt(m, ix.vault) == TokenSeen(l, ix.vault, ix.admin, ix.mint)
              && DataAt(m, ix.ownerToken) == TokenSeen(l, ix.ownerToken, ix.owner, ix.mint)
  {
    m := l;
    OpeningIff(env, auth, l, ix.owner, ix.admin, ix.mint, ix.vault);
    OpenablePlays(env, auth, l, ix, p);
    var first := Apply(env, auth, l, Opening(ix, ix.admin, ix.vault));
    if first.Success? && DataAt(first.value, ix.vault).TokenData? {
      BothOpen(env, auth, l, first.value, ix);
      var second := Apply(env, auth, first.value, Opening(ix, ix.owner, ix.ownerToken));
      if second.Success? {
        m := second.value;
      }
    }
  }

  // ---- Creating the mint ----

  function MintAccount(env: Env, ix: Bridge.Instruction, seed: Bytes): Op
    requires ix.WithdrawToken?
  {
    Create(ix.owner, ix.mint, MINT_SIZE, env.tokenProgram, FoundSeeds(env, env.bridge, [Raw(seed)]))
  }

  function Described(ix: Bridge.Instruction, meta: Bridge.SignedMetadata): Op
    requires ix.WithdrawToken?
  {
    CreateMetadata(ix.metadata, ix.mint, ix.admin, ix.owner, Bridge.NewMetadata(meta), [Raw(ix.seeds)])
  }

  // The new mint, under the admin's authority.
  lemma MintAppears(env: Env, auth: Auth, l: Accounts, ix: Bridge.Instruction, p: Bridge.Parts) returns (m: Accounts)
    requires ix.WithdrawToken? && Addressed(env, auth, ix, p) && p.creates && NoData(l, ix.mint)
    ensures var first, init := Apply(env, auth, l, MintAccount(env, ix, p.tokenSeed)),
                               InitMint(ix.mint, ix.admin, p.meta.decimals);
            (first.Success?
             <==> ix.owner != ix.mint && !Occupied(l, ix.mint) && CanSpend(env, l, ix.owner, env.rent(MINT_SIZE)))
            && (first.Success? ==>
                  Apply(env, auth, first.value, init) == Success(m)
                  && Spent(l, m, ix.owner, env.rent(MINT_SIZE), {ix.mint})
                  && DataAt(m, ix.mint) == MintData(Some(ix.admin), 0, p.meta.decimals))
  {
    var first := Apply(env, auth, l, MintAccount(env, ix, p.tokenSeed));
    m := if first.Success? then WithData(first.value, ix.mint, MintData(Some(ix.admin), 0, p.meta.decimals)) else l;
  }

  lemma MetadataAppears(env: Env, auth: Auth, l: Accounts, ix: Bridge.Instruction, p: Bridge.Parts)
    requires ix.WithdrawToken? && Addressed(env, auth, ix, p) && ix.mint != ix.metadata
    requires DataAt(l, ix.mint).MintData? && DataAt(l, ix.mint).authority == Some(ix.admin)
    ensures var next := Apply(env, auth, l, Described(ix, p.meta));
            (next.Success?
             <==> ix.owner != ix.metadata && !Occupied(l, ix.metadata)
                  && CanSpend(env, l, ix.owner, env.rent(METADATA_SIZE)))
            && (next.Success? && ix.owner != ix.mint ==>
                  Spent(l, next.value, ix.owner, env.rent(METADATA_SIZE), {ix.metadata}))
  {
  }

  lemma CreatingPlays(env: Env, auth: Auth, l: Accounts, ix: Bridge.Instruction, p: Bridge.Parts)
    requires ix.WithdrawToken? && p.creates
    ensures var ops, first := Bridge.WithdrawTokenScript(env, ix, p),
                              Apply(env, auth, l, MintAccount(env, ix, p.tokenSeed));
            if first.Failure? then Play(env, auth, l, ops, 1).Failure?
            else
              match Apply(env, auth, first.value, InitMint(ix.mint, ix.admin, p.meta.decimals))
              case Failure(_) => Play(env, auth, l, ops, 1).Failure?
              case Success(l2) => Play(env, auth, l, ops, 1) == Play(env, auth, l2, ops, 3)
  {
    var ops := Bridge.WithdrawTokenScript(env, ix, p);
    if Apply(env, auth, l, ops[1]).Success? {
      var l1 := Apply(env, auth, l, ops[1]).value;
      assert Play(env, auth, l, ops, 1) == Play(env, auth, l1, ops, 2);
    }
  }

  lemma DescribingPlays(env: Env, auth: Auth, l: Accounts, ix: Bridge.Instruction, p: Bridge.Parts)
    requires ix.WithdrawToken? && p.creates
    ensures var ops := Bridge.WithdrawTokenScript(env, ix, p);
            match Apply(env, auth, l, Described(ix, p.meta))
            case Failure(_) => Play(env, auth, l, ops, 3).Failure?
            case Success(m) => Play(env, auth, l, ops, 3) == Play(env, auth, m, ops, 4)
  {
  }

  lemma CreatingIff(env: Env, auth: Auth, l: Accounts, ix: Bridge.Instruction, p: Bridge.Parts) returns (m: Accounts)
    requires ix.WithdrawToken? && Addressed(env, auth, ix, p) && p.creates && NoData(l, ix.mint)
    ensures var ops, ready := Bridge.WithdrawTokenScript(env, ix, p),
                              MintingFree(l, ix) && CanSpend(env, l, ix.owner, MintingCost(env));
            (Play(env, auth, l, ops, 1).Success? <==> ready && Play(env, auth, m, ops, 4).Success?)
            && (ready ==>
                  Spent(l, m, ix.owner, MintingCost(env), {ix.mint, ix.metadata})
                  && DataAt(m, ix.mint) == MintData(Some(ix.admin), 0, p.meta.decimals))
  {
    assert |ix.metadata.seeds| == 4 && |ix.mint.seeds| == 2;
    CreatingPlays(env, auth, l, ix, p);
    var l2 := MintAppears(env, auth, l, ix, p);
    m := l2;
    if Apply(env, auth, l, MintAccount(env, ix, p.tokenSeed)).Success? {
      MetadataAppears(env, auth, l2, ix, p);
      DescribingPlays(env, auth, l2, ix, p);
      var last := Apply(env, auth, l2, Described(ix, p.meta));
      if last.Success? {
        m := last.value;
      }
    }
  }

  // ---- The whole script ----

  lemma MintStage(env: Env, auth: Auth, l: Accounts, ix: Bridge.Instruction, p: Bridge.Parts) returns (m: Accounts)
    requires ix.WithdrawToken? && Addressed(env, auth, ix, p) && (p.creates ==> NoData(l, ix.mint))
    ensures var ops, ready := Bridge.WithdrawTokenScript(env, ix, p),
                              p.creates ==> MintingFree(l, ix) && CanSpend(env, l, ix.owner, MintingCost(env));
            (Play(env, auth, l, ops, 0).Success? <==> ready && Play(env, auth, m, ops, 5).Success?)
            && (ready ==>
                  if p.creates then
                    Spent(l, m, ix.owner, MintingCost(env), {ix.mint, ix.metadata})
                    && DataAt(m, ix.mint) == MintData(Some(ix.admin), 0, p.meta.decimals)
                  else m == l)
  {
    var ops := Bridge.WithdrawTokenScript(env, ix, p);
    assert Play(env, auth, l, ops, 0) == Play(env, auth, l, ops, 1);
    if p.creates {
      m := CreatingIff(env, auth, l, ix, p);
    } else {
      m := l;
      assert Play(env, auth, l, ops, 1) == Play(env, auth, l, ops, 2) == Play(env, auth, l, ops, 3);
      assert Play(env, auth, l, ops, 3) == Play(env, auth, l, ops, 4);
    }
    assert Play(env, auth, m, ops, 4) == Play(env, auth, m, ops, 5);
  }

  function OpeningCosts(env: Env, l: Accounts, ix: Bridge.Instruction): nat
    requires ix.WithdrawToken?
  {
    OpeningCost(env, l, ix.vault) + OpeningCost(env, l, ix.ownerToken)
  }

  lemma TokenAccountsAreNoMint(env: Env, auth: Auth, ix: Bridge.Instruction, p: Bridge.Parts)
    requires ix.WithdrawToken? && Addressed(env, auth, ix, p) && p.creates
    ensures ix.vault !in {ix.mint, ix.metadata} && ix.ownerToken !in {ix.mint, ix.metadata}
  {
    assert |ix.vault.seeds| == |ix.ownerToken.seeds| == |ix.metadata.seeds| == 4 && |ix.mint.seeds| == 2;
    assert ix.vault.seeds[0].Of? && ix.ownerToken.seeds[0].Of? && ix.metadata.seeds[0].Raw?;
  }

  // What the first stage leaves for the second.
  lemma AccountsAfterMinting(env: Env, auth: Auth, l: Accounts, m: Accounts, ix: Bridge.Instruction, p: Bridge.Parts)
    requires ix.WithdrawToken? && Addressed(env, auth, ix, p) && p == Bridge.PartsOf(env, l, ix) && p.creates
    requires ix.owner != ix.vault && ix.owner != ix.ownerToken
    requires Spent(l, m, ix.owner, MintingCost(env), {ix.mint, ix.metadata})
    requires DataAt(m, ix.mint) == MintData(Some(ix.admin), 0, p.meta.decimals)
    ensures DataAt(m, ix.mint) == MintSeen(l, ix)
    ensures Get(m, ix.vault) == Get(l, ix.vault) && Get(m, ix.ownerToken) == Get(l, ix.ownerToken)
  {
    TokenAccountsAreNoMint(env, auth, ix, p);
  }

  lemma SameAccountsSameNeeds(env: Env, l: Accounts, m: Accounts, ix: Bridge.Instruction, mint: Data)
    requires ix.WithdrawToken? && Get(m, ix.vault) == Get(l, ix.vault) && Get(m, ix.ownerToken) == Get(l, ix.ownerToken)
    ensures OpeningCosts(env, m, ix) == OpeningCosts(env, l, ix)
    ensures TokensReady(m, ix, mint) <==> TokensReady(l, ix, mint)
  {
  }

  lemma AfterMinting(env: Env, auth: Auth, l: Accounts, m: Accounts, ix: Bridge.Instruction, p: Bridge.Parts)
    requires ix.WithdrawToken? && Addressed(env, auth, ix, p) && p == Bridge.PartsOf(env, l, ix) && p.creates
    requires ix.owner != ix.vault && ix.owner != ix.ownerToken
    requires Spent(l, m, ix.owner, MintingCost(env), {ix.mint, ix.metadata})
    requires DataAt(m, ix.mint) == MintData(Some(ix.admin), 0, p.meta.decimals)
    ensures DataAt(m, ix.mint) == MintSeen(l, ix) && OpeningCosts(env, m, ix) == OpeningCosts(env, l, ix)
    ensures TokensReady(m, ix, MintSeen(l, ix)) <==> TokensReady(l, ix, MintSeen(l, ix))
  {
    AccountsAfterMinting(env, auth, l, m, ix, p);
    SameAccountsSameNeeds(env, l, m, ix, MintSeen(l, ix));
  }

  lemma FundsAfterMinting(env: Env, auth: Auth, l: Accounts, m: Accounts, ix: Bridge.Instruction, p: Bridge.Parts,
                          cost: nat)
    requires ix.WithdrawToken? && Addressed(env, auth, ix, p) && p.creates && MintingFree(l, ix)
    requires Spent(l, m, ix.owner, MintingCost(env), {ix.mint, ix.metadata}) && !NoData(m, ix.mint)
    ensures CanSpend(env, m, ix.owner, cost) <==> CanSpend(env, l, ix.owner, MintingCost(env) + cost)
    ensures !Occupied(m, ix.record) <==> !Occupied(l, ix.record) && ix.record != ix.mint
  {
    assert |ix.metadata.seeds| == 4 && |ix.record.seeds| == 2;
  }

  // What the second stage leaves for the third.
  lemma AfterOpening(env: Env, auth: Auth, m: Accounts, n: Accounts, ix: Bridge.Instruction, p: Bridge.Parts)
    requires ix.WithdrawToken? && Addressed(env, auth, ix, p) && Openable(env, m, ix)
    requires ix.owner != ix.vault && ix.owner != ix.ownerToken
    requires Spent(m, n, ix.owner, OpeningCosts(env, m, ix), {ix.vault, ix.ownerToken})
    requires DataAt(n, ix.vault) == TokenSeen(m, ix.vault, ix.admin, ix.mint)
    requires DataAt(n, ix.ownerToken) == TokenSeen(m, ix.ownerToken, ix.owner, ix.mint)
    ensures TailReady(env, n, ix)
            <==> TokensReady(m, ix, DataAt(m, ix.mint)) && !Occupied(m, ix.record)
                 && CanSpend(env, m, ix.owner, OpeningCosts(env, m, ix) + env.rent(WithdrawSize(env)))
  {
    assert |ix.vault.seeds| == |ix.ownerToken.seeds| == 4 && |ix.record.seeds| == 2;
    assert DataAt(n, ix.mint) == DataAt(m, ix.mint);
  }

  lemma ReadyIsOpenable(env: Env, m: Accounts, ix: Bridge.Instruction, more: nat)
    requires ix.WithdrawToken? && TokensReady(m, ix, DataAt(m, ix.mint))
    requires CanSpend(env, m, ix.owner, OpeningCosts(env, m, ix) + more)
    ensures Openable(env, m, ix)
  {
  }

  // From the openings on.
  lemma OpenedIff(env: Env, auth: Auth, m: Accounts, ix: Bridge.Instruction, p: Bridge.Parts)
    requires ix.WithdrawToken? && Addressed(env, auth, ix, p) && ix.owner != ix.vault && ix.owner != ix.ownerToken
    ensures Play(env, auth, m, Bridge.WithdrawTokenScript(env, ix, p), 5).Success?
            <==> TokensReady(m, ix, DataAt(m, ix.mint)) && !Occupied(m, ix.record)
                 && CanSpend(env, m, ix.owner, OpeningCosts(env, m, ix) + env.rent(WithdrawSize(env)))
  {
    var n := OpeningsIff(env, auth, m, ix, p);
    TailIff(env, auth, n, ix, p);
    if Openable(env, m, ix) {
      AfterOpening(env, auth, m, n, ix, p);
    } else if TokensReady(m, ix, DataAt(m, ix.mint))
         && CanSpend(env, m, ix.owner, OpeningCosts(env, m, ix) + env.rent(WithdrawSize(env))) {
      ReadyIsOpenable(env, m, ix, env.rent(WithdrawSize(env)));
    }
  }

  lemma ScriptIff(env: Env, auth: Auth, l: Accounts, ix: Bridge.Instruction, p: Bridge.Parts)
    requires ix.WithdrawToken? && Addressed(env, auth, ix, p) && p == Bridge.PartsOf(env, l, ix)
    requires ix.owner != ix.vault && ix.owner != ix.ownerToken
    ensures Play(env, auth, l, Bridge.WithdrawTokenScript(env, ix, p), 0).Success?
            <==> ScriptReady(env, l, ix) && !Occupied(l, ix.record)
  {
    var m := MintStage(env, auth, l, ix, p);
    OpenedIff(env, auth, m, ix, p);
    if p.creates && MintingFree(l, ix) && CanSpend(env, l, ix.owner, MintingCost(env)) {
      AfterMinting(env, auth, l, m, ix, p);
      FundsAfterMinting(env, auth, l, m, ix, p, OpeningCosts(env, l, ix) + env.rent(WithdrawSize(env)));
    }
  }

  lemma OwnerSigned(env: Env, auth: Auth, l: Accounts, ix: Bridge.Instruction, p: Bridge.Parts)
    requires ix.WithdrawToken? && auth.program == env.bridge && !Ours(env, ix.owner)
    requires Play(env, auth, l, Bridge.WithdrawTokenScript(env, ix, p), 0).Success?
    ensures ix.owner in auth.signers
  {
    ReachPlays(env, auth, l, Bridge.WithdrawTokenScript(env, ix, p), 0, 12);
  }

  lemma PassedIsAddressed(env: Env, auth: Auth, l: Accounts, ix: Bridge.Instruction)
    requires ix.WithdrawToken? && auth.program == env.bridge && Outsiders(env, auth.signers) && ix.owner in auth.signers
    requires Bridge.PartsOf(env, l, ix).early == None && Bridge.PartsOf(env, l, ix).proof == None
    requires ix.ownerToken == AssociatedKey(env, ix.owner, ix.mint) && ix.record == OneSeedKey(env, ix.origin)
    ensures Addressed(env, auth, ix, Bridge.PartsOf(env, l, ix))
  {
    if ix.vault == ix.ownerToken {
      AssociatedKeyInjective(env, ix.owner, ix.mint, ix.admin, ix.mint);
    }
  }

  /** A token withdrawal, fungible or not, with or without accounts to create, takes effect if and only if it is ready
      and nothing occupies its record's address. */
  lemma TokenPayableIff(env: Env, l: Accounts, ix: Bridge.Instruction, signers: set<Address>,
                        prior: Option<Bridge.Prior>)
    requires ix.WithdrawToken?
    ensures Exec(env, l, Item(signers, prior, BridgeIx(ix))).Success?
            <==> TokenReady(env, l, ix, signers) && !Occupied(l, ix.record)
  {
    var item, p := Item(signers, prior, BridgeIx(ix)), Bridge.PartsOf(env, l, ix);
    var auth := AuthOf(env, item);
    if Exec(env, l, item).Success? {
      Vaults.ScriptFacts(env, auth, l, ix, p);
      OwnerSigned(env, auth, l, ix, p);
      OwnerIsNoTokenAccount(env, auth, l, ix, p);
      PassedIsAddressed(env, auth, l, ix);
      ScriptIff(env, auth, l, ix, p);
    } else if TokenReady(env, l, ix, signers) {
      PassedIsAddressed(env, auth, l, ix);
      ScriptIff(env, auth, l, ix, p);
    }
  }

  // ---- Keeping an origin from being paid ----

  // Lamports to the address where the record of an origin would be, from any wallet, through any other program.
  function Dust(env: Env, program: Address, wallet: Address, origin: Bytes32, lamports: u64): Item {
    Item({wallet}, None,
         OutsideIx(Call(program, Pay(wallet, OneSeedKey(env, origin), lamports, []), None, Bridge.Unreadable)))
  }

  /** Whoever has a lamport to spare, or as many as the address needs to be kept, can occupy any record's address. */
  lemma AnyoneOccupies(env: Env, l: Accounts, program: Address, wallet: Address, origin: Bytes32, lamports: u64)
    requires !IsOurProgram(env, program) && !Ours(env, wallet) && lamports > 0 && CanSpend(env, l, wallet, lamports)
    requires Get(l, OneSeedKey(env, origin)).lamports + lamports < U64
    ensures Exec(env, l, Dust(env, program, wallet, origin, lamports)).Success?
    ensures Settled(env, Exec(env, l, Dust(env, program, wallet, origin, lamports)).value, OneSeedKey(env, origin))
  {
    var item := Dust(env, program, wallet, origin, lamports);
    var ops := OutsideOps(env, l, item.ix.outside);
    assert Play(env, AuthOf(env, item), l, ops, 0) == Play(env, AuthOf(env, item), l, ops, 1);
    assert Play(env, AuthOf(env, item), l, ops, 1) == Apply(env, AuthOf(env, item), l, ops[1]);
  }

  /** And then no step of any continuation pays that origin, however it is signed. */
  lemma DustBlocksOrigin(env: Env, l: Accounts, program: Address, wallet: Address, origin: Bytes32, lamports: u64,
                         l1: Accounts, steps: seq<Step>, l': Accounts, i: nat)
    requires !IsOurProgram(env, program) && !Ours(env, wallet) && lamports > 0 && CanSpend(env, l, wallet, lamports)
    requires Get(l, OneSeedKey(env, origin)).lamports + lamports < U64
    requires Exec(env, l, Dust(env, program, wallet, origin, lamports)) == Success(l1)
    requires Run(env, l1, steps, l') && i < |steps|
    ensures IsWithdrawal(steps[i].item) ==> RecordOf(steps[i].item).origin != origin
  {
    AnyoneOccupies(env, l, program, wallet, origin, lamports);
    if IsWithdrawal(steps[i].item) {
      OccupiedOriginsAreNeverPaid(env, l1, steps, l', i);
    }
  }
}
