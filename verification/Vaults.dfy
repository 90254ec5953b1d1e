/** Token vaults of program admins: what a step of any kind does to one. */
module Vaults {
  import opened Wrappers
  import opened ByteStrings
  import opened FeeList
  import opened Chain
  import opened Ledger
  import opened Gauges
  import opened Programs
  import opened Steps
  import Bridge
  import Commission
  import Upgrade

  predicate IsBridgeAdmin(env: Env, key: Address) {
    key.Pda? && key.program == env.bridge && |key.seeds| == 1 && key.seeds[0].Raw?
  }

  // One mint as held by one program's admin.
  datatype View = View(holder: Address, mint: Address) {
    function Vault(env: Env): Address {
      AssociatedKey(env, holder, mint)
    }

    // The vault, once it exists, is the holder's account for the mint.
    predicate Sound(env: Env, l: Accounts) {
      var d := DataAt(l, Vault(env));
      d.TokenData? ==> d.mint == mint && d.holder == holder
    }

    function Outside(env: Env, l: Accounts): int {
      Supply(l, mint) - Balance(l, Vault(env))
    }

    predicate OfBridge(env: Env) {
      IsBridgeAdmin(env, holder)
    }
  }

  lemma ApplyKeepsSound(env: Env, auth: Auth, l: Accounts, op: Op, v: View)
    requires Apply(env, auth, l, op).Success? && v.Sound(env, l)
    ensures v.Sound(env, Apply(env, auth, l, op).value)
  {
    ApplyEvolves(env, auth, l, op);
    var l' := Apply(env, auth, l, op).value;
    assert Evolves(DataAt(l, v.Vault(env)), DataAt(l', v.Vault(env)));
    if op.EnsureAssociated? && op.key == v.Vault(env) && NoData(l, op.key) {
      AssociatedKeyInjective(env, op.wallet, op.mint, v.holder, v.mint);
    }
  }

  lemma {:induction false} ReachKeepsSound(env: Env, auth: Auth, l: Accounts, ops: seq<Op>, i: nat, p: nat, v: View)
    requires i <= p <= |ops| && Play(env, auth, l, ops, i).Success? && v.Sound(env, l)
    ensures v.Sound(env, Reach(env, auth, l, ops, i, p))
    decreases p - i
  {
    if i < p {
      ApplyKeepsSound(env, auth, l, ops[i], v);
      ReachKeepsSound(env, auth, Apply(env, auth, l, ops[i]).value, ops, i + 1, p, v);
    }
  }

  lemma StepKeepsSound(env: Env, s: Step, v: View)
    requires Valid(env, s) && v.Sound(env, s.pre)
    ensures v.Sound(env, s.post)
  {
    if s.item.ix.SweepIx? {
      SweepKeeps(env, s, v.Vault(env));
    } else {
      var ops, auth := Ops(env, s.pre, s.item), AuthOf(env, s.item);
      ReachKeepsSound(env, auth, s.pre, ops, 0, |ops|, v);
      ReachPlays(env, auth, s.pre, ops, 0, |ops|);
    }
  }

  // ---- The two bridge operations on the view's own vault ----

  predicate Withdraws(env: Env, item: Item, v: View) {
    item.ix.BridgeIx? && item.ix.bridge.WithdrawToken? && item.ix.bridge.admin == v.holder
        && item.ix.bridge.mint == v.mint
  }

  predicate Deposits(env: Env, item: Item, v: View) {
    item.ix.BridgeIx? && item.ix.bridge.DepositToken? && item.ix.bridge.admin == v.holder
        && item.ix.bridge.mint == v.mint
  }

  function Units(item: Item): u64
    requires item.ix.BridgeIx? && (item.ix.bridge.WithdrawToken? || item.ix.bridge.DepositToken?)
  {
    Bridge.UnitsMoved(item.ix.bridge)
  }

  // Whoever funds a new account at a derived address is from outside.
  lemma FunderIsOutside(env: Env, auth: Auth, l: Accounts, ops: seq<Op>, p: nat)
    requires p < |ops| && ops[p].Create? && Play(env, auth, l, ops, 0).Success?
    requires ops[p].key == Pda(auth.program, ops[p].seeds) && Outsiders(env, auth.signers)
    ensures !Ours(env, ops[p].payer)
  {
    ReachPlays(env, auth, l, ops, 0, p);
  }

  // Minting the shortfall into an account, then paying the whole amount out of it.
  lemma ShortfallEffect(env: Env, auth: Auth, l: Accounts, up: Op, mv: Op)
    requires up.TopUp? && mv.Move? && mv.from == up.key && mv.to != up.key && mv.amount == up.atLeast
    requires Apply(env, auth, l, up).Success? && Apply(env, auth, Apply(env, auth, l, up).value, mv).Success?
    ensures var minted := Apply(env, auth, l, up).value;
            var l', held := Apply(env, auth, minted, mv).value, Balance(l, up.key);
            var short := if held < up.atLeast then up.atLeast - held else 0;
            Supply(minted, up.mint) == Supply(l, up.mint) + short
            && Balance(l', up.key) == held + short - up.atLeast
            && (short > 0 ==> DataAt(l, up.mint).MintData? && DataAt(l, up.mint).authority == Some(up.authority))
  {
  }

  lemma TopUpThenMove(env: Env, auth: Auth, l: Accounts, ops: seq<Op>, p: nat, m: Address, vault: Address)
    requires Play(env, auth, l, ops, 0).Success? && p + 1 < |ops|
    requires ops[p].TopUp? && ops[p].mint == m && ops[p].key == vault
    requires ops[p + 1].Move? && ops[p + 1].from == vault && ops[p + 1].to != vault
             && ops[p + 1].amount == ops[p].atLeast
    requires forall j :: 0 <= j < |ops| && j != p && j != p + 1 ==> !Touches(auth, ops[j], BalanceOf(vault))
    requires forall j :: 0 <= j < |ops| && j != p ==> !Touches(auth, ops[j], SupplyOf(m))
    ensures var l', amount, held := Play(env, auth, l, ops, 0).value, ops[p].atLeast, Balance(l, vault);
            var short := if held < amount then amount - held else 0;
            Supply(l', m) == Supply(l, m) + short && Balance(l', vault) == held + short - amount
            && (short > 0 ==> DataAt(l', m).MintData? && DataAt(l', m).authority == Some(ops[p].authority))
  {
    var before := Reach(env, auth, l, ops, 0, p);
    ReachPlays(env, auth, l, ops, 0, p);
    ReachUntouched(env, auth, l, ops, 0, p, BalanceOf(vault));
    ReachUntouched(env, auth, l, ops, 0, p, SupplyOf(m));
    var minted := Apply(env, auth, before, ops[p]).value;
    ShortfallEffect(env, auth, before, ops[p], ops[p + 1]);
    PlayUntouched(env, auth, minted, ops, p + 1, SupplyOf(m));
    PlayUntouched(env, auth, Apply(env, auth, minted, ops[p + 1]).value, ops, p + 2, BalanceOf(vault));
    PlayEvolves(env, auth, before, ops, p);
    assert Evolves(DataAt(before, m), DataAt(Play(env, auth, l, ops, 0).value, m));
  }

  lemma ScriptFacts(env: Env, auth: Auth, l: Accounts, ix: Bridge.Instruction, p: Bridge.Parts)
    requires ix.WithdrawToken? && auth.program == env.bridge && Outsiders(env, auth.signers)
    requires Play(env, auth, l, Bridge.WithdrawTokenScript(env, ix, p), 0).Success?
    ensures p.early == None && p.proof == None && !Ours(env, ix.owner) && ix.record == OneSeedKey(env, ix.origin)
    ensures ix.ownerToken == AssociatedKey(env, ix.owner, ix.mint)
  {
    var ops := Bridge.WithdrawTokenScript(env, ix, p);
    PlayChecks(env, auth, l, ops, 0);
    assert ops[0].error == None && ops[4].error == None && ops[7].error == None && ops[11].error == None;
    FunderIsOutside(env, auth, l, ops, 12);
  }

  lemma ScriptMintsTheShortfall(env: Env, auth: Auth, l: Accounts, ix: Bridge.Instruction, p: Bridge.Parts)
    requires ix.WithdrawToken? && ix.vault != ix.ownerToken
    requires Play(env, auth, l, Bridge.WithdrawTokenScript(env, ix, p), 0).Success?
    ensures var l' := Play(env, auth, l, Bridge.WithdrawTokenScript(env, ix, p), 0).value;
            var amount, held := Bridge.UnitsMoved(ix), Balance(l, ix.vault);
            var short := if held < amount then amount - held else 0;
            Supply(l', ix.mint) == Supply(l, ix.mint) + short && Balance(l', ix.vault) == held + short - amount
            && (short > 0 ==> DataAt(l', ix.mint).MintData? && DataAt(l', ix.mint).authority == Some(ix.admin))
  {
    TopUpThenMove(env, auth, l, Bridge.WithdrawTokenScript(env, ix, p), 9, ix.mint, ix.vault);
  }

  // A successful token withdrawal, in terms of its script.
  lemma WithdrawalPlays(env: Env, s: Step) returns (p: Bridge.Parts)
    requires Valid(env, s) && s.item.ix.BridgeIx? && s.item.ix.bridge.WithdrawToken?
    ensures p == Bridge.PartsOf(env, s.pre, s.item.ix.bridge)
    ensures Play(env, AuthOf(env, s.item), s.pre, Bridge.WithdrawTokenScript(env, s.item.ix.bridge, p), 0)
            == Success(s.post)
    ensures AuthOf(env, s.item).program == env.bridge && Outsiders(env, AuthOf(env, s.item).signers)
  {
    p := Bridge.PartsOf(env, s.pre, s.item.ix.bridge);
  }

  lemma WithdrawalFacts(env: Env, s: Step)
    requires Valid(env, s) && s.item.ix.BridgeIx? && s.item.ix.bridge.WithdrawToken?
    ensures var ix := s.item.ix.bridge;
            Bridge.WithdrawTokenError(env, s.pre, ix) == None && !Ours(env, ix.owner)
            && ix.admin == BridgeKey(env, ix.seeds)
            && ix.vault == AssociatedKey(env, ix.admin, ix.mint)
               && ix.ownerToken == AssociatedKey(env, ix.owner, ix.mint)
            && ix.vault != ix.ownerToken
  {
    var p := WithdrawalPlays(env, s);
    var ix := s.item.ix.bridge;
    ScriptFacts(env, AuthOf(env, s.item), s.pre, ix, p);
    if ix.ownerToken == ix.vault {
      AssociatedKeyInjective(env, ix.owner, ix.mint, ix.admin, ix.mint);
    }
  }

  /** A withdrawal pays from the vault and mints only what the vault lacks, so afterwards the supply
      is the larger of what it was and what now circulates outside. */
  lemma WithdrawalMintsTheShortfall(env: Env, s: Step, v: View)
    requires Valid(env, s) && Withdraws(env, s.item, v)
    ensures v.Outside(env, s.post) == v.Outside(env, s.pre) + Units(s.item)
    ensures Supply(s.post, v.mint)
            == if v.Outside(env, s.post) > Supply(s.pre, v.mint) then v.Outside(env, s.post) else Supply(s.pre, v.mint)
    ensures Supply(s.post, v.mint) > Supply(s.pre, v.mint) ==> DataAt(s.post, v.mint).authority == Some(v.holder)
  {
    var p := WithdrawalPlays(env, s);
    WithdrawalFacts(env, s);
    ScriptMintsTheShortfall(env, AuthOf(env, s.item), s.pre, s.item.ix.bridge, p);
  }

  lemma WithdrawalScriptDelivers(env: Env, auth: Auth, l: Accounts, ix: Bridge.Instruction, p: Bridge.Parts)
    requires ix.WithdrawToken? && ix.vault != ix.ownerToken
    requires Play(env, auth, l, Bridge.WithdrawTokenScript(env, ix, p), 0).Success?
    ensures var l' := Play(env, auth, l, Bridge.WithdrawTokenScript(env, ix, p), 0).value;
            Balance(l', ix.ownerToken) == Balance(l, ix.ownerToken) + Bridge.UnitsMoved(ix)
  {
    var ops := Bridge.WithdrawTokenScript(env, ix, p);
    var before, after := Focus(env, auth, l, ops, 10, BalanceOf(ix.ownerToken));
    MoveEffect(env, auth, before, ops[10], ix.ownerToken);
  }

  /** What a withdrawal pays arrives in full in the receiver's own token account for the mint. */
  lemma WithdrawalReachesReceiver(env: Env, s: Step)
    requires Valid(env, s) && s.item.ix.BridgeIx? && s.item.ix.bridge.WithdrawToken?
    ensures var ix := s.item.ix.bridge; var account := AssociatedKey(env, ix.owner, ix.mint);
            Balance(s.post, account) == Balance(s.pre, account) + Units(s.item)
  {
    var p := WithdrawalPlays(env, s);
    WithdrawalFacts(env, s);
    WithdrawalScriptDelivers(env, AuthOf(env, s.item), s.pre, s.item.ix.bridge, p);
  }

  /** A mint the bridge does not control is paid out of the vault alone, and its supply stays. */
  lemma ForeignMintPaidFromVault(env: Env, s: Step, v: View)
    requires Valid(env, s) && Withdraws(env, s.item, v)
    requires DataAt(s.pre, v.mint).MintData? && DataAt(s.pre, v.mint).authority != Some(v.holder)
    ensures Supply(s.post, v.mint) == Supply(s.pre, v.mint)
    ensures Balance(s.post, v.Vault(env)) == Balance(s.pre, v.Vault(env)) - Units(s.item)
  {
    WithdrawalMintsTheShortfall(env, s, v);
    StepEvolves(env, s, v.mint);
  }

  // ---- Everything else that can reach the vault ----

  // What an operation that does not spend the vault puts into it.
  function TokenInflow(op: Op, vault: Address): nat {
    if op.Move? && op.to == vault then op.amount
    else if op.MintTo? && op.key == vault then op.amount
    else 0
  }

  // Nobody but the admin, who did not sign, spends the vault.
  lemma VaultNotSpent(env: Env, auth: Auth, l: Accounts, op: Op, v: View)
    requires Apply(env, auth, l, op).Success? && v.Sound(env, l) && v.holder !in auth.signers
    requires op.Move? ==> v.holder !in Signers(auth, op.seeds)
    requires op.TopUp? ==> op.key != v.Vault(env)
    ensures !(op.Move? && op.from == v.Vault(env)) && !(op.Burn? && op.key == v.Vault(env))
    ensures Balance(Apply(env, auth, l, op).value, v.Vault(env))
            == Balance(l, v.Vault(env)) + TokenInflow(op, v.Vault(env))
  {
    if !Touches(auth, op, BalanceOf(v.Vault(env))) {
      BalanceUntouched(env, auth, l, op, v.Vault(env));
    }
  }

  // A script whose only operation that could touch the vault is `p`.
  lemma VaultReceives(env: Env, auth: Auth, l: Accounts, ops: seq<Op>, p: nat, v: View)
    requires p < |ops| && Play(env, auth, l, ops, 0).Success? && v.Sound(env, l)
    requires forall j :: 0 <= j < |ops| && j != p ==> !Touches(auth, ops[j], BalanceOf(v.Vault(env)))
    requires v.holder !in auth.signers && (ops[p].Move? ==> v.holder !in Signers(auth, ops[p].seeds))
    requires ops[p].TopUp? ==> ops[p].key != v.Vault(env)
    ensures !(ops[p].Move? && ops[p].from == v.Vault(env)) && !(ops[p].Burn? && ops[p].key == v.Vault(env))
    ensures Balance(Play(env, auth, l, ops, 0).value, v.Vault(env))
            == Balance(l, v.Vault(env)) + TokenInflow(ops[p], v.Vault(env))
  {
    var before, after := Focus(env, auth, l, ops, p, BalanceOf(v.Vault(env)));
    ReachKeepsSound(env, auth, l, ops, 0, p, v);
    VaultNotSpent(env, auth, before, ops[p], v);
  }

  // What instructions other than the view's own deposits put into the vault.
  function Gift(env: Env, item: Item, v: View): nat {
    match item.ix
    case OutsideIx(c) => TokenInflow(c.op, v.Vault(env))
    case CommissionIx(c) =>
      if c.Withdraw? && c.entry.token.FT? && c.receiverToken == v.Vault(env) then c.withdrawAmount else 0
    case _ => 0
  }

  lemma DepositFacts(env: Env, auth: Auth, l: Accounts, ix: Bridge.Instruction, early: Option<Error>)
    requires ix.DepositToken? && Play(env, auth, l, Bridge.DepositTokenScript(env, ix, early), 0).Success?
    ensures early == None && ix.vault == AssociatedKey(env, ix.admin, ix.mint)
    ensures ix.tokenSeed.Some? ==> ix.mint == OneSeedKey(env, ix.tokenSeed.value)
    ensures ix.owner in auth.signers
  {
    var ops := Bridge.DepositTokenScript(env, ix, early);
    PlayChecks(env, auth, l, ops, 0);
    assert ops[0].error == None && ops[1].error == None && ops[3].error == None;
    ReachPlays(env, auth, l, ops, 0, 4);
  }

  lemma DepositScript(env: Env, auth: Auth, l: Accounts, ix: Bridge.Instruction, early: Option<Error>, v: View)
    requires ix.DepositToken? && ix.admin == v.holder && ix.mint == v.mint && v.Sound(env, l) && Ours(env, v.holder)
             && Outsiders(env, auth.signers)
    requires Play(env, auth, l, Bridge.DepositTokenScript(env, ix, early), 0).Success?
    ensures v.Outside(env, Play(env, auth, l, Bridge.DepositTokenScript(env, ix, early), 0).value)
            == v.Outside(env, l) - Bridge.UnitsMoved(ix)
  {
    var ops := Bridge.DepositTokenScript(env, ix, early);
    DepositFacts(env, auth, l, ix, early);
    VaultReceives(env, auth, l, ops, 4, v);
    var before, after := Focus(env, auth, l, ops, 4, SupplyOf(v.mint));
    if ix.tokenSeed.None? {
      SupplyUntouched(env, auth, before, ops[4], v.mint);
    }
  }

  /** A deposit takes its amount out of circulation, whether it burns wrapped tokens or locks foreign ones. */
  lemma DepositLeavesCirculation(env: Env, s: Step, v: View)
    requires Valid(env, s) && Deposits(env, s.item, v) && v.Sound(env, s.pre) && Ours(env, v.holder)
    ensures v.Outside(env, s.post) == v.Outside(env, s.pre) - Units(s.item)
  {
    var ix := s.item.ix.bridge;
    DepositScript(env, AuthOf(env, s.item), s.pre, ix, Bridge.DepositError(env, s.pre, s.item.prior, ix), v);
  }

  lemma DepositScriptTakes(env: Env, auth: Auth, l: Accounts, ix: Bridge.Instruction, early: Option<Error>)
    requires ix.DepositToken? && (ix.tokenSeed.None? ==> ix.ownerToken != ix.vault)
    requires Play(env, auth, l, Bridge.DepositTokenScript(env, ix, early), 0).Success?
    ensures Balance(Play(env, auth, l, Bridge.DepositTokenScript(env, ix, early), 0).value, ix.ownerToken)
            == Balance(l, ix.ownerToken) - Bridge.UnitsMoved(ix)
  {
    var ops := Bridge.DepositTokenScript(env, ix, early);
    var before, after := Focus(env, auth, l, ops, 4, BalanceOf(ix.ownerToken));
    if ix.tokenSeed.None? {
      MoveEffect(env, auth, before, ops[4], ix.ownerToken);
    }
  }

  lemma DepositPlays(env: Env, s: Step) returns (early: Option<Error>)
    requires Valid(env, s) && s.item.ix.BridgeIx? && s.item.ix.bridge.DepositToken?
    ensures Play(env, AuthOf(env, s.item), s.pre, Bridge.DepositTokenScript(env, s.item.ix.bridge, early), 0)
            == Success(s.post)
    ensures Outsiders(env, AuthOf(env, s.item).signers)
    ensures s.item.ix.bridge.admin == BridgeKey(env, s.item.ix.bridge.seeds)
  {
    early := Bridge.DepositError(env, s.pre, s.item.prior, s.item.ix.bridge);
    DepositFacts(env, AuthOf(env, s.item), s.pre, s.item.ix.bridge, early);
  }

  // A deposit is never made from the vault itself, whose holder cannot sign a transaction.
  lemma DepositIsNotFromVault(env: Env, auth: Auth, l: Accounts, ix: Bridge.Instruction, early: Option<Error>)
    requires ix.DepositToken? && Ours(env, ix.admin) && View(ix.admin, ix.mint).Sound(env, l)
    requires Outsiders(env, auth.signers)
    requires Play(env, auth, l, Bridge.DepositTokenScript(env, ix, early), 0).Success?
    ensures ix.tokenSeed.None? ==> ix.ownerToken != ix.vault
  {
    DepositFacts(env, auth, l, ix, early);
    VaultReceives(env, auth, l, Bridge.DepositTokenScript(env, ix, early), 4, View(ix.admin, ix.mint));
  }

  /** What a deposit burns or locks leaves the depositor's token account in full. */
  lemma DepositLeavesDepositor(env: Env, s: Step)
    requires Valid(env, s) && s.item.ix.BridgeIx? && s.item.ix.bridge.DepositToken?
    requires View(s.item.ix.bridge.admin, s.item.ix.bridge.mint).Sound(env, s.pre)
    ensures Balance(s.post, s.item.ix.bridge.ownerToken) == Balance(s.pre, s.item.ix.bridge.ownerToken) - Units(s.item)
  {
    var early := DepositPlays(env, s);
    DepositIsNotFromVault(env, AuthOf(env, s.item), s.pre, s.item.ix.bridge, early);
    DepositScriptTakes(env, AuthOf(env, s.item), s.pre, s.item.ix.bridge, early);
  }

  lemma OtherDepositScript(env: Env, auth: Auth, l: Accounts, ix: Bridge.Instruction, early: Option<Error>, v: View)
    requires ix.DepositToken? && !(ix.admin == v.holder && ix.mint == v.mint) && v.Sound(env, l) && Ours(env, v.holder)
             && Outsiders(env, auth.signers)
    requires Play(env, auth, l, Bridge.DepositTokenScript(env, ix, early), 0).Success?
    ensures Balance(Play(env, auth, l, Bridge.DepositTokenScript(env, ix, early), 0).value, v.Vault(env))
            == Balance(l, v.Vault(env))
  {
    DepositFacts(env, auth, l, ix, early);
    if ix.vault == v.Vault(env) {
      AssociatedKeyInjective(env, ix.admin, ix.mint, v.holder, v.mint);
    }
    VaultReceives(env, auth, l, Bridge.DepositTokenScript(env, ix, early), 4, v);
  }

  lemma WithdrawalScriptSpares(env: Env, auth: Auth, l: Accounts, ix: Bridge.Instruction, p: Bridge.Parts, key: Address)
    requires ix.WithdrawToken? && key != ix.vault && key != ix.ownerToken
    requires Play(env, auth, l, Bridge.WithdrawTokenScript(env, ix, p), 0).Success?
    ensures Balance(Play(env, auth, l, Bridge.WithdrawTokenScript(env, ix, p), 0).value, key) == Balance(l, key)
  {
    PlayUntouched(env, auth, l, Bridge.WithdrawTokenScript(env, ix, p), 0, BalanceOf(key));
  }

  lemma OtherWithdrawal(env: Env, s: Step, v: View)
    requires Valid(env, s) && s.item.ix.BridgeIx? && s.item.ix.bridge.WithdrawToken? && !Withdraws(env, s.item, v)
             && Ours(env, v.holder)
    ensures Balance(s.post, v.Vault(env)) == Balance(s.pre, v.Vault(env))
  {
    var ix := s.item.ix.bridge;
    var p := WithdrawalPlays(env, s);
    WithdrawalFacts(env, s);
    ScriptFacts(env, AuthOf(env, s.item), s.pre, ix, p);
    if ix.vault == v.Vault(env) {
      AssociatedKeyInjective(env, ix.admin, ix.mint, v.holder, v.mint);
    }
    if ix.ownerToken == v.Vault(env) {
      AssociatedKeyInjective(env, ix.owner, ix.mint, v.holder, v.mint);
    }
    WithdrawalScriptSpares(env, AuthOf(env, s.item), s.pre, ix, p, v.Vault(env));
  }

  lemma NoTokenOps(env: Env, l: Accounts, prior: Option<Bridge.Prior>, ix: Bridge.Instruction)
    requires !ix.DepositToken? && !ix.WithdrawToken?
    ensures forall op <- Bridge.Ops(env, l, prior, ix) :: !op.TopUp? && !op.MintTo? && !op.Burn? && !op.Move?
  {
  }

  lemma OtherBridge(env: Env, s: Step, v: View)
    requires Valid(env, s) && s.item.ix.BridgeIx? && !Withdraws(env, s.item, v) && !Deposits(env, s.item, v)
    requires v.Sound(env, s.pre) && Ours(env, v.holder)
    ensures Balance(s.post, v.Vault(env)) == Balance(s.pre, v.Vault(env))
  {
    var ix := s.item.ix.bridge;
    if ix.DepositToken? {
      OtherDepositScript(env, AuthOf(env, s.item), s.pre, ix, Bridge.DepositError(env, s.pre, s.item.prior, ix), v);
    } else if ix.WithdrawToken? {
      OtherWithdrawal(env, s, v);
    } else {
      NoTokenOps(env, s.pre, s.item.prior, ix);
      PlayUntouched(env, AuthOf(env, s.item), s.pre, Bridge.Ops(env, s.pre, s.item.prior, ix), 0,
                    BalanceOf(v.Vault(env)));
    }
  }

  // A charge into, or a withdrawal from, the fee vaults of the view's holder.
  predicate Collects(item: Item, v: View) {
    item.ix.CommissionIx? && (item.ix.commission.ChargeCommission? || item.ix.commission.Withdraw?)
        && item.ix.commission.admin == v.holder
  }

  lemma FeeAdminKey(env: Env, s: Step)
    requires Valid(env, s) && s.item.ix.CommissionIx?
    ensures s.item.ix.commission.admin == CommissionKey(env.commission, s.item.ix.commission.bridgeAdmin)
  {
    var ops := Commission.Ops(env, s.pre, s.item.ix.commission);
    PlayChecks(env, AuthOf(env, s.item), s.pre, ops, 0);
    assert ops[0].Check? ==> ops[0].error == None;
  }

  lemma BridgeCollectsNoFees(env: Env, s: Step, v: View)
    requires Valid(env, s) && v.OfBridge(env)
    ensures !Collects(s.item, v)
  {
    if s.item.ix.CommissionIx? {
      FeeAdminKey(env, s);
    }
  }

  lemma ChargeScriptFills(env: Env, auth: Auth, l: Accounts, ix: Commission.Instruction, price: Outcome<u64>, v: View)
    requires ix.ChargeCommission? && v.Sound(env, l)
    requires v.holder !in Signers(auth, Commission.AdminSeeds(ix.bridgeAdmin)) && ix.admin != v.holder
    requires Play(env, auth, l, Commission.ChargeScript(env, ix, price), 0).Success?
    ensures Balance(Play(env, auth, l, Commission.ChargeScript(env, ix, price), 0).value, v.Vault(env))
            == Balance(l, v.Vault(env))
  {
    var ops := Commission.ChargeScript(env, ix, price);
    if |ops| == 3 {
      PlayChecks(env, auth, l, ops, 0);
      assert ops[0].error == None;
      if ix.vault == v.Vault(env) {
        AssociatedKeyInjective(env, ix.admin, ix.token.mint, v.holder, v.mint);
      }
      VaultReceives(env, auth, l, ops, 2, v);
    } else {
      PlayUntouched(env, auth, l, ops, 0, BalanceOf(v.Vault(env)));
    }
  }

  lemma FeeWithdrawalScriptFills(env: Env, auth: Auth, l: Accounts, ix: Commission.Instruction,
                                 next: Outcome<FeeAdmin>, v: View)
    requires ix.Withdraw? && v.Sound(env, l)
    requires v.holder !in Signers(auth, Commission.AdminSeeds(ix.bridgeAdmin)) && ix.admin != v.holder
    requires Play(env, auth, l, Commission.WithdrawScript(env, ix, next), 0).Success?
    ensures Balance(Play(env, auth, l, Commission.WithdrawScript(env, ix, next), 0).value, v.Vault(env))
            == Balance(l, v.Vault(env))
               + if ix.entry.token.FT? && ix.receiverToken == v.Vault(env) then ix.withdrawAmount else 0
  {
    var ops := Commission.WithdrawScript(env, ix, next);
    if |ops| == 5 {
      VaultReceives(env, auth, l, ops, 2, v);
    } else {
      PlayUntouched(env, auth, l, ops, 0, BalanceOf(v.Vault(env)));
    }
  }

  lemma ListOperationSparesVault(env: Env, s: Step, v: View)
    requires Valid(env, s) && s.item.ix.CommissionIx?
             && (s.item.ix.commission.InitializeAdmin? || s.item.ix.commission.EditToken?)
    ensures Balance(s.post, v.Vault(env)) == Balance(s.pre, v.Vault(env))
  {
    PlayUntouched(env, AuthOf(env, s.item), s.pre, Commission.Ops(env, s.pre, s.item.ix.commission), 0,
                  BalanceOf(v.Vault(env)));
  }

  lemma CommissionFillsVault(env: Env, s: Step, v: View)
    requires Valid(env, s) && s.item.ix.CommissionIx? && !Collects(s.item, v)
    requires v.Sound(env, s.pre) && Ours(env, v.holder)
    ensures Balance(s.post, v.Vault(env)) == Balance(s.pre, v.Vault(env)) + Gift(env, s.item, v)
  {
    var ix, auth := s.item.ix.commission, AuthOf(env, s.item);
    FeeAdminKey(env, s);
    match ix {
      case ChargeCommission(_, _, _, _, _, _, _, _, _) =>
        ChargeScriptFills(env, auth, s.pre, ix, Commission.Price(env, s.pre, ix), v);
      case Withdraw(_, _, _, _, _, _, _, _, _) =>
        FeeWithdrawalScriptFills(env, auth, s.pre, ix, Commission.Next(env, s.pre, ix), v);
      case _ => ListOperationSparesVault(env, s, v);
    }
  }

  lemma OutsideFillsVault(env: Env, s: Step, v: View)
    requires Valid(env, s) && s.item.ix.OutsideIx? && v.Sound(env, s.pre) && Ours(env, v.holder)
    ensures Balance(s.post, v.Vault(env)) == Balance(s.pre, v.Vault(env)) + Gift(env, s.item, v)
  {
    OutsideIsPermitted(env, s);
    VaultNotSpent(env, AuthOf(env, s.item), s.pre, s.item.ix.outside.op, v);
  }

  /** Apart from its holder's own operations, nothing takes tokens out of a vault. */
  lemma OthersOnlyFillVault(env: Env, s: Step, v: View)
    requires Valid(env, s) && v.Sound(env, s.pre) && Ours(env, v.holder)
    requires !Withdraws(env, s.item, v) && !Deposits(env, s.item, v) && !Collects(s.item, v)
    ensures Balance(s.post, v.Vault(env)) == Balance(s.pre, v.Vault(env)) + Gift(env, s.item, v)
  {
    match s.item.ix
    case BridgeIx(_) => OtherBridge(env, s, v);
    case CommissionIx(_) => CommissionFillsVault(env, s, v);
    case UpgradeIx(u) => PlayUntouched(env, AuthOf(env, s.item), s.pre, Upgrade.Ops(env, s.pre, u), 0,
                                       BalanceOf(v.Vault(env)));
    case OutsideIx(_) => OutsideFillsVault(env, s, v);
    case SweepIx => SweepKeeps(env, s, v.Vault(env));
  }
}
