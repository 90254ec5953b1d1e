/** What each runtime operation conserves, and which quantities it can touch at all. */
module Gauges {
  import opened Wrappers
  import opened ByteStrings
  import opened Chain
  import opened Ledger

  // A payout that neither wraps nor pays the account it comes from.
  predicate SafePayout(l: Accounts, op: Op) {
    op.Payout? ==> op.admin != op.to && op.lamports <= Get(l, op.admin).lamports
  }

  lemma FundingKeepsLamports(env: Env, auth: Auth, l: Accounts, op: Op)
    requires Funds(op) && Apply(env, auth, l, op).Success?
    requires op.Payout? ==> SafePayout(l, op) && Sum(l, Lamports) < U64
    ensures Sum(Apply(env, auth, l, op).value, Lamports) == Sum(l, Lamports)
  {
    var l' := Apply(env, auth, l, op).value;
    match op {
      case Create(payer, key, _, _, _) =>
        SumUpdate2(l, Lamports, payer, l'[payer], key, l'[key]);
      case CreateMetadata(key, _, _, payer, _, _) =>
        SumUpdate2(l, Lamports, payer, l'[payer], key, l'[key]);
      case EnsureAssociated(payer, _, _, key) =>
        if l' != l { SumUpdate2(l, Lamports, payer, l'[payer], key, l'[key]); }
      case Pay(payer, to, _, _) =>
        if payer != to { SumUpdate2(l, Lamports, payer, l'[payer], to, l'[to]); }
      case Payout(admin, to, lamports) =>
        PayoutDoesNotWrap(l, admin, to, lamports);
        SumUpdate2(l, Lamports, admin, l'[admin], to, l'[to]);
    }
  }

  lemma RewritingKeepsLamports(env: Env, auth: Auth, l: Accounts, op: Op)
    requires !Funds(op) && Apply(env, auth, l, op).Success?
    ensures Sum(Apply(env, auth, l, op).value, Lamports) == Sum(l, Lamports)
  {
    var l' := Apply(env, auth, l, op).value;
    match op {
      case InitMint(mint, _, _) => SumUpdate(l, Lamports, mint, l'[mint]);
      case TopUp(mint, key, _, _, _) =>
        if l' != l { SumUpdate2(l, Lamports, mint, l'[mint], key, l'[key]); }
      case MintTo(mint, key, _, _, _) => SumUpdate2(l, Lamports, mint, l'[mint], key, l'[key]);
      case Burn(key, mint, _, _) => SumUpdate2(l, Lamports, mint, l'[mint], key, l'[key]);
      case Move(from, to, _, _, _) =>
        if from != to { SumUpdate2(l, Lamports, from, l'[from], to, l'[to]); }
      case Store(key, _) => SumUpdate(l, Lamports, key, l'[key]);
      case Deploy(program, _, _, _) => SumUpdate(l, Lamports, program, l'[program]);
      case _ =>
    }
  }

  /** No operation creates or destroys lamports; a payout needs the total to fit a machine word. */
  lemma ApplyKeepsLamports(env: Env, auth: Auth, l: Accounts, op: Op)
    requires Apply(env, auth, l, op).Success?
    requires op.Payout? ==> SafePayout(l, op) && Sum(l, Lamports) < U64
    ensures Sum(Apply(env, auth, l, op).value, Lamports) == Sum(l, Lamports)
  {
    if Funds(op) {
      FundingKeepsLamports(env, auth, l, op);
    } else {
      RewritingKeepsLamports(env, auth, l, op);
    }
  }

  lemma SumCovers(l: Accounts, k1: Address, k2: Address)
    requires k1 != k2
    ensures Get(l, k1).lamports + Get(l, k2).lamports <= Sum(l, Lamports)
  {
    if k1 in l {
      SumSplits(l, Lamports, k1);
      if k2 in l { SumSplits(l - {k1}, Lamports, k2); }
    } else if k2 in l {
      SumSplits(l, Lamports, k2);
    }
  }

  lemma PayoutDoesNotWrap(l: Accounts, admin: Address, to: Address, lamports: u64)
    requires admin != to && lamports <= Get(l, admin).lamports && Sum(l, Lamports) < U64
    ensures PaidOut(l, admin, to, lamports)
            == l[admin := Get(l, admin).(lamports := Get(l, admin).lamports - lamports)]
                [to := Get(l, to).(lamports := Get(l, to).lamports + lamports)]
  {
    SumCovers(l, admin, to);
    WordsDoNotWrap(Get(l, admin).lamports, Get(l, to).lamports, lamports);
  }

  lemma WordsDoNotWrap(from: nat, to: nat, amount: u64)
    requires amount <= from && from + to < U64
    ensures WrapSub(from, amount) == from - amount && WrapAdd(to, amount) == to + amount
  {
    InRangeDoesNotWrap(from - amount);
    InRangeDoesNotWrap(to + amount);
  }

  // By how much the balances of a mint's token accounts exceed its recorded supply.
  ghost function Gap(l: Accounts, m: Address): int {
    Sum(l, TokensOf(m)) - Supply(l, m)
  }

  // What one account contributes to the gap.
  function Share(key: Address, d: Data, m: Address): int {
    if d.TokenData? && d.mint == m then d.amount
    else if d.MintData? && key == m then 0 - d.supply
    else 0
  }

  lemma GapUpdate(l: Accounts, m: Address, key: Address, a: Account)
    ensures Gap(l[key := a], m) - Gap(l, m) == Share(key, a.data, m) - Share(key, DataAt(l, key), m)
  {
    SumUpdate(l, TokensOf(m), key, a);
  }

  lemma GapUpdate2(l: Accounts, m: Address, k1: Address, a1: Account, k2: Address, a2: Account)
    requires k1 != k2
    ensures Gap(l[k1 := a1][k2 := a2], m) - Gap(l, m)
            == Share(k1, a1.data, m) + Share(k2, a2.data, m) - Share(k1, DataAt(l, k1), m) - Share(k2, DataAt(l, k2), m)
  {
    GapUpdate(l, m, k1, a1);
    GapUpdate(l[k1 := a1], m, k2, a2);
  }

  lemma MintedKeepsGap(l: Accounts, mint: Address, key: Address, authority: Address, amount: nat, m: Address)
    requires Minted(l, mint, key, authority, amount).Success?
    ensures Gap(Minted(l, mint, key, authority, amount).value, m) == Gap(l, m)
  {
    var l' := Minted(l, mint, key, authority, amount).value;
    GapUpdate2(l, m, mint, l'[mint], key, l'[key]);
  }

  lemma BurnedKeepsGap(l: Accounts, key: Address, mint: Address, authority: Address, amount: u64, m: Address)
    requires Burned(l, key, mint, authority, amount).Success?
    ensures Gap(Burned(l, key, mint, authority, amount).value, m) == Gap(l, m)
  {
    var l' := Burned(l, key, mint, authority, amount).value;
    GapUpdate2(l, m, mint, l'[mint], key, l'[key]);
  }

  lemma MovedKeepsGap(l: Accounts, from: Address, to: Address, authority: Address, amount: u64, m: Address)
    requires Moved(l, from, to, authority, amount).Success?
    ensures Gap(Moved(l, from, to, authority, amount).value, m) == Gap(l, m)
  {
    var l' := Moved(l, from, to, authority, amount).value;
    if from != to {
      GapUpdate2(l, m, from, l'[from], to, l'[to]);
    }
  }

  lemma PaidOutKeepsGap(l: Accounts, admin: Address, to: Address, lamports: u64, m: Address)
    ensures Gap(PaidOut(l, admin, to, lamports), m) == Gap(l, m)
  {
    var debited := l[admin := Get(l, admin).(lamports := WrapSub(Get(l, admin).lamports, lamports))];
    GapUpdate(l, m, admin, debited[admin]);
    GapUpdate(debited, m, to, Get(debited, to).(lamports := WrapAdd(Get(debited, to).lamports, lamports)));
  }

  lemma CreatedKeepsGap(env: Env, l: Accounts, payer: Address, key: Address, size: nat, owner: Address, data: Data,
                        m: Address)
    requires Created(env, l, payer, key, size, owner, data).Success? && Share(key, data, m) == 0
    ensures Gap(Created(env, l, payer, key, size, owner, data).value, m) == Gap(l, m)
  {
    var l' := Created(env, l, payer, key, size, owner, data).value;
    GapUpdate2(l, m, payer, l'[payer], key, l'[key]);
  }

  lemma OpenedKeepsGap(env: Env, l: Accounts, payer: Address, key: Address, size: nat, owner: Address, data: Data,
                       m: Address)
    requires Opened(env, l, payer, key, size, owner, data).Success? && Share(key, data, m) == 0
    ensures Gap(Opened(env, l, payer, key, size, owner, data).value, m) == Gap(l, m)
  {
    var l' := Opened(env, l, payer, key, size, owner, data).value;
    GapUpdate2(l, m, payer, l'[payer], key, l'[key]);
  }

  lemma FundingKeepsGap(env: Env, auth: Auth, l: Accounts, op: Op, m: Address)
    requires Funds(op) && Apply(env, auth, l, op).Success?
    ensures Gap(Apply(env, auth, l, op).value, m) == Gap(l, m)
  {
    var l' := Apply(env, auth, l, op).value;
    match op {
      case Create(payer, key, size, owner, _) => CreatedKeepsGap(env, l, payer, key, size, owner, Blank(size), m);
      case CreateMetadata(key, _, _, payer, metadata, _) =>
        CreatedKeepsGap(env, l, payer, key, METADATA_SIZE, env.metadataProgram, MetadataData(metadata), m);
      case EnsureAssociated(payer, wallet, mint, key) =>
        if NoData(l, key) {
          OpenedKeepsGap(env, l, payer, key, TOKEN_SIZE, env.tokenProgram, TokenData(mint, wallet, 0), m);
        }
      case Pay(payer, to, _, _) =>
        if payer != to { GapUpdate2(l, m, payer, l'[payer], to, l'[to]); }
      case Payout(admin, to, lamports) => PaidOutKeepsGap(l, admin, to, lamports, m);
    }
  }

  lemma RewritingKeepsGap(env: Env, auth: Auth, l: Accounts, op: Op, m: Address)
    requires !Funds(op) && Apply(env, auth, l, op).Success?
    ensures Gap(Apply(env, auth, l, op).value, m) == Gap(l, m)
  {
    var l' := Apply(env, auth, l, op).value;
    match op {
      case InitMint(mint, _, _) => GapUpdate(l, m, mint, l'[mint]);
      case TopUp(mint, key, authority, atLeast, _) =>
        if Balance(l, key) < atLeast { MintedKeepsGap(l, mint, key, authority, atLeast - Balance(l, key), m); }
      case MintTo(mint, key, authority, amount, _) => MintedKeepsGap(l, mint, key, authority, amount, m);
      case Burn(key, mint, authority, amount) => BurnedKeepsGap(l, key, mint, authority, amount, m);
      case Move(from, to, authority, amount, _) => MovedKeepsGap(l, from, to, authority, amount, m);
      case Store(key, _) => GapUpdate(l, m, key, l'[key]);
      case Deploy(program, _, _, _) => GapUpdate(l, m, program, l'[program]);
      case _ =>
    }
  }

  /** Every operation changes a mint's supply by exactly what it adds to the balances of its token accounts. */
  lemma ApplyKeepsGap(env: Env, auth: Auth, l: Accounts, op: Op, m: Address)
    requires Apply(env, auth, l, op).Success?
    ensures Gap(Apply(env, auth, l, op).value, m) == Gap(l, m)
  {
    if Funds(op) {
      FundingKeepsGap(env, auth, l, op, m);
    } else {
      RewritingKeepsGap(env, auth, l, op, m);
    }
  }

  lemma {:induction false} PlayKeepsGap(env: Env, auth: Auth, l: Accounts, ops: seq<Op>, i: nat, m: Address)
    requires i <= |ops| && Play(env, auth, l, ops, i).Success?
    ensures Gap(Play(env, auth, l, ops, i).value, m) == Gap(l, m)
    decreases |ops| - i
  {
    if i < |ops| {
      ApplyKeepsGap(env, auth, l, ops[i], m);
      PlayKeepsGap(env, auth, Apply(env, auth, l, ops[i]).value, ops, i + 1, m);
    }
  }

  lemma {:induction false} PlayKeepsLamports(env: Env, auth: Auth, l: Accounts, ops: seq<Op>, i: nat)
    requires i <= |ops| && Play(env, auth, l, ops, i).Success?
    requires forall j :: i <= j < |ops| ==> !ops[j].Payout?
    ensures Sum(Play(env, auth, l, ops, i).value, Lamports) == Sum(l, Lamports)
    decreases |ops| - i
  {
    if i < |ops| {
      ApplyKeepsLamports(env, auth, l, ops[i]);
      PlayKeepsLamports(env, auth, Apply(env, auth, l, ops[i]).value, ops, i + 1);
    }
  }

  // ---- Which operation touches which quantity ----

  datatype Gauge = BalanceOf(key: Address) | SupplyOf(mint: Address) | LamportsOf(key: Address) | StateOf(key: Address)

  datatype Reading = Number(n: nat) | State(data: Data)

  // The data only the three programs write.
  predicate Owned(d: Data) {
    d.BridgeData? || d.WithdrawData? || d.CommissionData? || d.UpgradeData?
  }

  function Read(l: Accounts, g: Gauge): Reading {
    match g
    case BalanceOf(key) => Number(Balance(l, key))
    case SupplyOf(mint) => Number(Supply(l, mint))
    case LamportsOf(key) => Number(Get(l, key).lamports)
    case StateOf(key) => State(if Owned(DataAt(l, key)) then DataAt(l, key) else Blank(0))
  }

  // Can this operation move the gauge, given who can sign?
  predicate Touches(auth: Auth, op: Op, g: Gauge) {
    match g
    case BalanceOf(key) =>
      ((op.TopUp? || op.MintTo? || op.Burn?) && op.key == key)
      || (op.Move? && (op.from == key || op.to == key))
    case SupplyOf(mint) => (op.TopUp? || op.MintTo? || op.Burn?) && op.mint == mint
    case LamportsOf(key) =>
      ((op.Create? || op.CreateMetadata?) && (op.key == key || (op.payer == key && key in Signers(auth, op.seeds))))
      || (op.EnsureAssociated? && (op.key == key || (op.payer == key && key in auth.signers)))
      || (op.Pay? && (op.to == key || (op.payer == key && key in Signers(auth, op.seeds))))
      || (op.Payout? && (op.admin == key || op.to == key))
    case StateOf(key) => op.Store? && op.key == key
  }

  lemma BalanceUntouched(env: Env, auth: Auth, l: Accounts, op: Op, key: Address)
    requires Apply(env, auth, l, op).Success? && !Touches(auth, op, BalanceOf(key))
    ensures Balance(Apply(env, auth, l, op).value, key) == Balance(l, key)
  {
  }

  lemma SupplyUntouched(env: Env, auth: Auth, l: Accounts, op: Op, mint: Address)
    requires Apply(env, auth, l, op).Success? && !Touches(auth, op, SupplyOf(mint))
    ensures Supply(Apply(env, auth, l, op).value, mint) == Supply(l, mint)
  {
  }

  lemma LamportsUntouched(env: Env, auth: Auth, l: Accounts, op: Op, key: Address)
    requires Apply(env, auth, l, op).Success? && !Touches(auth, op, LamportsOf(key))
    ensures Get(Apply(env, auth, l, op).value, key).lamports == Get(l, key).lamports
  {
  }

  lemma StateUntouched(env: Env, auth: Auth, l: Accounts, op: Op, key: Address)
    requires Apply(env, auth, l, op).Success? && !Touches(auth, op, StateOf(key))
    ensures Read(Apply(env, auth, l, op).value, StateOf(key)) == Read(l, StateOf(key))
  {
  }

  lemma ApplyUntouched(env: Env, auth: Auth, l: Accounts, op: Op, g: Gauge)
    requires Apply(env, auth, l, op).Success? && !Touches(auth, op, g)
    ensures Read(Apply(env, auth, l, op).value, g) == Read(l, g)
  {
    match g
    case BalanceOf(key) => BalanceUntouched(env, auth, l, op, key);
    case SupplyOf(mint) => SupplyUntouched(env, auth, l, op, mint);
    case LamportsOf(key) => LamportsUntouched(env, auth, l, op, key);
    case StateOf(key) => StateUntouched(env, auth, l, op, key);
  }

  ghost predicate Untouched(auth: Auth, ops: seq<Op>, i: nat, g: Gauge) {
    forall j :: i <= j < |ops| ==> !Touches(auth, ops[j], g)
  }

  lemma {:induction false} PlayUntouched(env: Env, auth: Auth, l: Accounts, ops: seq<Op>, i: nat, g: Gauge)
    requires i <= |ops| && Play(env, auth, l, ops, i).Success? && Untouched(auth, ops, i, g)
    ensures Read(Play(env, auth, l, ops, i).value, g) == Read(l, g)
    decreases |ops| - i
  {
    if i < |ops| {
      ApplyUntouched(env, auth, l, ops[i], g);
      PlayUntouched(env, auth, Apply(env, auth, l, ops[i]).value, ops, i + 1, g);
    }
  }

  // A run that succeeds has passed all its checks.
  lemma {:induction false} PlayChecks(env: Env, auth: Auth, l: Accounts, ops: seq<Op>, i: nat)
    requires i <= |ops| && Play(env, auth, l, ops, i).Success?
    ensures forall j :: i <= j < |ops| && ops[j].Check? ==> ops[j].error == None
    decreases |ops| - i
  {
    if i < |ops| {
      PlayChecks(env, auth, Apply(env, auth, l, ops[i]).value, ops, i + 1);
    }
  }

  // One operation of a run that succeeds.
  lemma PlayOne(env: Env, auth: Auth, l: Accounts, ops: seq<Op>, i: nat) returns (l': Accounts)
    requires i < |ops| && Play(env, auth, l, ops, i).Success?
    ensures Apply(env, auth, l, ops[i]) == Success(l')
    ensures Play(env, auth, l', ops, i + 1) == Play(env, auth, l, ops, i)
  {
    l' := Apply(env, auth, l, ops[i]).value;
  }

  /** The ledger just before operation `p` of a script that succeeds. */
  function Reach(env: Env, auth: Auth, l: Accounts, ops: seq<Op>, i: nat, p: nat): Accounts
    requires i <= p <= |ops| && Play(env, auth, l, ops, i).Success?
    decreases p - i
  {
    if i == p then l else Reach(env, auth, Apply(env, auth, l, ops[i]).value, ops, i + 1, p)
  }

  lemma {:induction false} ReachPlays(env: Env, auth: Auth, l: Accounts, ops: seq<Op>, i: nat, p: nat)
    requires i <= p <= |ops| && Play(env, auth, l, ops, i).Success?
    ensures Play(env, auth, Reach(env, auth, l, ops, i, p), ops, p) == Play(env, auth, l, ops, i)
    ensures AllEvolve(l, Reach(env, auth, l, ops, i, p))
    ensures p < |ops| ==> Apply(env, auth, Reach(env, auth, l, ops, i, p), ops[p]).Success?
    decreases p - i
  {
    if i < p {
      var l' := Apply(env, auth, l, ops[i]).value;
      ReachPlays(env, auth, l', ops, i + 1, p);
      ApplyEvolves(env, auth, l, ops[i]);
      AllEvolveTransitive(l, l', Reach(env, auth, l', ops, i + 1, p));
    }
  }

  lemma {:induction false} ReachUntouched(env: Env, auth: Auth, l: Accounts, ops: seq<Op>, i: nat, p: nat, g: Gauge)
    requires i <= p <= |ops| && Play(env, auth, l, ops, i).Success?
    requires forall j :: i <= j < p ==> !Touches(auth, ops[j], g)
    ensures Read(Reach(env, auth, l, ops, i, p), g) == Read(l, g)
    decreases p - i
  {
    if i < p {
      ApplyUntouched(env, auth, l, ops[i], g);
      ReachUntouched(env, auth, Apply(env, auth, l, ops[i]).value, ops, i + 1, p, g);
    }
  }

  /** The ledgers around operation `p`, the only one that can touch `g`. */
  lemma Focus(env: Env, auth: Auth, l: Accounts, ops: seq<Op>, p: nat, g: Gauge)
    returns (before: Accounts, after: Accounts)
    requires p < |ops| && Play(env, auth, l, ops, 0).Success?
    requires forall j :: 0 <= j < |ops| && j != p ==> !Touches(auth, ops[j], g)
    ensures before == Reach(env, auth, l, ops, 0, p) && Apply(env, auth, before, ops[p]) == Success(after)
    ensures Read(before, g) == Read(l, g)
    ensures Read(after, g) == Read(Play(env, auth, l, ops, 0).value, g)
    ensures AllEvolve(l, before)
  {
    before := Reach(env, auth, l, ops, 0, p);
    ReachPlays(env, auth, l, ops, 0, p);
    ReachUntouched(env, auth, l, ops, 0, p, g);
    after := Apply(env, auth, before, ops[p]).value;
    PlayUntouched(env, auth, after, ops, p + 1, g);
  }

  // A token transfer between different accounts moves the amount; to itself it moves nothing.
  lemma MoveEffect(env: Env, auth: Auth, l: Accounts, op: Op, key: Address)
    requires op.Move? && Apply(env, auth, l, op).Success?
    ensures Balance(Apply(env, auth, l, op).value, key)
            == Balance(l, key) + (if key == op.to && op.from != op.to then op.amount else 0)
                               - (if key == op.from && op.from != op.to then op.amount else 0)
    ensures DataAt(l, op.from).TokenData? && DataAt(l, op.to).TokenData?
    ensures DataAt(l, op.from).mint == DataAt(l, op.to).mint && DataAt(l, op.from).holder == op.authority
  {
  }
}
