/** Which accounts can run out of lamports, and what becomes of an admin that does. */
module Solvency {
  import opened Wrappers
  import opened ByteStrings
  import opened Chain
  import opened Ledger
  import opened Gauges
  import opened Programs
  import opened Steps
  import opened Ownership
  import opened NativeFlow
  import opened Payability
  import Bridge
  import D = Driver
  import Keys

  // ---- Admins ----

  // A withdrawal of all that the admin holds.
  predicate Drains(s: Step, key: Address) {
    match s.item.ix
    case BridgeIx(WithdrawNative(admin, _, _, _, _, _, amount)) => admin == key && amount == Get(s.pre, key).lamports
    case CommissionIx(c) =>
      c.Withdraw? && c.entry.token.Native? && c.admin == key && c.receiver != key
      && c.withdrawAmount == Get(s.pre, key).lamports
    case _ => false
  }

  /** A bridge or fee admin that holds lamports is without any after a step if and only if the step is a native
      withdrawal of all it holds. */
  lemma EmptiedIff(env: Env, s: Step, key: Address)
    requires Valid(env, s) && Sum(s.pre, Lamports) < U64 && IsAdminKey(env, key) && Get(s.pre, key).lamports > 0
    ensures Get(s.post, key).lamports == 0 <==> Drains(s, key)
  {
    StepMovesLamports(env, s, key);
  }

  /** So an admin that holds lamports is kept over any run in which no withdrawal takes all it holds. */
  lemma {:induction false} KeptUnlessDrained(env: Env, l: Accounts, steps: seq<Step>, l': Accounts, key: Address)
    requires Run(env, l, steps, l') && Sum(l, Lamports) < U64 && IsAdminKey(env, key) && Get(l, key).lamports > 0
    requires forall s <- steps :: !Drains(s, key)
    ensures Kept(env, steps, key) && Get(l', key).lamports > 0
    decreases |steps|
  {
    if steps != [] {
      assert steps[0] in steps;
      EmptiedIff(env, steps[0], key);
      StepKeepsLamports(env, steps[0]);
      KeptUnlessDrained(env, steps[0].post, steps[1..], l', key);
      assert steps == [steps[0]] + steps[1..];
    }
  }

  lemma NativeTouches(env: Env, auth: Auth, l: Accounts, ix: Bridge.Instruction, early: Option<Error>, key: Address)
    requires ix.WithdrawNative? && Play(env, auth, l, Bridge.WithdrawNativeScript(env, ix, early), 0).Success?
    requires key !in {ix.admin, ix.owner, ix.record}
    ensures Get(Play(env, auth, l, Bridge.WithdrawNativeScript(env, ix, early), 0).value, key) == Get(l, key)
  {
    var ops := Bridge.WithdrawNativeScript(env, ix, early);
    var l0 := PlayOne(env, auth, l, ops, 0);
    var l1 := PlayOne(env, auth, l, ops, 1);
    var l2 := PlayOne(env, auth, l1, ops, 2);
    var l3 := PlayOne(env, auth, l2, ops, 3);
    assert Play(env, auth, l3, ops, 4) == Success(l3);
  }

  lemma InitialisationTakesEffect(env: Env, l: Accounts, ix: Bridge.Instruction, signers: set<Address>)
    requires ix.InitializeAdmin? && ix.admin == BridgeKey(env, ix.seeds) && !Occupied(l, ix.admin)
    requires Outsiders(env, signers) && ix.payer in signers && CanSpend(env, l, ix.payer, env.rent(BRIDGE_ADMIN_SIZE))
    ensures Exec(env, l, Item(signers, None, BridgeIx(ix))).Success?
    ensures DataAt(Exec(env, l, Item(signers, None, BridgeIx(ix))).value, ix.admin)
            == BridgeData(BridgeAdmin(ix.publicKey, ix.commissionProgram, true))
  {
    var auth, ops := Auth(env.bridge, signers), Bridge.InitializeAdminScript(env, ix);
    var l1 := Apply(env, auth, l, ops[1]).value;
    var l2 := Apply(env, auth, l1, ops[2]).value;
    assert Play(env, auth, l, ops, 0) == Play(env, auth, l, ops, 1) == Play(env, auth, l1, ops, 2);
    assert Play(env, auth, l1, ops, 2) == Play(env, auth, l2, ops, 3);
  }

  // The sweep after a withdrawal of everything frees the admin's address and spares whoever pays next.
  lemma DrainedIsDropped(env: Env, l: Accounts, l1: Accounts, ix: Bridge.Instruction, signers: set<Address>,
                         payer: Address)
    requires ix.WithdrawNative? && Exec(env, l, Item(signers, None, BridgeIx(ix))) == Success(l1)
    requires Sum(l, Lamports) < U64 && ix.amount == Get(l, ix.admin).lamports
    requires !Ours(env, payer) && payer != ix.owner && Get(l, payer).lamports > 0
    ensures !Occupied(Swept(env, l1), ix.admin) && Get(Swept(env, l1), payer) == Get(l, payer)
  {
    var s := D.Step(Item(signers, None, BridgeIx(ix)), l, l1);
    NativeWithdrawalPassed(env, s);
    NativeWithdrawal(env, s);
    NativeChecks(env, l, ix);
    StepEvolves(env, s, ix.admin);
    NativeTouches(env, AuthOf(env, s.item), l, ix, Bridge.WithdrawNativeError(env, l, ix), payer);
    SweptAt(env, l1, ix.admin);
    SweptAt(env, l1, payer);
  }

  /** Whoever pays its rent can initialise an admin with a key of their own once a signed withdrawal has taken all
      that it held and the transaction has ended: every such withdrawal gives a run of these three steps. */
  lemma DrainedAdminIsTakenOver(env: Env, l: Accounts, ix: Bridge.Instruction, signers: set<Address>,
                                again: Bridge.Instruction, payers: set<Address>)
    returns (steps: seq<Step>, l': Accounts)
    requires ix.WithdrawNative? && NativeReady(env, l, ix, signers) && !Occupied(l, ix.record)
    requires Sum(l, Lamports) < U64 && ix.amount == Get(l, ix.admin).lamports
    requires again.InitializeAdmin? && again.admin == ix.admin && again.seeds == ix.seeds
    requires Outsiders(env, payers) && again.payer in payers && again.payer != ix.owner
    requires CanSpend(env, l, again.payer, env.rent(BRIDGE_ADMIN_SIZE))
    ensures Run(env, l, steps, l') && |steps| == 3
    ensures steps[0].item == Item(signers, None, BridgeIx(ix)) && steps[1].item == SWEEP
    ensures steps[2].item == Item(payers, None, BridgeIx(again))
    ensures Keys.KeyIn(l, ix.admin).Some? && Keys.KeyIn(l', ix.admin) == Some(again.publicKey)
  {
    var withdraw, init := Item(signers, None, BridgeIx(ix)), Item(payers, None, BridgeIx(again));
    NativeChecks(env, l, ix);
    NativePayableIff(env, l, ix, signers, None);
    var l1 := Exec(env, l, withdraw).value;
    var l2 := Swept(env, l1);
    DrainedIsDropped(env, l, l1, ix, signers, again.payer);
    InitialisationTakesEffect(env, l2, again, payers);
    l' := Exec(env, l2, init).value;
    ThreeStepRun(env, l, withdraw, l1, SWEEP, l2, init, l');
    steps := [D.Step(withdraw, l, l1), D.Step(SWEEP, l1, l2), D.Step(init, l2, l')];
  }

  lemma InitialisedWithFunds(env: Env, s: Step)
    requires Valid(env, s) && Sum(s.pre, Lamports) < U64 && Keys.Initialises(s.item.ix).Some? && !s.item.ix.UpgradeIx?
    ensures IsAdminKey(env, Keys.Initialises(s.item.ix).value)
    ensures Get(s.post, Keys.Initialises(s.item.ix).value).lamports > 0
  {
    var ops := Ops(env, s.pre, s.item);
    PlayChecks(env, AuthOf(env, s.item), s.pre, ops, 0);
    assert ops[0].error == None;
    StepMovesLamports(env, s, Keys.Initialises(s.item.ix).value);
  }

  /** And only so: if an address is initialised twice, a withdrawal in between has taken all that its admin held. */
  lemma InitialisedAgainWasDrained(env: Env, l: Accounts, steps: seq<Step>, l': Accounts, i: nat, j: nat)
    requires Run(env, l, steps, l') && Sum(l, Lamports) < U64 && i < j < |steps|
    requires Keys.Initialises(steps[i].item.ix).Some?
             && Keys.Initialises(steps[i].item.ix) == Keys.Initialises(steps[j].item.ix)
    ensures exists k :: i < k < j && Drains(steps[k], Keys.Initialises(steps[i].item.ix).value)
  {
    var key := Keys.Initialises(steps[i].item.ix).value;
    Keys.InitialisedOnce(env, l, steps, l', i, j);
    D.RunSplits(Executor(env), l, steps, l', i);
    LamportsAreConserved(env, l, steps[..i], steps[i].pre);
    InitialisedWithFunds(env, steps[i]);
    StepKeepsLamports(env, steps[i]);
    D.RunBetween(Executor(env), l, steps, l', i, j);
    var between := steps[i + 1..j];
    if forall s <- between :: !Drains(s, key) {
      KeptUnlessDrained(env, steps[i].post, between, steps[j].pre, key);
    } else {
      var k :| 0 <= k < |between| && Drains(between[k], key);
      assert between[k] == steps[i + 1 + k];
    }
  }

  // ---- Everything else ----

  // The runtime's accounts, and ours that are no admin's to pay from, hold lamports as long as they hold data.
  predicate Backed(env: Env, l: Accounts, key: Address) {
    var a := Get(l, key);
    (Lasting(env, key, a.data) ==> MayOwn(env, a.owner))
    && (!NoData(l, key) && MayOwn(env, a.owner) && !a.data.BridgeData? && !a.data.CommissionData? ==> a.lamports > 0)
  }

  // Payouts that neither wrap nor take from such an account.
  predicate FairPayout(env: Env, l: Accounts, op: Op) {
    op.Payout? ==>
      op.admin != op.to && op.lamports <= Get(l, op.admin).lamports && Get(l, op.to).lamports + op.lamports < U64
      && (DataAt(l, op.admin).BridgeData? || !MayOwn(env, Get(l, op.admin).owner))
  }

  lemma PayoutKeepsBacked(env: Env, auth: Auth, l: Accounts, op: Op, key: Address)
    requires op.Payout? && FairPayout(env, l, op) && Apply(env, auth, l, op).Success? && Backed(env, l, key)
    ensures Backed(env, Apply(env, auth, l, op).value, key)
  {
    InRangeDoesNotWrap(Get(l, op.to).lamports + op.lamports);
  }

  lemma FundingKeepsBacked(env: Env, auth: Auth, l: Accounts, op: Op, key: Address)
    requires Funds(op) && !op.Payout? && Apply(env, auth, l, op).Success? && Backed(env, l, key)
    ensures Backed(env, Apply(env, auth, l, op).value, key)
  {
  }

  // Program state is written by the owner; what becomes lasting belongs to one of the three programs.
  predicate FairStore(env: Env, auth: Auth, op: Op) {
    op.Store? ==> IsOurProgram(env, auth.program) || !Ours(env, op.key)
  }

  lemma RewritingKeepsBacked(env: Env, auth: Auth, l: Accounts, op: Op, key: Address)
    requires !Funds(op) && FairStore(env, auth, op) && Apply(env, auth, l, op).Success? && Backed(env, l, key)
    ensures Backed(env, Apply(env, auth, l, op).value, key)
  {
  }

  lemma {:induction false} PlayKeepsBacked(env: Env, auth: Auth, l: Accounts, ops: seq<Op>, i: nat, key: Address)
    requires i <= |ops| && Play(env, auth, l, ops, i).Success? && Backed(env, l, key) && IsOurProgram(env, auth.program)
    requires forall op <- ops :: !op.Payout?
    ensures Backed(env, Play(env, auth, l, ops, i).value, key)
    decreases |ops| - i
  {
    if i < |ops| {
      if Funds(ops[i]) {
        FundingKeepsBacked(env, auth, l, ops[i], key);
      } else {
        RewritingKeepsBacked(env, auth, l, ops[i], key);
      }
      PlayKeepsBacked(env, auth, Apply(env, auth, l, ops[i]).value, ops, i + 1, key);
    }
  }

  lemma NativePayoutIsFair(env: Env, auth: Auth, l: Accounts, ix: Bridge.Instruction, early: Option<Error>)
    returns (l1: Accounts)
    requires ix.WithdrawNative? && auth.program == env.bridge && Outsiders(env, auth.signers)
    requires Play(env, auth, l, Bridge.WithdrawNativeScript(env, ix, early), 0).Success?
    requires ix.admin == BridgeKey(env, ix.seeds) && ix.record == OneSeedKey(env, ix.origin)
    requires DataAt(l, ix.admin).BridgeData? && ix.amount <= Get(l, ix.admin).lamports && Sum(l, Lamports) < U64
    ensures var ops := Bridge.WithdrawNativeScript(env, ix, early);
            Apply(env, auth, l, ops[1]) == Success(l1) && FairPayout(env, l1, ops[2])
            && Play(env, auth, l1, ops, 2) == Play(env, auth, l, ops, 0)
  {
    var ops := Bridge.WithdrawNativeScript(env, ix, early);
    var l0 := PlayOne(env, auth, l, ops, 0);
    l1 := PlayOne(env, auth, l, ops, 1);
    RentSparesAdmin(env, auth, l, ops[1], ix.admin);
    ApplyKeepsLamports(env, auth, l, ops[1]);
    SumCovers(l1, ix.admin, ix.owner);
  }

  lemma NativeKeepsBacked(env: Env, s: Step, key: Address)
    requires Valid(env, s) && s.item.ix.BridgeIx? && s.item.ix.bridge.WithdrawNative? && Sum(s.pre, Lamports) < U64
    requires Backed(env, s.pre, key)
    ensures Backed(env, s.post, key)
  {
    var ix, auth := s.item.ix.bridge, AuthOf(env, s.item);
    var early := Bridge.WithdrawNativeError(env, s.pre, ix);
    NativeWithdrawalPassed(env, s);
    NativeChecks(env, s.pre, ix);
    var ops := Bridge.WithdrawNativeScript(env, ix, early);
    var l1 := NativePayoutIsFair(env, auth, s.pre, ix, early);
    FundingKeepsBacked(env, auth, s.pre, ops[1], key);
    var l2 := PlayOne(env, auth, l1, ops, 2);
    PayoutKeepsBacked(env, auth, l1, ops[2], key);
    var l3 := PlayOne(env, auth, l2, ops, 3);
    RewritingKeepsBacked(env, auth, l2, ops[3], key);
  }

  lemma OutsideKeepsBacked(env: Env, s: Step, key: Address)
    requires Valid(env, s) && s.item.ix.OutsideIx? && Backed(env, s.pre, key)
    ensures Backed(env, s.post, key)
  {
    OutsideIsPermitted(env, s);
    var op, auth := s.item.ix.outside.op, AuthOf(env, s.item);
    if op.Payout? {
      PayoutKeepsBacked(env, auth, s.pre, op, key);
    } else if Funds(op) {
      FundingKeepsBacked(env, auth, s.pre, op, key);
    } else {
      RewritingKeepsBacked(env, auth, s.pre, op, key);
    }
  }

  lemma StepKeepsBacked(env: Env, s: Step, key: Address)
    requires Valid(env, s) && Sum(s.pre, Lamports) < U64 && Backed(env, s.pre, key)
    ensures Backed(env, s.post, key)
  {
    var ops, auth := Ops(env, s.pre, s.item), AuthOf(env, s.item);
    match s.item.ix
    case BridgeIx(ix) =>
      if ix.WithdrawNative? {
        NativeKeepsBacked(env, s, key);
      } else {
        BridgeDoesNotPayOut(env, s.pre, s.item.prior, ix);
        PlayKeepsBacked(env, auth, s.pre, ops, 0, key);
      }
    case CommissionIx(ix) =>
      CommissionDoesNotPayOut(env, s.pre, ix);
      PlayKeepsBacked(env, auth, s.pre, ops, 0, key);
    case UpgradeIx(_) => PlayKeepsBacked(env, auth, s.pre, ops, 0, key);
    case OutsideIx(_) => OutsideKeepsBacked(env, s, key);
    case SweepIx =>
      SweptAt(env, s.pre, key);
  }

  /** In every reachable state the accounts a sweep drops are exactly those without lamports: sparing mints, token
      accounts, records, programs and upgrade admins takes nothing away from it, since none of them runs out. */
  lemma {:induction false} SweepDropsTheEmpty(env: Env, l: Accounts, steps: seq<Step>, l': Accounts, key: Address)
    requires Run(env, l, steps, l') && Sum(l, Lamports) < U64 && Backed(env, l, key)
    ensures Backed(env, l', key)
    ensures Dropped(env, l', key) <==> Get(l', key).lamports == 0
    decreases |steps|
  {
    if steps != [] {
      StepKeepsBacked(env, steps[0], key);
      StepKeepsLamports(env, steps[0]);
      SweepDropsTheEmpty(env, steps[0].post, steps[1..], l', key);
    }
  }
}
