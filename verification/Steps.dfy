/** Runs of the three programs, and how each step may change program state. */
module Steps {
  import opened Wrappers
  import opened ByteStrings
  import opened Chain
  import opened Ledger
  import opened Gauges
  import opened Programs
  import D = Driver
  import Bridge
  import Commission
  import Upgrade

  type Step = D.Step<Accounts, Item>

  predicate Valid(env: Env, s: Step) {
    Exec(env, s.pre, s.item) == Success(s.post)
  }

  ghost predicate Run(env: Env, l: Accounts, steps: seq<Step>, l': Accounts) {
    D.Run(Executor(env), l, steps, l')
  }

  /** Every theorem about runs is one about all histories of submitted transactions. */
  lemma TransactionsAreRuns(env: Env, l: Accounts, txs: seq<seq<Item>>)
    ensures Run(env, l, D.AllSteps(Executor(env), l, txs), D.CommitAll(Executor(env), l, txs))
  {
    D.BatchesAreRuns(Executor(env), l, txs);
  }

  lemma TwoStepRun(env: Env, l: Accounts, i1: Item, l1: Accounts, i2: Item, l2: Accounts)
    requires Exec(env, l, i1) == Success(l1) && Exec(env, l1, i2) == Success(l2)
    ensures Run(env, l, [D.Step(i1, l, l1), D.Step(i2, l1, l2)], l2)
  {
    D.TwoSteps(Executor(env), l, i1, l1, i2, l2);
  }

  lemma ThreeStepRun(env: Env, l: Accounts, i1: Item, l1: Accounts, i2: Item, l2: Accounts, i3: Item, l3: Accounts)
    requires Exec(env, l, i1) == Success(l1) && Exec(env, l1, i2) == Success(l2) && Exec(env, l2, i3) == Success(l3)
    ensures Run(env, l, [D.Step(i1, l, l1), D.Step(i2, l1, l2), D.Step(i3, l2, l3)], l3)
  {
    D.ThreeSteps(Executor(env), l, i1, l1, i2, l2, i3, l3);
  }

  // The sweep takes away the data of an account that has no lamports.
  predicate Drops(env: Env, s: Step, key: Address) {
    s.item.ix.SweepIx? && Dropped(env, s.pre, key) && !NoData(s.pre, key)
  }

  // No step of the run drops the account.
  predicate Kept(env: Env, steps: seq<Step>, key: Address) {
    forall s <- steps :: !Drops(env, s, key)
  }

  // A sweep changes nothing but what it drops, and no balance at all.
  lemma SweepKeeps(env: Env, s: Step, key: Address)
    requires Valid(env, s) && s.item.ix.SweepIx?
    ensures Get(s.post, key).lamports == Get(s.pre, key).lamports
    ensures Balance(s.post, key) == Balance(s.pre, key) && Supply(s.post, key) == Supply(s.pre, key)
    ensures if Drops(env, s, key) then NoData(s.post, key) else DataAt(s.post, key) == DataAt(s.pre, key)
    ensures !Dropped(env, s.pre, key) ==> Get(s.post, key) == Get(s.pre, key)
  {
    SweptAt(env, s.pre, key);
  }

  lemma StepEvolves(env: Env, s: Step, key: Address)
    requires Valid(env, s) && !Drops(env, s, key)
    ensures Evolves(DataAt(s.pre, key), DataAt(s.post, key))
  {
    if s.item.ix.SweepIx? {
      SweepKeeps(env, s, key);
    } else {
      PlayEvolves(env, AuthOf(env, s.item), s.pre, Ops(env, s.pre, s.item), 0);
    }
  }

  // What is kept, or lasts, evolves over the whole run.
  lemma {:induction false} RunEvolves(env: Env, l: Accounts, steps: seq<Step>, l': Accounts, key: Address)
    requires Run(env, l, steps, l') && (Kept(env, steps, key) || Lasting(env, key, DataAt(l, key)))
    ensures Evolves(DataAt(l, key), DataAt(l', key))
    decreases |steps|
  {
    if steps != [] {
      assert steps[0] in steps;
      StepEvolves(env, steps[0], key);
      RunEvolves(env, steps[0].post, steps[1..], l', key);
    }
  }

  // What happens outside has been permitted.
  lemma OutsideIsPermitted(env: Env, s: Step)
    requires Valid(env, s) && s.item.ix.OutsideIx?
    ensures Permitted(env, s.pre, s.item.ix.outside)
    ensures Apply(env, AuthOf(env, s.item), s.pre, s.item.ix.outside.op) == Success(s.post)
    ensures Outsiders(env, s.item.signers)
  {
    var ops := OutsideOps(env, s.pre, s.item.ix.outside);
    var l := PlayOne(env, AuthOf(env, s.item), s.pre, ops, 0);
    l := PlayOne(env, AuthOf(env, s.item), l, ops, 1);
  }

  /** And nothing else is refused: any other program does what the runtime lets it do, with any signers from outside;
      it writes and debits accounts that are its own. */
  lemma OutsideMay(env: Env, l: Accounts, signers: set<Address>, prior: Option<Bridge.Prior>, c: OutsideCall)
    requires Outsiders(env, signers) && !IsOurProgram(env, c.program) && !c.op.TopUp? && !c.op.NeedToken?
    requires c.op.Store? ==> !IsRuntimeProgram(env, c.program) && !Ours(env, c.op.key) && !NoData(l, c.op.key)
    requires c.op.Payout? ==>
               !IsRuntimeProgram(env, c.program) && !Ours(env, c.op.admin) && !NoData(l, c.op.admin)
               && c.op.admin != c.op.to && c.op.lamports <= Get(l, c.op.admin).lamports
               && Get(l, c.op.to).lamports + c.op.lamports < U64
    ensures Exec(env, l, Item(signers, prior, OutsideIx(c))) == Apply(env, Auth(c.program, signers), l, c.op)
  {
    PlayCheck(env, Auth(c.program, signers), l, OutsideOps(env, l, c), 0);
    PlayLast(env, Auth(c.program, signers), l, OutsideOps(env, l, c));
  }

  // ---- Program state is written by the last operation of an instruction ----

  predicate StoresOnlyLast(ops: seq<Op>) {
    |ops| > 0 && forall j :: 0 <= j < |ops| - 1 ==> !ops[j].Store?
  }

  lemma BridgeStoresLast(env: Env, l: Accounts, prior: Option<Bridge.Prior>, ix: Bridge.Instruction)
    ensures StoresOnlyLast(Bridge.Ops(env, l, prior, ix))
  {
  }

  lemma CommissionStoresLast(env: Env, l: Accounts, ix: Commission.Instruction)
    ensures StoresOnlyLast(Commission.Ops(env, l, ix))
  {
  }

  lemma UpgradeStoresLast(env: Env, l: Accounts, ix: Upgrade.Instruction)
    ensures StoresOnlyLast(Upgrade.Ops(env, l, ix))
  {
  }

  lemma StoresLast(env: Env, l: Accounts, item: Item)
    requires !item.ix.SweepIx?
    ensures StoresOnlyLast(Ops(env, l, item))
  {
    match item.ix
    case BridgeIx(b) => BridgeStoresLast(env, l, item.prior, b);
    case CommissionIx(c) => CommissionStoresLast(env, l, c);
    case UpgradeIx(u) => UpgradeStoresLast(env, l, u);
    case OutsideIx(_) =>
  }

  function Last(ops: seq<Op>): Op
    requires |ops| > 0
  {
    ops[|ops| - 1]
  }

  // An account's program state changes only if the script ends by storing it.
  lemma LastStoreWins(env: Env, auth: Auth, l: Accounts, ops: seq<Op>, key: Address)
    requires StoresOnlyLast(ops) && Play(env, auth, l, ops, 0).Success?
    ensures var l', last := Play(env, auth, l, ops, 0).value, Last(ops);
            if last.Store? && last.key == key
            then DataAt(l', key) == last.data
                 && Owned(last.data)
                 && (Owned(DataAt(l, key)) ==> Writable(DataAt(l, key), last.data))
            else Read(l', StateOf(key)) == Read(l, StateOf(key))
  {
    var before, after := Focus(env, auth, l, ops, |ops| - 1, StateOf(key));
    if !Touches(auth, Last(ops), StateOf(key)) {
      ApplyUntouched(env, auth, before, Last(ops), StateOf(key));
    } else {
      assert Evolves(DataAt(l, key), DataAt(before, key));
      assert DataAt(after, key) == Last(ops).data;
    }
  }
}
