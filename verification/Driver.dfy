/** Atomic batches and runs, for any ledger type and any instruction semantics. */
module Driver {
  import opened Wrappers
  import opened ByteStrings
  import opened Chain

  type Executor<!L, !I> = (L, I) -> Outcome<L>

  /** The instructions in order, up to the first failure. */
  function RunBatch<L, I>(exec: Executor<L, I>, l: L, batch: seq<I>): Outcome<L> {
    if batch == [] then Success(l)
    else
      match exec(l, batch[0])
      case Failure(e) => Failure(e)
      case Success(l') => RunBatch(exec, l', batch[1..])
  }

  lemma BatchOfThree<L, I>(exec: Executor<L, I>, l: L, i1: I, l1: L, i2: I, l2: L, i3: I, l3: L)
    requires exec(l, i1) == Success(l1) && exec(l1, i2) == Success(l2) && exec(l2, i3) == Success(l3)
    ensures RunBatch(exec, l, [i1, i2, i3]) == Success(l3)
  {
    assert [i1, i2, i3][1..] == [i2, i3] && [i2, i3][1..] == [i3] && [i3][1..] == [];
    assert RunBatch(exec, l2, [i3]) == RunBatch(exec, l3, []);
    assert RunBatch(exec, l1, [i2, i3]) == RunBatch(exec, l2, [i3]);
  }

  /** A batch takes effect as a whole or not at all. */
  function Commit<L, I>(exec: Executor<L, I>, l: L, batch: seq<I>): L {
    match RunBatch(exec, l, batch)
    case Success(l') => l'
    case Failure(_) => l
  }

  function CommitAll<L, I>(exec: Executor<L, I>, l: L, batches: seq<seq<I>>): L
    decreases |batches|
  {
    if batches == [] then l else CommitAll(exec, Commit(exec, l, batches[0]), batches[1..])
  }

  datatype Step<+L, +I> = Step(item: I, pre: L, post: L)

  predicate Valid<L(==), I>(exec: Executor<L, I>, s: Step<L, I>) {
    exec(s.pre, s.item) == Success(s.post)
  }

  /** A run: successful steps, each starting where the one before it ended. */
  ghost predicate Run<L, I>(exec: Executor<L, I>, l: L, steps: seq<Step<L, I>>, l': L)
    decreases |steps|
  {
    if steps == [] then l == l'
    else steps[0].pre == l && Valid(exec, steps[0]) && Run(exec, steps[0].post, steps[1..], l')
  }

  lemma TwoSteps<L, I>(exec: Executor<L, I>, l: L, i1: I, l1: L, i2: I, l2: L)
    requires exec(l, i1) == Success(l1) && exec(l1, i2) == Success(l2)
    ensures Run(exec, l, [Step(i1, l, l1), Step(i2, l1, l2)], l2)
  {
    var steps := [Step(i1, l, l1), Step(i2, l1, l2)];
    assert steps[1..] == [Step(i2, l1, l2)];
    assert Run(exec, l2, steps[1..][1..], l2);
    assert Run(exec, l1, steps[1..], l2);
  }

  lemma ThreeSteps<L, I>(exec: Executor<L, I>, l: L, i1: I, l1: L, i2: I, l2: L, i3: I, l3: L)
    requires exec(l, i1) == Success(l1) && exec(l1, i2) == Success(l2) && exec(l2, i3) == Success(l3)
    ensures Run(exec, l, [Step(i1, l, l1), Step(i2, l1, l2), Step(i3, l2, l3)], l3)
  {
    TwoSteps(exec, l1, i2, l2, i3, l3);
    assert [Step(i1, l, l1), Step(i2, l1, l2), Step(i3, l2, l3)][1..] == [Step(i2, l1, l2), Step(i3, l2, l3)];
  }

  // The steps of a batch that succeeds.
  function BatchSteps<L, I>(exec: Executor<L, I>, l: L, batch: seq<I>): seq<Step<L, I>> {
    if batch == [] then []
    else
      match exec(l, batch[0])
      case Failure(_) => []
      case Success(l') => [Step(batch[0], l, l')] + BatchSteps(exec, l', batch[1..])
  }

  // The steps of a batch that takes effect.
  function CommittedSteps<L, I>(exec: Executor<L, I>, l: L, batch: seq<I>): seq<Step<L, I>> {
    if RunBatch(exec, l, batch).Success? then BatchSteps(exec, l, batch) else []
  }

  function AllSteps<L, I>(exec: Executor<L, I>, l: L, batches: seq<seq<I>>): seq<Step<L, I>>
    decreases |batches|
  {
    if batches == [] then []
    else CommittedSteps(exec, l, batches[0]) + AllSteps(exec, Commit(exec, l, batches[0]), batches[1..])
  }

  lemma {:induction false} BatchIsRun<L, I>(exec: Executor<L, I>, l: L, batch: seq<I>)
    requires RunBatch(exec, l, batch).Success?
    ensures Run(exec, l, BatchSteps(exec, l, batch), RunBatch(exec, l, batch).value)
    ensures |BatchSteps(exec, l, batch)| == |batch|
    ensures forall j :: 0 <= j < |batch| ==> BatchSteps(exec, l, batch)[j].item == batch[j]
    decreases |batch|
  {
    if batch != [] {
      var l' := exec(l, batch[0]).value;
      BatchIsRun(exec, l', batch[1..]);
      var rest := BatchSteps(exec, l', batch[1..]);
      assert BatchSteps(exec, l, batch) == [Step(batch[0], l, l')] + rest;
      assert ([Step(batch[0], l, l')] + rest)[1..] == rest;
      assert forall j :: 1 <= j < |batch| ==> batch[j] == batch[1..][j - 1];
    }
  }

  // The batch that a run executes.
  function ItemsOf<L, I>(steps: seq<Step<L, I>>): seq<I> {
    if steps == [] then [] else [steps[0].item] + ItemsOf(steps[1..])
  }

  lemma {:induction false} RunIsBatch<L, I>(exec: Executor<L, I>, l: L, steps: seq<Step<L, I>>, l': L)
    requires Run(exec, l, steps, l')
    ensures RunBatch(exec, l, ItemsOf(steps)) == Success(l')
    decreases |steps|
  {
    if steps != [] {
      RunIsBatch(exec, steps[0].post, steps[1..], l');
      assert ItemsOf(steps)[1..] == ItemsOf(steps[1..]);
    }
  }

  lemma {:induction false} ItemsOfBatch<L, I>(exec: Executor<L, I>, l: L, batch: seq<I>)
    requires RunBatch(exec, l, batch).Success?
    ensures ItemsOf(BatchSteps(exec, l, batch)) == batch
    decreases |batch|
  {
    if batch != [] {
      ItemsOfBatch(exec, exec(l, batch[0]).value, batch[1..]);
    }
  }

  /** All or nothing: a batch takes the ledger where a run of all its items ends, and nowhere if there is none. */
  lemma CommitIsAtomic<L(!new), I(!new)>(exec: Executor<L, I>, l: L, batch: seq<I>, l': L)
    ensures (exists steps :: Run(exec, l, steps, l') && ItemsOf(steps) == batch)
            <==> RunBatch(exec, l, batch) == Success(l')
    ensures RunBatch(exec, l, batch) == Success(l') ==> Commit(exec, l, batch) == l'
    ensures (forall m: L, steps :: Run(exec, l, steps, m) ==> ItemsOf(steps) != batch) ==> Commit(exec, l, batch) == l
  {
    forall steps: seq<Step<L, I>>, m: L | Run(exec, l, steps, m) && ItemsOf(steps) == batch
      ensures RunBatch(exec, l, batch) == Success(m)
    {
      RunIsBatch(exec, l, steps, m);
    }
    if RunBatch(exec, l, batch).Success? {
      BatchIsRun(exec, l, batch);
      ItemsOfBatch(exec, l, batch);
    }
  }

  lemma {:induction false} RunsConcatenate<L, I>(exec: Executor<L, I>, l1: L, s1: seq<Step<L, I>>, l2: L,
      s2: seq<Step<L, I>>, l3: L)
    requires Run(exec, l1, s1, l2) && Run(exec, l2, s2, l3)
    ensures Run(exec, l1, s1 + s2, l3)
    decreases |s1|
  {
    if s1 == [] {
      assert s1 + s2 == s2;
    } else {
      RunsConcatenate(exec, s1[0].post, s1[1..], l2, s2, l3);
      assert (s1 + s2)[1..] == s1[1..] + s2;
    }
  }

  /** Whatever batches are submitted, what happens to the ledger is a run of successful steps. */
  lemma {:induction false} BatchesAreRuns<L, I>(exec: Executor<L, I>, l: L, batches: seq<seq<I>>)
    ensures Run(exec, l, AllSteps(exec, l, batches), CommitAll(exec, l, batches))
    decreases |batches|
  {
    if batches != [] {
      var l' := Commit(exec, l, batches[0]);
      if RunBatch(exec, l, batches[0]).Success? {
        BatchIsRun(exec, l, batches[0]);
      }
      BatchesAreRuns(exec, l', batches[1..]);
      RunsConcatenate(exec, l, CommittedSteps(exec, l, batches[0]), l',
                      AllSteps(exec, l', batches[1..]), CommitAll(exec, l', batches[1..]));
    }
  }

  lemma {:induction false} RunSplits<L, I>(exec: Executor<L, I>, l: L, steps: seq<Step<L, I>>, l': L, i: nat)
    requires Run(exec, l, steps, l') && i < |steps|
    ensures Run(exec, l, steps[..i], steps[i].pre) && Valid(exec, steps[i])
            && Run(exec, steps[i].post, steps[i + 1..], l')
    decreases |steps|
  {
    if i > 0 {
      RunSplits(exec, steps[0].post, steps[1..], l', i - 1);
      assert steps[..i][1..] == steps[1..][..i - 1];
      assert steps[i + 1..] == steps[1..][i..];
    }
  }

  lemma RunBetween<L, I>(exec: Executor<L, I>, l: L, steps: seq<Step<L, I>>, l': L, i: nat, j: nat)
    requires Run(exec, l, steps, l') && i < j < |steps|
    ensures Valid(exec, steps[i]) && Valid(exec, steps[j])
    ensures Run(exec, steps[i].post, steps[i + 1..j], steps[j].pre)
  {
    RunSplits(exec, l, steps, l', j);
    RunSplits(exec, l, steps[..j], steps[j].pre, i);
    assert steps[..j][i + 1..] == steps[i + 1..j];
  }

  lemma RunPrefix<L, I>(exec: Executor<L, I>, l: L, steps: seq<Step<L, I>>, l': L, i: nat)
    requires Run(exec, l, steps, l') && i < |steps|
    ensures Run(exec, l, steps[..i + 1], steps[i].post) && Run(exec, steps[i].post, steps[i + 1..], l')
  {
    RunSplits(exec, l, steps, l', i);
    var one := [steps[i]];
    assert Run(exec, one[0].post, one[1..], steps[i].post);
    RunsConcatenate(exec, l, steps[..i], steps[i].pre, one, steps[i].post);
    assert steps[..i] + one == steps[..i + 1];
  }

  lemma RunFrom<L, I>(exec: Executor<L, I>, l: L, steps: seq<Step<L, I>>, l': L, i: nat, j: nat)
    requires Run(exec, l, steps, l') && i < j < |steps|
    ensures Run(exec, steps[i].pre, steps[i..j], steps[j].pre)
  {
    RunBetween(exec, l, steps, l', i, j);
    assert steps[i..j][1..] == steps[i + 1..j];
  }

  // ---- A machine-word counter that some steps advance ----

  function Successor(n: u64): u64 {
    if n == U64 - 1 then 0 else n + 1
  }

  predicate Counts<L, I>(s: Step<L, I>, counter: L -> u64, ticks: I -> bool) {
    counter(s.post) == if ticks(s.item) then Successor(counter(s.pre)) else counter(s.pre)
  }

  function Total<L, I>(steps: seq<Step<L, I>>, ticks: I -> bool): nat {
    if steps == [] then 0 else (if ticks(steps[0].item) then 1 else 0) + Total(steps[1..], ticks)
  }

  function After(n: u64, count: nat): u64
    decreases count
  {
    if count == 0 then n else After(Successor(n), count - 1)
  }

  lemma {:induction false} RunCounts<L, I>(exec: Executor<L, I>, l: L, steps: seq<Step<L, I>>, l': L, counter: L -> u64,
                                           ticks: I -> bool)
    requires Run(exec, l, steps, l') && forall s <- steps :: Counts(s, counter, ticks)
    ensures counter(l') == After(counter(l), Total(steps, ticks))
    decreases |steps|
  {
    if steps != [] {
      assert Counts(steps[0], counter, ticks);
      RunCounts(exec, steps[0].post, steps[1..], l', counter, ticks);
    }
  }

  // Counting is adding in machine words.
  lemma {:induction false} AfterIsModular(n: u64, count: nat)
    ensures After(n, count) == (n + count) % U64
    decreases count
  {
    if count > 0 {
      AfterIsModular(Successor(n), count - 1);
    }
  }

  lemma MovesOn(n: u64, count: nat)
    requires 0 < count < U64
    ensures After(n, count) != n
  {
    AfterIsModular(n, count);
  }

  lemma RemainderIs(total: nat, q: nat, r: nat)
    requires total == q * U64 + r && r < U64
    ensures total % U64 == r
  {
  }

  // A word comes back exactly after multiples of 2^64.
  lemma ReturnsIff(n: u64, count: nat)
    ensures After(n, count) == n <==> count % U64 == 0
  {
    var q, r := count / U64, count % U64;
    AfterIsModular(n, count);
    if n + r < U64 {
      RemainderIs(n + count, q, n + r);
    } else {
      RemainderIs(n + count, q + 1, n + r - U64);
    }
  }

  lemma {:induction false} TotalIsBounded<L, I>(steps: seq<Step<L, I>>, ticks: I -> bool)
    ensures Total(steps, ticks) <= |steps|
  {
    if steps != [] {
      TotalIsBounded(steps[1..], ticks);
    }
  }
}
