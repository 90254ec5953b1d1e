/** Which program owns an account: fixed once it holds data, and at the three programs' addresses never an outsider. */
module Ownership {
  import opened Wrappers
  import opened Chain
  import opened Ledger
  import opened Gauges
  import opened Programs
  import opened Steps
  import Bridge
  import Commission
  import Upgrade

  lemma ApplyKeepsOwner(env: Env, auth: Auth, l: Accounts, op: Op, key: Address)
    requires Apply(env, auth, l, op).Success? && !NoData(l, key)
    ensures var l' := Apply(env, auth, l, op).value; !NoData(l', key) && Get(l', key).owner == Get(l, key).owner
  {
  }

  lemma {:induction false} PlayKeepsOwner(env: Env, auth: Auth, l: Accounts, ops: seq<Op>, i: nat, key: Address)
    requires i <= |ops| && Play(env, auth, l, ops, i).Success? && !NoData(l, key)
    ensures var l' := Play(env, auth, l, ops, i).value; !NoData(l', key) && Get(l', key).owner == Get(l, key).owner
    decreases |ops| - i
  {
    if i < |ops| {
      ApplyKeepsOwner(env, auth, l, ops[i], key);
      PlayKeepsOwner(env, auth, Apply(env, auth, l, ops[i]).value, ops, i + 1, key);
    }
  }

  // An account that holds data keeps its owner, unless it is dropped.
  lemma StepKeepsOwner(env: Env, s: Step, key: Address)
    requires Valid(env, s) && !NoData(s.pre, key) && !Drops(env, s, key)
    ensures !NoData(s.post, key) && Get(s.post, key).owner == Get(s.pre, key).owner
  {
    if s.item.ix.SweepIx? {
      SweepKeeps(env, s, key);
    } else {
      PlayKeepsOwner(env, AuthOf(env, s.item), s.pre, Ops(env, s.pre, s.item), 0, key);
    }
  }

  // What a script's last operation stores belongs to the program that runs it.
  lemma LastStoreBelongs(env: Env, auth: Auth, l: Accounts, ops: seq<Op>, key: Address)
    requires ops != [] && Play(env, auth, l, ops, 0).Success? && Last(ops).Store? && Last(ops).key == key
    ensures Get(Play(env, auth, l, ops, 0).value, key).owner == auth.program
  {
    var before := Reach(env, auth, l, ops, 0, |ops| - 1);
    ReachPlays(env, auth, l, ops, 0, |ops| - 1);
    var after := PlayOne(env, auth, before, ops, |ops| - 1);
  }

  lemma StoredBelongsToWriter(env: Env, s: Step, key: Address)
    requires Valid(env, s) && !s.item.ix.SweepIx? && Owned(DataAt(s.post, key)) && !Owned(DataAt(s.pre, key))
    ensures StoresOnlyLast(Ops(env, s.pre, s.item))
    ensures var last := Last(Ops(env, s.pre, s.item));
            last == Store(key, DataAt(s.post, key)) && Get(s.post, key).owner == ProgramOf(env, s.item.ix)
  {
    var ops, auth := Ops(env, s.pre, s.item), AuthOf(env, s.item);
    StoresLast(env, s.pre, s.item);
    LastStoreWins(env, auth, s.pre, ops, key);
    LastStoreBelongs(env, auth, s.pre, ops, key);
  }

  // ---- Nobody outside owns an account at an address of ours ----

  predicate MayOwn(env: Env, program: Address) {
    IsOurProgram(env, program) || IsRuntimeProgram(env, program)
  }

  predicate OwnedInside(env: Env, l: Accounts, key: Address) {
    Ours(env, key) && !NoData(l, key) ==> MayOwn(env, Get(l, key).owner)
  }

  lemma ApplyKeepsInside(env: Env, auth: Auth, l: Accounts, op: Op, key: Address)
    requires Apply(env, auth, l, op).Success? && OwnedInside(env, l, key)
    requires op.Create? && op.key == key && Ours(env, key) ==> MayOwn(env, op.owner)
    ensures OwnedInside(env, Apply(env, auth, l, op).value, key)
  {
    if !NoData(l, key) {
      ApplyKeepsOwner(env, auth, l, op, key);
    }
  }

  predicate CreatesInside(env: Env, ops: seq<Op>) {
    forall op <- ops :: op.Create? ==> MayOwn(env, op.owner)
  }

  lemma {:induction false} PlayKeepsInside(env: Env, auth: Auth, l: Accounts, ops: seq<Op>, i: nat, key: Address)
    requires i <= |ops| && Play(env, auth, l, ops, i).Success? && OwnedInside(env, l, key) && CreatesInside(env, ops)
    ensures OwnedInside(env, Play(env, auth, l, ops, i).value, key)
    decreases |ops| - i
  {
    if i < |ops| {
      ApplyKeepsInside(env, auth, l, ops[i], key);
      PlayKeepsInside(env, auth, Apply(env, auth, l, ops[i]).value, ops, i + 1, key);
    }
  }

  lemma TokenWithdrawalCreatesInside(env: Env, ix: Bridge.Instruction, p: Bridge.Parts)
    requires ix.WithdrawToken?
    ensures CreatesInside(env, Bridge.WithdrawTokenScript(env, ix, p))
  {
  }

  lemma BridgeCreatesInside(env: Env, l: Accounts, prior: Option<Bridge.Prior>, ix: Bridge.Instruction)
    ensures CreatesInside(env, Bridge.Ops(env, l, prior, ix))
  {
    if ix.WithdrawToken? {
      TokenWithdrawalCreatesInside(env, ix, Bridge.PartsOf(env, l, ix));
    }
  }

  lemma CommissionCreatesInside(env: Env, l: Accounts, ix: Commission.Instruction)
    ensures CreatesInside(env, Commission.Ops(env, l, ix))
  {
  }

  lemma UpgradeCreatesInside(env: Env, l: Accounts, ix: Upgrade.Instruction)
    ensures CreatesInside(env, Upgrade.Ops(env, l, ix))
  {
  }

  lemma StepKeepsInside(env: Env, s: Step, key: Address)
    requires Valid(env, s) && OwnedInside(env, s.pre, key)
    ensures OwnedInside(env, s.post, key)
  {
    match s.item.ix
    case OutsideIx(c) =>
      OutsideIsPermitted(env, s);
      ApplyKeepsInside(env, AuthOf(env, s.item), s.pre, c.op, key);
    case BridgeIx(ix) =>
      BridgeCreatesInside(env, s.pre, s.item.prior, ix);
      PlayKeepsInside(env, AuthOf(env, s.item), s.pre, Ops(env, s.pre, s.item), 0, key);
    case CommissionIx(ix) =>
      CommissionCreatesInside(env, s.pre, ix);
      PlayKeepsInside(env, AuthOf(env, s.item), s.pre, Ops(env, s.pre, s.item), 0, key);
    case UpgradeIx(ix) =>
      UpgradeCreatesInside(env, s.pre, ix);
      PlayKeepsInside(env, AuthOf(env, s.item), s.pre, Ops(env, s.pre, s.item), 0, key);
    case SweepIx => SweepKeeps(env, s, key);
  }

  /** In every reachable state an account at an address of the three programs is owned by one of them or by one of the
      runtime's own programs. So an outside program that may rewrite only what it owns cannot rewrite it: the
      exclusion of such addresses from what outsiders may do takes nothing from them. */
  lemma {:induction false} OutsidersOwnNothingOfOurs(env: Env, l: Accounts, steps: seq<Step>, l': Accounts,
                                                     key: Address)
    requires Run(env, l, steps, l') && OwnedInside(env, l, key)
    ensures OwnedInside(env, l', key)
    ensures var owner := Get(l', key).owner;
            !NoData(l', key) && !MayOwn(env, owner) ==> MayRewrite(env, l', owner, key)
    decreases |steps|
  {
    if steps != [] {
      StepKeepsInside(env, steps[0], key);
      OutsidersOwnNothingOfOurs(env, steps[0].post, steps[1..], l', key);
    }
  }
}
