/** An address a record would need, once occupied, stays occupied: its origin can no longer be paid. */
module Occupancy {
  import opened Wrappers
  import opened ByteStrings
  import opened Chain
  import opened Ledger
  import opened Gauges
  import opened Programs
  import opened Steps
  import opened Journal
  import opened Vaults
  import D = Driver
  import Bridge
  import Commission
  import NativeFlow

  // An operation that could take lamports from the account, or wrap them.
  predicate Spends(auth: Auth, op: Op, key: Address) {
    match op
    case Create(payer, created, _, _, seeds) => payer == key && created != key && key in Signers(auth, seeds)
    case CreateMetadata(created, _, _, payer, _, seeds) => payer == key && created != key && key in Signers(auth, seeds)
    case EnsureAssociated(payer, _, _, _) => payer == key && key in auth.signers
    case Pay(payer, _, _, seeds) => payer == key && key in Signers(auth, seeds)
    case Payout(admin, to, _) => admin == key || to == key
    case _ => false
  }

  lemma ApplyKeepsFunds(env: Env, auth: Auth, l: Accounts, op: Op, key: Address)
    requires Apply(env, auth, l, op).Success? && !Spends(auth, op, key) && Get(l, key).lamports > 0
    ensures Get(Apply(env, auth, l, op).value, key).lamports > 0
  {
    if !Touches(auth, op, LamportsOf(key)) {
      LamportsUntouched(env, auth, l, op, key);
    }
  }

  predicate SparesAddress(auth: Auth, ops: seq<Op>, key: Address) {
    forall op <- ops :: !Spends(auth, op, key)
  }

  lemma {:induction false} ReachKeepsFunds(env: Env, auth: Auth, l: Accounts, ops: seq<Op>, i: nat, p: nat,
                                           key: Address)
    requires i <= p <= |ops| && Play(env, auth, l, ops, i).Success? && SparesAddress(auth, ops, key)
    requires Get(l, key).lamports > 0
    ensures Get(Reach(env, auth, l, ops, i, p), key).lamports > 0
    decreases p - i
  {
    if i < p {
      ApplyKeepsFunds(env, auth, l, ops[i], key);
      ReachKeepsFunds(env, auth, Apply(env, auth, l, ops[i]).value, ops, i + 1, p, key);
    }
  }

  // Lamports, or data that lasts: what keeps an address occupied after the transaction.
  predicate Settled(env: Env, l: Accounts, key: Address) {
    Get(l, key).lamports > 0 || Lasting(env, key, DataAt(l, key))
  }

  lemma PlayKeepsSettled(env: Env, auth: Auth, l: Accounts, ops: seq<Op>, key: Address)
    requires Play(env, auth, l, ops, 0).Success? && Settled(env, l, key) && SparesAddress(auth, ops, key)
    ensures Settled(env, Play(env, auth, l, ops, 0).value, key)
  {
    if Get(l, key).lamports > 0 {
      ReachKeepsFunds(env, auth, l, ops, 0, |ops|, key);
      ReachPlays(env, auth, l, ops, 0, |ops|);
    } else {
      PlayEvolves(env, auth, l, ops, 0);
      assert Evolves(DataAt(l, key), DataAt(Play(env, auth, l, ops, 0).value, key));
    }
  }

  // The addresses of records and wrapped mints are no admin's.
  lemma OneSeedShape(env: Env, seed: Bytes, key: Address)
    requires key == OneSeedKey(env, seed)
    ensures Ours(env, key) && key.program == env.bridge && |key.seeds| == 2 && key.seeds[1].Raw?
  {
  }

  lemma BridgeSpares(env: Env, s: Step, key: Address, seed: Bytes)
    requires Valid(env, s) && s.item.ix.BridgeIx? && key == OneSeedKey(env, seed)
    ensures SparesAddress(AuthOf(env, s.item), Ops(env, s.pre, s.item), key)
  {
    OneSeedShape(env, seed, key);
    var ix := s.item.ix.bridge;
    if ix.WithdrawNative? {
      NativeFlow.NativeWithdrawalPassed(env, s);
      NativeSpares(env, AuthOf(env, s.item), s.pre, ix, Bridge.WithdrawNativeError(env, s.pre, ix), key);
    } else if ix.WithdrawToken? {
      var p := WithdrawalPlays(env, s);
      WithdrawalFacts(env, s);
      TokenSpares(env, AuthOf(env, s.item), ix, p, key);
    } else {
      OtherBridgeSpares(env, AuthOf(env, s.item), s.pre, s.item.prior, ix, key);
    }
  }

  lemma OtherBridgeSpares(env: Env, auth: Auth, l: Accounts, prior: Option<Bridge.Prior>, ix: Bridge.Instruction,
                          key: Address)
    requires !ix.WithdrawNative? && !ix.WithdrawToken? && Ours(env, key) && |key.seeds| == 2
    requires Outsiders(env, auth.signers)
    ensures SparesAddress(auth, Bridge.Ops(env, l, prior, ix), key)
  {
    assert ix.InitializeAdmin? ==> key !in Signers(auth, [Raw(ix.seeds)]);
  }

  lemma NativeSpares(env: Env, auth: Auth, l: Accounts, ix: Bridge.Instruction, early: Option<Error>, key: Address)
    requires ix.WithdrawNative? && auth.program == env.bridge && Outsiders(env, auth.signers) && Ours(env, key)
    requires Play(env, auth, l, Bridge.WithdrawNativeScript(env, ix, early), 0).Success?
    requires ix.admin == BridgeKey(env, ix.seeds) && ix.record == OneSeedKey(env, ix.origin) && |key.seeds| == 2
    ensures SparesAddress(auth, Bridge.WithdrawNativeScript(env, ix, early), key)
  {
    FunderIsOutside(env, auth, l, Bridge.WithdrawNativeScript(env, ix, early), 1);
  }

  lemma MintingSpares(env: Env, auth: Auth, ix: Bridge.Instruction, p: Bridge.Parts, key: Address)
    requires ix.WithdrawToken? && ix.owner != key
    ensures forall i :: 0 <= i < 5 ==> !Spends(auth, Bridge.WithdrawTokenScript(env, ix, p)[i], key)
  {
  }

  lemma PayingSpares(env: Env, auth: Auth, ix: Bridge.Instruction, p: Bridge.Parts, key: Address)
    requires ix.WithdrawToken? && ix.owner != key
    ensures forall i :: 5 <= i < 11 ==> !Spends(auth, Bridge.WithdrawTokenScript(env, ix, p)[i], key)
  {
  }

  lemma RecordingSpares(env: Env, auth: Auth, ix: Bridge.Instruction, p: Bridge.Parts, key: Address)
    requires ix.WithdrawToken? && ix.owner != key
    ensures |Bridge.WithdrawTokenScript(env, ix, p)| == 14
    ensures forall i :: 11 <= i < 14 ==> !Spends(auth, Bridge.WithdrawTokenScript(env, ix, p)[i], key)
  {
  }

  lemma TokenSpares(env: Env, auth: Auth, ix: Bridge.Instruction, p: Bridge.Parts, key: Address)
    requires ix.WithdrawToken? && ix.owner != key
    ensures SparesAddress(auth, Bridge.WithdrawTokenScript(env, ix, p), key)
  {
    MintingSpares(env, auth, ix, p, key);
    PayingSpares(env, auth, ix, p, key);
    RecordingSpares(env, auth, ix, p, key);
    SparesEach(auth, Bridge.WithdrawTokenScript(env, ix, p), key);
  }

  lemma SparesEach(auth: Auth, ops: seq<Op>, key: Address)
    requires forall i :: 0 <= i < |ops| ==> !Spends(auth, ops[i], key)
    ensures SparesAddress(auth, ops, key)
  {
  }

  // Fee admins sign with their own seeds, which are no record's.
  lemma FeeAdminsSignAlone(env: Env, auth: Auth, bridgeAdmin: Address, key: Address, seed: Bytes)
    requires key == OneSeedKey(env, seed) && Outsiders(env, auth.signers)
    ensures key !in Signers(auth, Commission.AdminSeeds(bridgeAdmin)) && key !in auth.signers
  {
    OneSeedShape(env, seed, key);
    assert Commission.AdminSeeds(bridgeAdmin)[1].Of?;
  }

  lemma ChargeSpares(env: Env, auth: Auth, ix: Commission.Instruction, price: Outcome<u64>, key: Address)
    requires ix.ChargeCommission?
    requires key !in Signers(auth, Commission.AdminSeeds(ix.bridgeAdmin)) && key !in auth.signers
    ensures SparesAddress(auth, Commission.ChargeScript(env, ix, price), key)
  {
  }

  lemma FeeWithdrawalSpares(env: Env, auth: Auth, ix: Commission.Instruction, next: Outcome<FeeAdmin>, key: Address)
    requires ix.Withdraw?
    requires key !in Signers(auth, Commission.AdminSeeds(ix.bridgeAdmin)) && key !in auth.signers
    ensures SparesAddress(auth, Commission.WithdrawScript(env, ix, next), key)
  {
  }

  lemma CommissionSpares(env: Env, l: Accounts, item: Item, key: Address, seed: Bytes)
    requires item.ix.CommissionIx? && key == OneSeedKey(env, seed) && Outsiders(env, item.signers)
    ensures SparesAddress(AuthOf(env, item), Ops(env, l, item), key)
  {
    var ix, auth := item.ix.commission, AuthOf(env, item);
    FeeAdminsSignAlone(env, auth, ix.bridgeAdmin, key, seed);
    match ix {
      case ChargeCommission(_, _, _, _, _, _, _, _, _) =>
        ChargeSpares(env, auth, ix, Commission.Price(env, l, ix), key);
      case Withdraw(_, _, _, _, _, _, _, _, _) =>
        FeeWithdrawalSpares(env, auth, ix, Commission.Next(env, l, ix), key);
      case _ =>
    }
  }

  lemma UpgradeSpares(env: Env, l: Accounts, item: Item, key: Address)
    requires item.ix.UpgradeIx? && Outsiders(env, item.signers)
    requires Ours(env, key) && |key.seeds| == 2 && key.seeds[1].Raw?
    ensures SparesAddress(AuthOf(env, item), Ops(env, l, item), key)
  {
  }

  lemma OutsideKeepsSettled(env: Env, s: Step, key: Address)
    requires Valid(env, s) && s.item.ix.OutsideIx? && Ours(env, key) && Settled(env, s.pre, key)
    ensures Settled(env, s.post, key)
  {
    OutsideIsPermitted(env, s);
    var op, auth := s.item.ix.outside.op, AuthOf(env, s.item);
    if Get(s.pre, key).lamports == 0 {
      StepEvolves(env, s, key);
    } else if op.Payout? {
      InRangeDoesNotWrap(Get(s.pre, op.to).lamports + op.lamports);
    } else {
      ApplyKeepsFunds(env, auth, s.pre, op, key);
    }
  }

  lemma StepKeepsSettled(env: Env, s: Step, seed: Bytes)
    requires Valid(env, s) && Settled(env, s.pre, OneSeedKey(env, seed))
    ensures Settled(env, s.post, OneSeedKey(env, seed))
  {
    var key, auth, ops := OneSeedKey(env, seed), AuthOf(env, s.item), Ops(env, s.pre, s.item);
    OneSeedShape(env, seed, key);
    match s.item.ix {
      case BridgeIx(_) => BridgeSpares(env, s, key, seed);
      case CommissionIx(_) => CommissionSpares(env, s.pre, s.item, key, seed);
      case UpgradeIx(_) => UpgradeSpares(env, s.pre, s.item, key);
      case OutsideIx(_) => OutsideKeepsSettled(env, s, key);
      case SweepIx => SweepKeeps(env, s, key);
    }
    if !s.item.ix.OutsideIx? && !s.item.ix.SweepIx? {
      PlayKeepsSettled(env, auth, s.pre, ops, key);
    }
  }

  lemma {:induction false} RunKeepsSettled(env: Env, l: Accounts, steps: seq<Step>, l': Accounts, seed: Bytes)
    requires Run(env, l, steps, l') && Settled(env, l, OneSeedKey(env, seed))
    ensures Settled(env, l', OneSeedKey(env, seed))
    decreases |steps|
  {
    if steps != [] {
      StepKeepsSettled(env, steps[0], seed);
      RunKeepsSettled(env, steps[0].post, steps[1..], l', seed);
    }
  }

  lemma CreateNeedsFreeAddress(env: Env, auth: Auth, l: Accounts, ops: seq<Op>, p: nat, key: Address)
    requires p < |ops| && ops[p].Create? && ops[p].key == key && Play(env, auth, l, ops, 0).Success?
    requires SparesAddress(auth, ops, key)
    ensures !Occupied(l, key)
  {
    ReachPlays(env, auth, l, ops, 0, p);
    assert Evolves(DataAt(l, key), DataAt(Reach(env, auth, l, ops, 0, p), key));
    if Get(l, key).lamports > 0 {
      ReachKeepsFunds(env, auth, l, ops, 0, p, key);
    }
  }

  lemma PaidOriginWasFree(env: Env, s: Step)
    requires Valid(env, s) && IsWithdrawal(s.item)
    ensures !Occupied(s.pre, OneSeedKey(env, RecordOf(s.item).origin))
  {
    var ops, key := Ops(env, s.pre, s.item), RecordKeyOf(s.item);
    WithdrawalNamesItsRecord(env, s);
    BridgeSpares(env, s, key, RecordOf(s.item).origin);
    var p := if s.item.ix.bridge.WithdrawNative? then 1 else 12;
    CreateNeedsFreeAddress(env, AuthOf(env, s.item), s.pre, ops, p, key);
  }

  /** An origin whose record address ever holds a lamport, be it a record's or one sent there, is never paid in any
      continuation: creating the record would fail. */
  lemma OccupiedOriginsAreNeverPaid(env: Env, l: Accounts, steps: seq<Step>, l': Accounts, i: nat)
    requires Run(env, l, steps, l') && i < |steps| && IsWithdrawal(steps[i].item)
    ensures !Settled(env, l, OneSeedKey(env, RecordOf(steps[i].item).origin))
    ensures !Occupied(steps[i].pre, OneSeedKey(env, RecordOf(steps[i].item).origin))
  {
    D.RunSplits(Executor(env), l, steps, l', i);
    PaidOriginWasFree(env, steps[i]);
    if Settled(env, l, OneSeedKey(env, RecordOf(steps[i].item).origin)) {
      RunKeepsSettled(env, l, steps[..i], steps[i].pre, RecordOf(steps[i].item).origin);
    }
  }
}
