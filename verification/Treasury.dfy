/** Native currency in total: what all bridge admins hold together, against what all native records say was paid. */
module Treasury {
  import opened Wrappers
  import opened ByteStrings
  import opened Chain
  import opened Ledger
  import opened Gauges
  import opened Programs
  import opened Steps
  import opened Journal
  import opened Vaults
  import opened NativeFlow
  import opened Ownership
  import Bridge
  import Keys

  ghost function Holdings(env: Env, l: Accounts): nat {
    Sum(l, AdminFunds(env.bridge))
  }

  ghost function Recorded(env: Env, l: Accounts): nat {
    Sum(l, NativePaid(env.bridge))
  }

  // Bridge admins, and no other accounts, hold admin data that belongs to the bridge; its records are at its addresses.
  predicate PlacedAt(env: Env, l: Accounts, key: Address) {
    (DataAt(l, key).BridgeData? ==> (Get(l, key).owner == env.bridge <==> IsBridgeAdmin(env, key)))
    && (DataAt(l, key).WithdrawData? && Get(l, key).owner == env.bridge ==> Ours(env, key))
  }

  ghost predicate Placed(env: Env, l: Accounts) {
    forall key :: PlacedAt(env, l, key)
  }

  lemma AdminsAreInitialised(env: Env, s: Step, key: Address)
    requires Valid(env, s) && DataAt(s.post, key).BridgeData? && !DataAt(s.pre, key).BridgeData?
    ensures Get(s.post, key).owner == ProgramOf(env, s.item.ix)
    ensures s.item.ix.OutsideIx? ==> !Ours(env, key) && !IsOurProgram(env, ProgramOf(env, s.item.ix))
    ensures !s.item.ix.OutsideIx? ==>
              s.item.ix.BridgeIx? && s.item.ix.bridge.InitializeAdmin? && s.item.ix.bridge.admin == key
              && IsBridgeAdmin(env, key) && Get(s.pre, key).lamports == 0
  {
    if s.item.ix.SweepIx? {
      SweepKeeps(env, s, key);
    }
    StepEvolves(env, s, key);
    StoredBelongsToWriter(env, s, key);
    match s.item.ix
    case OutsideIx(_) => OutsideIsPermitted(env, s);
    case BridgeIx(ix) => NewAdmin(env, s, key);
    case CommissionIx(c) => Keys.StoredIsCommission(env, s.pre, c);
    case UpgradeIx(u) => Keys.UpgradeStores(env, s.pre, u);
  }

  lemma NewAdmin(env: Env, s: Step, key: Address)
    requires Valid(env, s) && s.item.ix.BridgeIx? && !DataAt(s.pre, key).BridgeData? && DataAt(s.post, key).BridgeData?
    requires Last(Ops(env, s.pre, s.item)) == Store(key, DataAt(s.post, key))
    ensures s.item.ix.bridge.InitializeAdmin? && s.item.ix.bridge.admin == key
    ensures IsBridgeAdmin(env, key) && Get(s.pre, key).lamports == 0
  {
    var ix := s.item.ix.bridge;
    Keys.BridgeStores(env, s.pre, s.item.prior, ix);
    if ix.InitializeAdmin? {
      InitialisedFromNothing(env, AuthOf(env, s.item), s.pre, ix);
    } else {
      assert Keys.RotationOf(s.item, key).Some?;
      Keys.RotationIsSigned(env, s, key);
    }
  }

  lemma InitialisedFromNothing(env: Env, auth: Auth, l: Accounts, ix: Bridge.Instruction)
    requires ix.InitializeAdmin? && Play(env, auth, l, Bridge.InitializeAdminScript(env, ix), 0).Success?
    ensures ix.admin == BridgeKey(env, ix.seeds) && Get(l, ix.admin).lamports == 0
  {
    var ops := Bridge.InitializeAdminScript(env, ix);
    PlayChecks(env, auth, l, ops, 0);
    assert ops[0].error == None;
    var l1 := PlayOne(env, auth, l, ops, 0);
    var l2 := PlayOne(env, auth, l1, ops, 1);
  }

  lemma StepKeepsPlaced(env: Env, s: Step, key: Address)
    requires Valid(env, s) && PlacedAt(env, s.pre, key)
    ensures PlacedAt(env, s.post, key)
  {
    if Drops(env, s, key) {
      SweepKeeps(env, s, key);
    } else if DataAt(s.pre, key).BridgeData? || DataAt(s.pre, key).WithdrawData? {
      StepEvolves(env, s, key);
      StepKeepsOwner(env, s, key);
    } else if DataAt(s.post, key).BridgeData? {
      AdminsAreInitialised(env, s, key);
    } else if DataAt(s.post, key).WithdrawData? {
      RecordsAreWritten(env, s, key);
      if IsWithdrawal(s.item) {
        WithdrawalNamesItsRecord(env, s);
      }
    }
  }

  // ---- One account ----

  function AdminWeight(env: Env, l: Accounts, key: Address): nat {
    Weigh(Get(l, key), AdminFunds(env.bridge))
  }

  function RecordWeight(env: Env, l: Accounts, key: Address): nat {
    Weigh(Get(l, key), NativePaid(env.bridge))
  }

  // The one account whose lamports an instruction may move if that is an admin.
  function Target(item: Item): Address {
    match item.ix
    case BridgeIx(ix) => ix.admin
    case CommissionIx(c) => if c.Withdraw? then c.receiver else c.admin
    case UpgradeIx(u) => u.admin
    case OutsideIx(c) => if c.op.Pay? || c.op.Payout? then c.op.to else Base(0)
    case SweepIx => Base(0)
  }

  predicate IsAdmin(env: Env, l: Accounts, key: Address) {
    DataAt(l, key).BridgeData? && Get(l, key).owner == env.bridge
  }

  // What comes in: native deposits; donations to an admin that exists; the rent of a new one.
  function Inflows(env: Env, s: Step): nat {
    match s.item.ix
    case BridgeIx(DepositNative(_, _, _, _, _, amount)) => amount
    case BridgeIx(InitializeAdmin(_, _, _, _, _)) => env.rent(BRIDGE_ADMIN_SIZE)
    case _ => if IsAdmin(env, s.pre, Target(s.item)) then Donated(env, s.item, Target(s.item)) else 0
  }

  // What the step pays out of an admin and writes into a record.
  function PaidOutNative(s: Step): nat {
    match s.item.ix
    case BridgeIx(WithdrawNative(_, _, _, _, _, _, amount)) => amount
    case _ => 0
  }

  lemma BridgeAdminNet(env: Env, s: Step, key: Address)
    requires Valid(env, s) && IsBridgeAdmin(env, key)
    ensures LamportFee(env, s, key) == 0 && FeeDrawn(s.item, key) == 0
    ensures key != Target(s.item) ==> Net(env, s, key) == 0
  {
    if s.item.ix.CommissionIx? {
      FeeAdminKey(env, s);
    }
  }

  lemma AdminWeightChange(env: Env, s: Step, key: Address)
    requires Valid(env, s) && Sum(s.pre, Lamports) < U64 && PlacedAt(env, s.pre, key)
    ensures key != Target(s.item) ==> AdminWeight(env, s.post, key) == AdminWeight(env, s.pre, key)
    ensures IsAdmin(env, s.pre, key) ==>
              AdminWeight(env, s.post, key) == AdminWeight(env, s.pre, key) + Net(env, s, key)
    ensures !IsAdmin(env, s.pre, key) ==>
              AdminWeight(env, s.pre, key) == 0
              && AdminWeight(env, s.post, key)
                 == if s.item.ix.BridgeIx? && s.item.ix.bridge.InitializeAdmin? && s.item.ix.bridge.admin == key
                    then env.rent(BRIDGE_ADMIN_SIZE) else 0
  {
    if s.item.ix.SweepIx? {
      SweepKeeps(env, s, key);
    } else {
      PlayedAdminWeightChange(env, s, key);
    }
  }

  lemma PlayedAdminWeightChange(env: Env, s: Step, key: Address)
    requires Valid(env, s) && !s.item.ix.SweepIx? && Sum(s.pre, Lamports) < U64 && PlacedAt(env, s.pre, key)
    ensures key != Target(s.item) ==> AdminWeight(env, s.post, key) == AdminWeight(env, s.pre, key)
    ensures IsAdmin(env, s.pre, key) ==>
              AdminWeight(env, s.post, key) == AdminWeight(env, s.pre, key) + Net(env, s, key)
    ensures !IsAdmin(env, s.pre, key) ==>
              AdminWeight(env, s.pre, key) == 0
              && AdminWeight(env, s.post, key)
                 == if s.item.ix.BridgeIx? && s.item.ix.bridge.InitializeAdmin? && s.item.ix.bridge.admin == key
                    then env.rent(BRIDGE_ADMIN_SIZE) else 0
  {
    StepEvolves(env, s, key);
    if DataAt(s.pre, key).BridgeData? {
      StepKeepsOwner(env, s, key);
      if IsAdmin(env, s.pre, key) {
        StepMovesLamports(env, s, key);
        BridgeAdminNet(env, s, key);
      }
    }
    if Keys.InitialKey(s.item.ix, key).Some? {
      Keys.InitialisationInstalls(env, s, key);
      Keys.InitialisesFreshAccount(env, s);
    }
    if !DataAt(s.pre, key).BridgeData? && DataAt(s.post, key).BridgeData? {
      AdminsAreInitialised(env, s, key);
      if !s.item.ix.OutsideIx? {
        StepMovesLamports(env, s, key);
      }
    }
  }

  // The record weight changes at the record of a native withdrawal only.
  lemma RecordWeightChange(env: Env, s: Step, key: Address)
    requires Valid(env, s) && PlacedAt(env, s.pre, key)
    ensures RecordWeight(env, s.post, key)
            == RecordWeight(env, s.pre, key)
               + if IsWithdrawal(s.item) && RecordKeyOf(s.item) == key then PaidOutNative(s) else 0
  {
    if IsWithdrawal(s.item) && RecordKeyOf(s.item) == key {
      NewRecord(env, s);
    } else {
      OtherRecordWeight(env, s, key);
    }
  }

  lemma NewRecord(env: Env, s: Step)
    requires Valid(env, s) && IsWithdrawal(s.item)
    ensures RecordWeight(env, s.pre, RecordKeyOf(s.item)) == 0
    ensures RecordWeight(env, s.post, RecordKeyOf(s.item)) == PaidOutNative(s)
  {
    WithdrawalNamesItsRecord(env, s);
    StepJournal(env, s, RecordKeyOf(s.item), RecordOf(s.item));
    RecordsAreWritten(env, s, RecordKeyOf(s.item));
  }

  lemma OtherRecordWeight(env: Env, s: Step, key: Address)
    requires Valid(env, s) && PlacedAt(env, s.pre, key) && !(IsWithdrawal(s.item) && RecordKeyOf(s.item) == key)
    ensures RecordWeight(env, s.post, key) == RecordWeight(env, s.pre, key)
  {
    if Drops(env, s, key) {
      SweepKeeps(env, s, key);
    } else if DataAt(s.pre, key).WithdrawData? {
      StepEvolves(env, s, key);
      StepKeepsOwner(env, s, key);
    } else if DataAt(s.post, key).WithdrawData? {
      RecordsAreWritten(env, s, key);
    }
  }

  lemma RecordsAreWritten(env: Env, s: Step, key: Address)
    requires Valid(env, s) && DataAt(s.post, key).WithdrawData? && !DataAt(s.pre, key).WithdrawData?
    ensures Get(s.post, key).owner == ProgramOf(env, s.item.ix)
    ensures if IsWithdrawal(s.item)
            then RecordKeyOf(s.item) == key && DataAt(s.post, key) == WithdrawData(RecordOf(s.item))
            else s.item.ix.OutsideIx? && !IsOurProgram(env, ProgramOf(env, s.item.ix))
  {
    NotOwnedBefore(env, s, key);
    StoredBelongsToWriter(env, s, key);
    if s.item.ix.OutsideIx? {
      OutsideIsPermitted(env, s);
    } else {
      OnlyWithdrawalsStoreRecords(env, s.pre, s.item);
    }
  }

  // Program data of one type never becomes another's.
  lemma NotOwnedBefore(env: Env, s: Step, key: Address)
    requires Valid(env, s) && DataAt(s.post, key).WithdrawData? && !DataAt(s.pre, key).WithdrawData?
    ensures !Owned(DataAt(s.pre, key)) && !s.item.ix.SweepIx?
  {
    if s.item.ix.SweepIx? {
      SweepKeeps(env, s, key);
    }
    StepEvolves(env, s, key);
  }

  // ---- All accounts ----

  lemma AdminOfWithdrawal(env: Env, s: Step)
    requires Valid(env, s) && Placed(env, s.pre)
    requires s.item.ix.BridgeIx? && (s.item.ix.bridge.WithdrawNative? || s.item.ix.bridge.DepositNative?)
    ensures IsAdmin(env, s.pre, Target(s.item)) && IsBridgeAdmin(env, Target(s.item))
  {
    var ix := s.item.ix.bridge;
    var ops := Bridge.Ops(env, s.pre, s.item.prior, ix);
    PlayChecks(env, AuthOf(env, s.item), s.pre, ops, 0);
    assert ops[0].error == None;
    assert PlacedAt(env, s.pre, ix.admin);
  }

  // What the one admin a step can touch gains, in the terms of the totals.
  lemma TargetChange(env: Env, s: Step)
    requires Valid(env, s) && Sum(s.pre, Lamports) < U64 && Placed(env, s.pre)
    ensures AdminWeight(env, s.post, Target(s.item))
            == AdminWeight(env, s.pre, Target(s.item)) + Inflows(env, s) - PaidOutNative(s)
  {
    var key := Target(s.item);
    assert PlacedAt(env, s.pre, key);
    AdminWeightChange(env, s, key);
    if s.item.ix.BridgeIx? && (s.item.ix.bridge.WithdrawNative? || s.item.ix.bridge.DepositNative?) {
      AdminOfWithdrawal(env, s);
    }
    if IsAdmin(env, s.pre, key) {
      BridgeAdminNet(env, s, key);
      if Keys.InitialKey(s.item.ix, key).Some? {
        Keys.InitialisesFreshAccount(env, s);
      }
    }
  }

  lemma HoldingsChange(env: Env, s: Step)
    requires Valid(env, s) && Sum(s.pre, Lamports) < U64 && Placed(env, s.pre)
    ensures Holdings(env, s.post) == Holdings(env, s.pre) + Inflows(env, s) - PaidOutNative(s)
  {
    var w := AdminFunds(env.bridge);
    forall key | key != Target(s.item) ensures Weigh(Get(s.pre, key), w) == Weigh(Get(s.post, key), w) {
      assert PlacedAt(env, s.pre, key);
      AdminWeightChange(env, s, key);
    }
    SumChangesAt(s.pre, s.post, w, Target(s.item));
    TargetChange(env, s);
  }

  lemma RecordedChange(env: Env, s: Step)
    requires Valid(env, s) && Placed(env, s.pre)
    ensures Recorded(env, s.post) == Recorded(env, s.pre) + PaidOutNative(s)
  {
    var key := if IsWithdrawal(s.item) then RecordKeyOf(s.item) else Base(0);
    var w := NativePaid(env.bridge);
    forall k | k != key ensures Weigh(Get(s.pre, k), w) == Weigh(Get(s.post, k), w) {
      assert PlacedAt(env, s.pre, k);
      RecordWeightChange(env, s, k);
    }
    assert PlacedAt(env, s.pre, key);
    RecordWeightChange(env, s, key);
    SumChangesAt(s.pre, s.post, w, key);
  }

  function AllInflows(env: Env, steps: seq<Step>): nat {
    if steps == [] then 0 else Inflows(env, steps[0]) + AllInflows(env, steps[1..])
  }

  /** Over any run, what all bridge admins hold together, plus what all native withdrawal records say was paid, is what
      the two were at the start plus native deposits and donations. */
  lemma {:induction false} HoldingsAndRecordsBalance(env: Env, l: Accounts, steps: seq<Step>, l': Accounts)
    requires Run(env, l, steps, l') && Sum(l, Lamports) < U64 && Placed(env, l)
    ensures Holdings(env, l') + Recorded(env, l') == Holdings(env, l) + Recorded(env, l) + AllInflows(env, steps)
    decreases |steps|
  {
    if steps != [] {
      var s := steps[0];
      HoldingsChange(env, s);
      RecordedChange(env, s);
      StepKeepsLamports(env, s);
      forall key ensures PlacedAt(env, s.post, key) {
        StepKeepsPlaced(env, s, key);
      }
      HoldingsAndRecordsBalance(env, s.post, steps[1..], l');
    }
  }
}
