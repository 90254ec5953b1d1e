/** Withdraw records: one per origin, for ever, and exactly what was paid out. */
module Journal {
  import opened Wrappers
  import opened Chain
  import opened Ledger
  import opened Gauges
  import opened Programs
  import opened Steps
  import D = Driver
  import Bridge

  predicate IsWithdrawal(item: Item) {
    item.ix.BridgeIx? && (item.ix.bridge.WithdrawNative? || item.ix.bridge.WithdrawToken?)
  }

  function RecordKeyOf(item: Item): Address
    requires IsWithdrawal(item)
  {
    item.ix.bridge.record
  }

  function RecordOf(item: Item): Withdraw
    requires IsWithdrawal(item)
  {
    Bridge.RecordOf(item.ix.bridge)
  }

  lemma BridgeStoresRecords(env: Env, l: Accounts, prior: Option<Bridge.Prior>, ix: Bridge.Instruction)
    ensures var ops := Bridge.Ops(env, l, prior, ix);
            |ops| > 0
            && if ix.WithdrawNative? || ix.WithdrawToken?
               then Last(ops) == Store(ix.record, WithdrawData(Bridge.RecordOf(ix)))
               else !(Last(ops).Store? && Last(ops).data.WithdrawData?)
  {
  }

  lemma OnlyWithdrawalsStoreRecords(env: Env, l: Accounts, item: Item)
    requires !item.ix.OutsideIx? && !item.ix.SweepIx?
    ensures StoresOnlyLast(Ops(env, l, item))
    ensures var last := Last(Ops(env, l, item));
            if IsWithdrawal(item) then last == Store(RecordKeyOf(item), WithdrawData(RecordOf(item)))
            else !(last.Store? && last.data.WithdrawData?)
  {
    StoresLast(env, l, item);
    if item.ix.BridgeIx? {
      BridgeStoresRecords(env, l, item.prior, item.ix.bridge);
    }
  }

  lemma WithdrawalNamesItsRecord(env: Env, s: Step)
    requires Valid(env, s) && IsWithdrawal(s.item)
    ensures RecordKeyOf(s.item) == OneSeedKey(env, RecordOf(s.item).origin)
  {
    var ops := Ops(env, s.pre, s.item);
    PlayChecks(env, AuthOf(env, s.item), s.pre, ops, 0);
    if s.item.ix.bridge.WithdrawNative? {
      assert ops[0].error == None;
    } else {
      assert ops[11].error == None;
    }
  }

  /** One step: a withdrawal adds its own record at an address that held none; nothing else touches the records
      at the program's own addresses. */
  lemma StepJournal(env: Env, s: Step, key: Address, w: Withdraw)
    requires Valid(env, s) && Ours(env, key)
    ensures DataAt(s.post, key) == WithdrawData(w)
            <==> DataAt(s.pre, key) == WithdrawData(w)
                 || (IsWithdrawal(s.item) && RecordKeyOf(s.item) == key && RecordOf(s.item) == w)
    ensures IsWithdrawal(s.item) ==> !DataAt(s.pre, RecordKeyOf(s.item)).WithdrawData?
  {
    if s.item.ix.SweepIx? {
      SweepKeeps(env, s, key);
    } else {
      StoresLast(env, s.pre, s.item);
      LastStoreWins(env, AuthOf(env, s.item), s.pre, Ops(env, s.pre, s.item), key);
      if s.item.ix.OutsideIx? {
        OutsideIsPermitted(env, s);
      } else {
        OnlyWithdrawalsStoreRecords(env, s.pre, s.item);
      }
    }
    if IsWithdrawal(s.item) {
      LastStoreWins(env, AuthOf(env, s.item), s.pre, Ops(env, s.pre, s.item), RecordKeyOf(s.item));
    }
  }

  // Some withdrawal of the run wrote this record.
  ghost predicate PaidDuring(steps: seq<Step>, key: Address, w: Withdraw) {
    exists i :: 0 <= i < |steps| && IsWithdrawal(steps[i].item) && RecordKeyOf(steps[i].item) == key
        && RecordOf(steps[i].item) == w
  }

  lemma PaidDuringUnfolds(steps: seq<Step>, key: Address, w: Withdraw)
    requires steps != []
    ensures PaidDuring(steps, key, w)
            <==> (IsWithdrawal(steps[0].item) && RecordKeyOf(steps[0].item) == key && RecordOf(steps[0].item) == w)
                 || PaidDuring(steps[1..], key, w)
  {
    var rest := steps[1..];
    forall i | 0 <= i < |steps| && IsWithdrawal(steps[i].item) && RecordKeyOf(steps[i].item) == key
        && RecordOf(steps[i].item) == w
      ensures i == 0 || PaidDuring(rest, key, w)
    {
      if i > 0 {
        assert rest[i - 1] == steps[i];
      }
    }
    if PaidDuring(rest, key, w) {
      var i :| 0 <= i < |rest| && IsWithdrawal(rest[i].item) && RecordKeyOf(rest[i].item) == key
          && RecordOf(rest[i].item) == w;
      assert steps[i + 1] == rest[i];
    }
  }

  /** The journal after any run: the records there were at the program's addresses, plus exactly one per successful
      withdrawal, carrying its kind, mint, amount, origin and receiver. */
  lemma {:induction false} JournalIsExact(env: Env, l: Accounts, steps: seq<Step>, l': Accounts, key: Address,
                                          w: Withdraw)
    requires Run(env, l, steps, l') && Ours(env, key)
    ensures DataAt(l', key) == WithdrawData(w) <==> DataAt(l, key) == WithdrawData(w) || PaidDuring(steps, key, w)
    decreases |steps|
  {
    if steps != [] {
      StepJournal(env, steps[0], key, w);
      JournalIsExact(env, steps[0].post, steps[1..], l', key, w);
      PaidDuringUnfolds(steps, key, w);
    }
  }

  /** At most one payout per origin, over all bridge admins and all three kinds. */
  lemma OriginsPaidOnce(env: Env, l: Accounts, steps: seq<Step>, l': Accounts, i: nat, j: nat)
    requires Run(env, l, steps, l') && i < j < |steps|
    requires IsWithdrawal(steps[i].item) && IsWithdrawal(steps[j].item)
    ensures RecordOf(steps[i].item).origin != RecordOf(steps[j].item).origin
    ensures RecordKeyOf(steps[i].item) != RecordKeyOf(steps[j].item)
  {
    D.RunBetween(Executor(env), l, steps, l', i, j);
    var s, t := steps[i], steps[j];
    WithdrawalNamesItsRecord(env, s);
    WithdrawalNamesItsRecord(env, t);
    StepJournal(env, s, RecordKeyOf(s.item), RecordOf(s.item));
    StepJournal(env, t, RecordKeyOf(s.item), RecordOf(s.item));
    RunEvolves(env, s.post, steps[i + 1..j], t.pre, RecordKeyOf(s.item));
  }

  /** An origin that already has a record is never paid again. */
  lemma RecordedOriginsAreRefused(env: Env, l: Accounts, steps: seq<Step>, l': Accounts, i: nat)
    requires Run(env, l, steps, l') && i < |steps| && IsWithdrawal(steps[i].item)
    ensures !DataAt(l, OneSeedKey(env, RecordOf(steps[i].item).origin)).WithdrawData?
  {
    D.RunSplits(Executor(env), l, steps, l', i);
    var s := steps[i];
    WithdrawalNamesItsRecord(env, s);
    StepJournal(env, s, RecordKeyOf(s.item), RecordOf(s.item));
    if DataAt(l, RecordKeyOf(s.item)).WithdrawData? {
      RunEvolves(env, l, steps[..i], s.pre, RecordKeyOf(s.item));
    }
  }

  /** Records and wrapped mints share one derivation, yet no address is ever both:
      neither now and later, nor later and now. */
  lemma RecordsAreNeverMints(env: Env, l: Accounts, steps: seq<Step>, l': Accounts, key: Address)
    requires Run(env, l, steps, l')
    ensures Ours(env, key) && DataAt(l, key).WithdrawData? ==> DataAt(l', key) == DataAt(l, key)
    ensures DataAt(l, key).MintData? ==> DataAt(l', key).MintData?
  {
    if DataAt(l, key).MintData? || (Ours(env, key) && DataAt(l, key).WithdrawData?) {
      RunEvolves(env, l, steps, l', key);
    }
  }
}
