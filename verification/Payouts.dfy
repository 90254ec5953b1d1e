/** The journal against the balances: every record states what was actually paid. */
module Payouts {
  import opened Wrappers
  import opened ByteStrings
  import opened Chain
  import opened Ledger
  import opened Programs
  import opened Steps
  import opened Journal
  import Bridge
  import NativeFlow
  import Vaults

  // What the record of a withdrawal must say, read off the balances before and after.
  predicate StatesPayment(env: Env, s: Step, admin: Address, w: Withdraw) {
    match w.mint
    case None =>
      w.tokenType == Sol
      && Get(s.post, admin).lamports == Get(s.pre, admin).lamports - w.amount
      && Get(s.post, w.receiver).lamports == Get(s.pre, w.receiver).lamports - env.rent(WithdrawSize(env)) + w.amount
    case Some(mint) =>
      w.tokenType != Sol
      && (w.tokenType == NonFungible ==> w.amount == 1)
      && var account := AssociatedKey(env, w.receiver, mint);
         Balance(s.post, account) == Balance(s.pre, account) + w.amount
         && Vaults.View(admin, mint).Outside(env, s.post) == Vaults.View(admin, mint).Outside(env, s.pre) + w.amount
  }

  lemma NativePaymentRecorded(env: Env, s: Step)
    requires Valid(env, s) && s.item.ix.BridgeIx? && s.item.ix.bridge.WithdrawNative? && Sum(s.pre, Lamports) < U64
    ensures StatesPayment(env, s, s.item.ix.bridge.admin, RecordOf(s.item))
  {
    var ix := s.item.ix.bridge;
    var early := Bridge.WithdrawNativeError(env, s.pre, ix);
    NativeFlow.NativeWithdrawalPassed(env, s);
    NativeFlow.NativeChecks(env, s.pre, ix);
    NativeFlow.NativeScript(env, AuthOf(env, s.item), s.pre, ix, early);
  }

  lemma TokenPaymentRecorded(env: Env, s: Step)
    requires Valid(env, s) && s.item.ix.BridgeIx? && s.item.ix.bridge.WithdrawToken?
    ensures StatesPayment(env, s, s.item.ix.bridge.admin, RecordOf(s.item))
  {
    Vaults.WithdrawalReachesReceiver(env, s);
    Vaults.WithdrawalMintsTheShortfall(env, s, Vaults.View(s.item.ix.bridge.admin, s.item.ix.bridge.mint));
  }

  /** A withdrawal leaves, at the address derived from its origin, a record of exactly what its admin paid out and its
      receiver got, of which currency or mint. */
  lemma RecordsStateWhatWasPaid(env: Env, s: Step)
    requires Valid(env, s) && IsWithdrawal(s.item)
    requires s.item.ix.bridge.WithdrawNative? ==> Sum(s.pre, Lamports) < U64
    ensures var d := DataAt(s.post, RecordKeyOf(s.item));
            d.WithdrawData? && d.withdraw.isInitialized && RecordKeyOf(s.item) == OneSeedKey(env, d.withdraw.origin)
            && StatesPayment(env, s, s.item.ix.bridge.admin, d.withdraw)
  {
    WithdrawalNamesItsRecord(env, s);
    StepJournal(env, s, RecordKeyOf(s.item), RecordOf(s.item));
    if s.item.ix.bridge.WithdrawNative? {
      NativePaymentRecorded(env, s);
    } else {
      TokenPaymentRecorded(env, s);
    }
  }
}
