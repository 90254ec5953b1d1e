/** Fees: every deposit is preceded by its own charge, and a charge moves the current list price. */
module Fees {
  import opened Wrappers
  import opened ByteStrings
  import opened FeeList
  import opened Chain
  import opened Ledger
  import opened Gauges
  import opened Programs
  import opened Steps
  import opened Vaults
  import D = Driver
  import Bridge
  import Commission

  predicate IsDeposit(ix: Instruction) {
    ix.BridgeIx? && (ix.bridge.DepositNative? || ix.bridge.DepositToken?)
  }

  predicate IsCharge(ix: Instruction) {
    ix.CommissionIx? && ix.commission.ChargeCommission?
  }

  // The charge names the bridge admin, kind and amount of the deposit.
  predicate PaysFor(env: Env, charge: Instruction, deposit: Instruction)
    requires IsDeposit(deposit)
  {
    IsCharge(charge)
    && charge.commission.admin == CommissionKey(env.commission, deposit.bridge.admin)
    && charge.commission.bridgeAdmin == deposit.bridge.admin
    && var kind, amount := charge.commission.depositKind, charge.commission.depositAmount;
       match deposit.bridge
       case DepositNative(_, _, _, _, _, n) => kind == Sol && amount == n
       case DepositToken(nonFungible, _, _, _, _, _, _, _, _, n, _) =>
         if nonFungible then kind == NonFungible && amount == 1 else kind == Fungible && amount == n
  }

  lemma DepositPassedFeeCheck(env: Env, s: Step)
    requires Valid(env, s) && IsDeposit(s.item.ix)
    ensures Bridge.DepositError(env, s.pre, s.item.prior, s.item.ix.bridge) == None
  {
    var ops := Bridge.Ops(env, s.pre, s.item.prior, s.item.ix.bridge);
    PlayChecks(env, AuthOf(env, s.item), s.pre, ops, 0);
    assert ops[0].error == None;
  }

  lemma ChargePassedKeyCheck(env: Env, s: Step)
    requires Valid(env, s) && IsCharge(s.item.ix)
    ensures Commission.Price(env, s.pre, s.item.ix.commission).Success?
    ensures s.item.ix.commission.admin == CommissionKey(env.commission, s.item.ix.commission.bridgeAdmin)
  {
    var ops := Commission.ChargeScript(env, s.item.ix.commission, Commission.Price(env, s.pre, s.item.ix.commission));
    PlayChecks(env, AuthOf(env, s.item), s.pre, ops, 0);
  }

  // What the instructions sysvar shows as the right charge is one, if it has been executed.
  lemma ShownCharge(env: Env, charged: Step, prior: Instruction, deposit: Instruction, l: Accounts)
    requires Valid(env, charged) && charged.item.ix == prior && IsDeposit(deposit)
    requires Bridge.DepositError(env, l, Some(Shown(env, prior)), deposit.bridge) == None
    requires UsesThisCommission(env, l, deposit.bridge.admin)
    ensures IsCharge(prior) && prior.commission.admin == CommissionKey(env.commission, deposit.bridge.admin)
    ensures prior.commission.depositKind == Bridge.KindOf(deposit.bridge)
    ensures prior.commission.depositAmount == Bridge.UnitsMoved(deposit.bridge)
  {
  }

  // The deposit's admin has appointed the commission program of this model.
  predicate UsesThisCommission(env: Env, l: Accounts, admin: Address) {
    ReadBridge(l, admin).Some? && ReadBridge(l, admin).value.commissionProgram == env.commission
  }

  // The steps of a transaction that takes effect: its instructions in their places, and the sweep at the end.
  ghost predicate Executes(env: Env, tx: Transaction, l: Accounts, steps: seq<Step>, l': Accounts) {
    Run(env, l, steps, l') && |steps| == |tx.instructions| + 1 && steps[|tx.instructions|].item == SWEEP
    && forall j :: 0 <= j < |tx.instructions| ==> steps[j].item == ItemAt(env, tx, j)
  }

  lemma CommittedTransactionExecutes(env: Env, tx: Transaction, l: Accounts)
    requires D.RunBatch(Executor(env), l, Items(env, tx)).Success?
    ensures Executes(env, tx, l, D.BatchSteps(Executor(env), l, Items(env, tx)),
                     D.Commit(Executor(env), l, Items(env, tx)))
  {
    D.BatchIsRun(Executor(env), l, Items(env, tx));
  }

  /** In a transaction that takes effect, the instruction before each deposit is a successful charge
      for exactly that deposit; in particular no deposit comes first, and distinct deposits have distinct charges. */
  lemma DepositsArePaidFor(env: Env, tx: Transaction, l: Accounts, steps: seq<Step>, l': Accounts, i: nat)
    requires Executes(env, tx, l, steps, l') && i < |steps| && IsDeposit(steps[i].item.ix)
    requires UsesThisCommission(env, steps[i].pre, steps[i].item.ix.bridge.admin)
    ensures i > 0 && PaysFor(env, steps[i - 1].item.ix, steps[i].item.ix)
    ensures Valid(env, steps[i - 1])
            && Commission.Price(env, steps[i - 1].pre, steps[i - 1].item.ix.commission).Success?
  {
    D.RunSplits(Executor(env), l, steps, l', i);
    DepositPassedFeeCheck(env, steps[i]);
    if i > 0 {
      D.RunSplits(Executor(env), l, steps, l', i - 1);
      var charge, deposit := steps[i - 1].item.ix, steps[i].item.ix;
      assert steps[i].item.prior == Some(Shown(env, charge));
      ShownCharge(env, steps[i - 1], charge, deposit, steps[i].pre);
      ChargePassedKeyCheck(env, steps[i - 1]);
      CommissionKeyInjective(env.commission, charge.commission.bridgeAdmin, env.commission, deposit.bridge.admin);
    }
  }

  // ---- What a charge moves ----

  function PriceAt(env: Env, s: Step): nat
    requires IsCharge(s.item.ix)
  {
    var price := Commission.Price(env, s.pre, s.item.ix.commission);
    if price.Success? then price.value else 0
  }

  // A charge pays the vault's own price list, unless it pays out of the vault itself.
  function FeeCharged(env: Env, s: Step, v: View): nat {
    if IsCharge(s.item.ix) && s.item.ix.commission.admin == v.holder && s.item.ix.commission.token == FT(v.mint)
       && s.item.ix.commission.ownerToken != v.Vault(env) then PriceAt(env, s) else 0
  }

  function FeesDrawn(env: Env, s: Step, v: View): nat {
    var ix := s.item.ix;
    if ix.CommissionIx? && ix.commission.Withdraw? && ix.commission.admin == v.holder
        && ix.commission.entry.token == FT(v.mint)
       && ix.commission.receiverToken != v.Vault(env) then ix.commission.withdrawAmount else 0
  }

  function Given(env: Env, s: Step, v: View): nat {
    if Collects(s.item, v) then 0 else Gift(env, s.item, v)
  }

  lemma ChargeScriptPays(env: Env, auth: Auth, l: Accounts, ix: Commission.Instruction, price: Outcome<u64>)
    requires ix.ChargeCommission? && ix.token.FT?
    requires Play(env, auth, l, Commission.ChargeScript(env, ix, price), 0).Success?
    ensures price.Success? && ix.vault == AssociatedKey(env, ix.admin, ix.token.mint)
    ensures Balance(Play(env, auth, l, Commission.ChargeScript(env, ix, price), 0).value, ix.vault)
            == Balance(l, ix.vault) + if ix.ownerToken != ix.vault then price.value else 0
  {
    var ops := Commission.ChargeScript(env, ix, price);
    PlayChecks(env, auth, l, ops, 0);
    assert ops[0].error == None;
    var before, after := Focus(env, auth, l, ops, 2, BalanceOf(ix.vault));
    MoveEffect(env, auth, before, ops[2], ix.vault);
  }

  // Paying one token's fee leaves the holder's vaults for other tokens alone.
  lemma ChargeScriptSpares(env: Env, auth: Auth, l: Accounts, ix: Commission.Instruction, price: Outcome<u64>, v: View)
    requires ix.ChargeCommission? && ix.admin == v.holder && ix.token != FT(v.mint)
    requires v.Sound(env, l) && (ix.token.FT? ==> View(v.holder, ix.token.mint).Sound(env, l))
    requires Play(env, auth, l, Commission.ChargeScript(env, ix, price), 0).Success?
    ensures Balance(Play(env, auth, l, Commission.ChargeScript(env, ix, price), 0).value, v.Vault(env))
            == Balance(l, v.Vault(env))
  {
    var ops := Commission.ChargeScript(env, ix, price);
    if |ops| == 3 {
      var other := View(v.holder, ix.token.mint);
      PlayChecks(env, auth, l, ops, 0);
      assert ops[0].error == None;
      if ix.vault == v.Vault(env) {
        AssociatedKeyInjective(env, ix.admin, ix.token.mint, v.holder, v.mint);
      }
      var before, after := Focus(env, auth, l, ops, 2, BalanceOf(v.Vault(env)));
      ReachKeepsSound(env, auth, l, ops, 0, 2, v);
      ReachKeepsSound(env, auth, l, ops, 0, 2, other);
      MoveEffect(env, auth, before, ops[2], v.Vault(env));
    } else {
      PlayUntouched(env, auth, l, ops, 0, BalanceOf(v.Vault(env)));
    }
  }

  lemma FeeWithdrawalScriptPays(env: Env, auth: Auth, l: Accounts, ix: Commission.Instruction,
                                next: Outcome<FeeAdmin>, v: View)
    requires ix.Withdraw? && ix.admin == v.holder
    requires Play(env, auth, l, Commission.WithdrawScript(env, ix, next), 0).Success?
    ensures Balance(Play(env, auth, l, Commission.WithdrawScript(env, ix, next), 0).value, v.Vault(env))
            == Balance(l, v.Vault(env))
               - if ix.entry.token == FT(v.mint) && ix.receiverToken != v.Vault(env) then ix.withdrawAmount else 0
  {
    var ops := Commission.WithdrawScript(env, ix, next);
    if |ops| == 5 {
      PlayChecks(env, auth, l, ops, 0);
      assert ops[0].error == None;
      var mint := ix.entry.token.mint;
      if ix.vault == v.Vault(env) {
        AssociatedKeyInjective(env, ix.admin, mint, v.holder, v.mint);
      }
      if ix.receiverToken == v.Vault(env) {
        AssociatedKeyInjective(env, ix.receiver, mint, v.holder, v.mint);
      }
      var before, after := Focus(env, auth, l, ops, 2, BalanceOf(v.Vault(env)));
      MoveEffect(env, auth, before, ops[2], v.Vault(env));
    } else {
      PlayUntouched(env, auth, l, ops, 0, BalanceOf(v.Vault(env)));
    }
  }

  /** A successful token charge raises the fee vault by the first listed price exactly when it is not paid
      out of that very vault (the admin signs for its own account), or the price is zero. */
  lemma ChargeMovesPriceIff(env: Env, s: Step)
    requires Valid(env, s) && IsCharge(s.item.ix) && s.item.ix.commission.token.FT?
    ensures var ix := s.item.ix.commission;
            (Balance(s.post, ix.vault) - Balance(s.pre, ix.vault) == PriceAt(env, s))
            <==> (ix.ownerToken != ix.vault || PriceAt(env, s) == 0)
  {
    var ix := s.item.ix.commission;
    ChargeScriptPays(env, AuthOf(env, s.item), s.pre, ix, Commission.Price(env, s.pre, ix));
  }

  ghost predicate HolderSound(env: Env, l: Accounts, holder: Address) {
    forall mint :: View(holder, mint).Sound(env, l)
  }

  lemma StepFeeVault(env: Env, s: Step, v: View, bridgeAdmin: Address)
    requires Valid(env, s) && v.holder == CommissionKey(env.commission, bridgeAdmin)
             && HolderSound(env, s.pre, v.holder)
    ensures HolderSound(env, s.post, v.holder)
    ensures Balance(s.post, v.Vault(env))
            == Balance(s.pre, v.Vault(env)) + FeeCharged(env, s, v) - FeesDrawn(env, s, v) + Given(env, s, v)
  {
    forall mint ensures View(v.holder, mint).Sound(env, s.post) {
      StepKeepsSound(env, s, View(v.holder, mint));
    }
    assert View(v.holder, v.mint).Sound(env, s.pre);
    if Collects(s.item, v) {
      CollectingStep(env, s, v);
    } else {
      CommissionIsNoBridge(env, s, v, bridgeAdmin);
      OthersOnlyFillVault(env, s, v);
    }
  }

  lemma CollectingStep(env: Env, s: Step, v: View)
    requires Valid(env, s) && Collects(s.item, v) && HolderSound(env, s.pre, v.holder)
    ensures Balance(s.post, v.Vault(env)) == Balance(s.pre, v.Vault(env)) + FeeCharged(env, s, v) - FeesDrawn(env, s, v)
  {
    var ix, auth := s.item.ix.commission, AuthOf(env, s.item);
    assert v == View(v.holder, v.mint);
    if ix.Withdraw? {
      FeeWithdrawalScriptPays(env, auth, s.pre, ix, Commission.Next(env, s.pre, ix), v);
    } else if ix.token == FT(v.mint) {
      ChargeScriptPays(env, auth, s.pre, ix, Commission.Price(env, s.pre, ix));
    } else {
      ChargeScriptSpares(env, auth, s.pre, ix, Commission.Price(env, s.pre, ix), v);
    }
  }

  // A commission admin is not a bridge admin.
  lemma CommissionIsNoBridge(env: Env, s: Step, v: View, bridgeAdmin: Address)
    requires Valid(env, s) && v.holder == CommissionKey(env.commission, bridgeAdmin)
    ensures !Withdraws(env, s.item, v) && !Deposits(env, s.item, v)
  {
    assert |v.holder.seeds| == 2;
    if Withdraws(env, s.item, v) {
      WithdrawalFacts(env, s);
    } else if Deposits(env, s.item, v) {
      DepositPassedFeeCheck(env, s);
    }
  }

  function AllFees(env: Env, steps: seq<Step>, v: View): nat {
    if steps == [] then 0 else FeeCharged(env, steps[0], v) + AllFees(env, steps[1..], v)
  }

  function AllDrawn(env: Env, steps: seq<Step>, v: View): nat {
    if steps == [] then 0 else FeesDrawn(env, steps[0], v) + AllDrawn(env, steps[1..], v)
  }

  function AllGiven(env: Env, steps: seq<Step>, v: View): nat {
    if steps == [] then 0 else Given(env, steps[0], v) + AllGiven(env, steps[1..], v)
  }

  /** Over any run, with list edits interleaved as they may be, a fee vault holds what it held, plus the price
      current at each charge, minus what was withdrawn, plus gifts. */
  lemma {:induction false} FeeVaultIsAccountedFor(env: Env, l: Accounts, steps: seq<Step>, l': Accounts, v: View,
      bridgeAdmin: Address)
    requires Run(env, l, steps, l') && v.holder == CommissionKey(env.commission, bridgeAdmin)
             && HolderSound(env, l, v.holder)
    ensures Balance(l', v.Vault(env))
            == Balance(l, v.Vault(env)) + AllFees(env, steps, v) - AllDrawn(env, steps, v) + AllGiven(env, steps, v)
    decreases |steps|
  {
    if steps != [] {
      StepFeeVault(env, steps[0], v, bridgeAdmin);
      FeeVaultIsAccountedFor(env, steps[0].post, steps[1..], l', v, bridgeAdmin);
    }
  }
}
