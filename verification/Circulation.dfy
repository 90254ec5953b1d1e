/** Tokens: supply against balances, and what circulates outside a bridge admin's vault. */
module Circulation {
  import opened Wrappers
  import opened Chain
  import opened Ledger
  import opened Gauges
  import opened Programs
  import opened Steps
  import opened Vaults
  import D = Driver
  import Bridge
  import Commission
  import Upgrade

  lemma StepKeepsGap(env: Env, s: Step, m: Address)
    requires Valid(env, s)
    ensures Gap(s.post, m) == Gap(s.pre, m)
  {
    if s.item.ix.SweepIx? {
      forall key ensures Weigh(Get(s.pre, key), TokensOf(m)) == Weigh(Get(s.post, key), TokensOf(m)) {
        SweepKeeps(env, s, key);
      }
      SameWeightsSameSum(s.pre, s.post, TokensOf(m));
      SweepKeeps(env, s, m);
    } else {
      PlayKeepsGap(env, AuthOf(env, s.item), s.pre, Ops(env, s.pre, s.item), 0, m);
    }
  }

  /** Over any run, for every mint, the balances of all token accounts keep step with the supply. */
  lemma {:induction false} SupplyTracksBalances(env: Env, l: Accounts, steps: seq<Step>, l': Accounts, m: Address)
    requires Run(env, l, steps, l')
    ensures Sum(l', TokensOf(m)) - Supply(l', m) == Sum(l, TokensOf(m)) - Supply(l, m)
    decreases |steps|
  {
    if steps != [] {
      StepKeepsGap(env, steps[0], m);
      SupplyTracksBalances(env, steps[0].post, steps[1..], l', m);
    }
  }

  // What the bridge itself pays out of, or takes into, the vault.
  function Bridged(env: Env, item: Item, v: View): int {
    if Withdraws(env, item, v) then Units(item) else if Deposits(env, item, v) then 0 - Units(item) else 0
  }

  // ---- What every instruction does to the supply of a mint ----

  // What the vault lacks when the withdrawal is executed.
  function Shortfall(l: Accounts, ix: Bridge.Instruction): nat
    requires ix.WithdrawToken?
  {
    var amount, held := Bridge.UnitsMoved(ix), Balance(l, ix.vault);
    if held < amount then amount - held else 0
  }

  // Read off the instruction, and for a withdrawal off the vault before it.
  function Issued(s: Step, m: Address): int {
    match s.item.ix
    case BridgeIx(ix) =>
      if ix.WithdrawToken? && ix.mint == m then Shortfall(s.pre, ix)
      else if ix.DepositToken? && ix.mint == m && ix.tokenSeed.Some? then 0 - Bridge.UnitsMoved(ix)
      else 0
    case OutsideIx(c) =>
      if c.op.MintTo? && c.op.mint == m then c.op.amount
      else if c.op.Burn? && c.op.mint == m then 0 - c.op.amount
      else 0
    case _ => 0
  }

  lemma WithdrawalScriptIssues(env: Env, auth: Auth, l: Accounts, ix: Bridge.Instruction, p: Bridge.Parts, m: Address)
    requires ix.WithdrawToken? && ix.mint != m && Play(env, auth, l, Bridge.WithdrawTokenScript(env, ix, p), 0).Success?
    ensures Supply(Play(env, auth, l, Bridge.WithdrawTokenScript(env, ix, p), 0).value, m) == Supply(l, m)
  {
    PlayUntouched(env, auth, l, Bridge.WithdrawTokenScript(env, ix, p), 0, SupplyOf(m));
  }

  lemma WithdrawalIssues(env: Env, s: Step, m: Address)
    requires Valid(env, s) && s.item.ix.BridgeIx? && s.item.ix.bridge.WithdrawToken?
    ensures Supply(s.post, m) == Supply(s.pre, m) + Issued(s, m)
  {
    var ix := s.item.ix.bridge;
    var p := WithdrawalPlays(env, s);
    WithdrawalFacts(env, s);
    if ix.mint == m {
      ScriptMintsTheShortfall(env, AuthOf(env, s.item), s.pre, ix, p);
    } else {
      WithdrawalScriptIssues(env, AuthOf(env, s.item), s.pre, ix, p, m);
    }
  }

  lemma DepositScriptIssues(env: Env, auth: Auth, l: Accounts, ix: Bridge.Instruction, early: Option<Error>, m: Address)
    requires ix.DepositToken? && Play(env, auth, l, Bridge.DepositTokenScript(env, ix, early), 0).Success?
    ensures Supply(Play(env, auth, l, Bridge.DepositTokenScript(env, ix, early), 0).value, m)
            == Supply(l, m) - if ix.mint == m && ix.tokenSeed.Some? then Bridge.UnitsMoved(ix) else 0
  {
    var ops := Bridge.DepositTokenScript(env, ix, early);
    var before, after := Focus(env, auth, l, ops, 4, SupplyOf(m));
    if !(ix.mint == m && ix.tokenSeed.Some?) {
      SupplyUntouched(env, auth, before, ops[4], m);
    }
  }

  lemma DepositIssues(env: Env, s: Step, m: Address)
    requires Valid(env, s) && s.item.ix.BridgeIx? && s.item.ix.bridge.DepositToken?
    ensures Supply(s.post, m) == Supply(s.pre, m) + Issued(s, m)
  {
    var early := DepositPlays(env, s);
    DepositScriptIssues(env, AuthOf(env, s.item), s.pre, s.item.ix.bridge, early, m);
  }

  lemma OutsideIssues(env: Env, s: Step, m: Address)
    requires Valid(env, s) && s.item.ix.OutsideIx?
    ensures Supply(s.post, m) == Supply(s.pre, m) + Issued(s, m)
  {
    OutsideIsPermitted(env, s);
    if !Touches(AuthOf(env, s.item), s.item.ix.outside.op, SupplyOf(m)) {
      SupplyUntouched(env, AuthOf(env, s.item), s.pre, s.item.ix.outside.op, m);
    }
  }

  lemma PlayIssuesNothing(env: Env, auth: Auth, l: Accounts, ops: seq<Op>, m: Address)
    requires Play(env, auth, l, ops, 0).Success? && forall op <- ops :: !op.TopUp? && !op.MintTo? && !op.Burn?
    ensures Supply(Play(env, auth, l, ops, 0).value, m) == Supply(l, m)
  {
    PlayUntouched(env, auth, l, ops, 0, SupplyOf(m));
  }

  lemma CommissionNeverIssues(env: Env, l: Accounts, ix: Commission.Instruction)
    ensures forall op <- Commission.Ops(env, l, ix) :: !op.TopUp? && !op.MintTo? && !op.Burn?
  {
  }

  lemma CommissionIssuesNothing(env: Env, s: Step, m: Address)
    requires Valid(env, s) && s.item.ix.CommissionIx?
    ensures Supply(s.post, m) == Supply(s.pre, m)
  {
    CommissionNeverIssues(env, s.pre, s.item.ix.commission);
    PlayIssuesNothing(env, AuthOf(env, s.item), s.pre, Commission.Ops(env, s.pre, s.item.ix.commission), m);
  }

  lemma OtherBridgeIssuesNothing(env: Env, s: Step, m: Address)
    requires Valid(env, s) && s.item.ix.BridgeIx? && !s.item.ix.bridge.WithdrawToken? && !s.item.ix.bridge.DepositToken?
    ensures Supply(s.post, m) == Supply(s.pre, m)
  {
    NoTokenOps(env, s.pre, s.item.prior, s.item.ix.bridge);
    PlayIssuesNothing(env, AuthOf(env, s.item), s.pre, Bridge.Ops(env, s.pre, s.item.prior, s.item.ix.bridge), m);
  }

  lemma UpgradeIssuesNothing(env: Env, s: Step, m: Address)
    requires Valid(env, s) && s.item.ix.UpgradeIx?
    ensures Supply(s.post, m) == Supply(s.pre, m)
  {
    PlayUntouched(env, AuthOf(env, s.item), s.pre, Upgrade.Ops(env, s.pre, s.item.ix.upgrade), 0, SupplyOf(m));
  }

  /** One step changes the supply of a mint by exactly what its instruction says. */
  lemma SupplyChangesBy(env: Env, s: Step, m: Address)
    requires Valid(env, s)
    ensures Supply(s.post, m) == Supply(s.pre, m) + Issued(s, m)
  {
    match s.item.ix
    case BridgeIx(ix) =>
      if ix.WithdrawToken? { WithdrawalIssues(env, s, m); }
      else if ix.DepositToken? { DepositIssues(env, s, m); }
      else { OtherBridgeIssuesNothing(env, s, m); }
    case CommissionIx(_) => CommissionIssuesNothing(env, s, m);
    case UpgradeIx(_) => UpgradeIssuesNothing(env, s, m);
    case OutsideIx(_) => OutsideIssues(env, s, m);
    case SweepIx => SweepKeeps(env, s, m);
  }

  function AllIssued(steps: seq<Step>, m: Address): int {
    if steps == [] then 0 else Issued(steps[0], m) + AllIssued(steps[1..], m)
  }

  /** Over any run the supply of any mint is accounted for, instruction by instruction. */
  lemma {:induction false} SupplyIsAccountedFor(env: Env, l: Accounts, steps: seq<Step>, l': Accounts, m: Address)
    requires Run(env, l, steps, l')
    ensures Supply(l', m) == Supply(l, m) + AllIssued(steps, m)
    decreases |steps|
  {
    if steps != [] {
      SupplyChangesBy(env, steps[0], m);
      SupplyIsAccountedFor(env, steps[0].post, steps[1..], l', m);
    }
  }

  // What everything else does to the amount outside the vault: other issues and burns, less gifts to the vault.
  function Elsewhere(env: Env, s: Step, v: View): int {
    if Withdraws(env, s.item, v) || Deposits(env, s.item, v) then 0 else Issued(s, v.mint) - Gift(env, s.item, v)
  }

  function AllBridged(env: Env, steps: seq<Step>, v: View): int {
    if steps == [] then 0 else Bridged(env, steps[0].item, v) + AllBridged(env, steps[1..], v)
  }

  function AllElsewhere(env: Env, steps: seq<Step>, v: View): int {
    if steps == [] then 0 else Elsewhere(env, steps[0], v) + AllElsewhere(env, steps[1..], v)
  }

  lemma StepCirculation(env: Env, s: Step, v: View)
    requires Valid(env, s) && v.Sound(env, s.pre) && v.OfBridge(env)
    ensures v.Outside(env, s.post) == v.Outside(env, s.pre) + Bridged(env, s.item, v) + Elsewhere(env, s, v)
  {
    if Withdraws(env, s.item, v) {
      WithdrawalMintsTheShortfall(env, s, v);
    } else if Deposits(env, s.item, v) {
      DepositLeavesCirculation(env, s, v);
    } else {
      BridgeCollectsNoFees(env, s, v);
      OthersOnlyFillVault(env, s, v);
      SupplyChangesBy(env, s, v.mint);
    }
  }

  /** Circulation outside the vault is what it was, plus withdrawn, minus deposited, plus what others did,
      whichever of burn, lock, mint and unlock each step used. */
  lemma {:induction false} CirculationIsConserved(env: Env, l: Accounts, steps: seq<Step>, l': Accounts, v: View)
    requires Run(env, l, steps, l') && v.Sound(env, l) && v.OfBridge(env)
    ensures v.Sound(env, l')
    ensures v.Outside(env, l') == v.Outside(env, l) + AllBridged(env, steps, v) + AllElsewhere(env, steps, v)
    decreases |steps|
  {
    if steps != [] {
      StepCirculation(env, steps[0], v);
      StepKeepsSound(env, steps[0], v);
      CirculationIsConserved(env, steps[0].post, steps[1..], l', v);
    }
  }

  // ---- Minting never outruns demand ----

  // If the mint exists, only the bridge admin may mint.
  predicate Controlled(env: Env, l: Accounts, v: View) {
    DataAt(l, v.mint).MintData? ==> DataAt(l, v.mint).authority == Some(v.holder)
  }

  lemma ControlledBefore(env: Env, l: Accounts, l': Accounts, v: View)
    requires Evolves(DataAt(l, v.mint), DataAt(l', v.mint)) && DataAt(l', v.mint).MintData? && Controlled(env, l', v)
    ensures Controlled(env, l, v)
  {
  }

  // An operation that does not act for the admin cannot raise the supply.
  lemma OnlyAdminMints(env: Env, auth: Auth, l: Accounts, op: Op, v: View)
    requires Apply(env, auth, l, op).Success? && Controlled(env, l, v)
    requires op.TopUp? || op.MintTo? ==> op.authority != v.holder
    ensures Supply(Apply(env, auth, l, op).value, v.mint) <= Supply(l, v.mint)
  {
    if !Touches(auth, op, SupplyOf(v.mint)) {
      SupplyUntouched(env, auth, l, op, v.mint);
    }
  }

  // A script in which no operation mints for the admin.
  predicate MintsForOthers(env: Env, ops: seq<Op>, v: View) {
    forall j :: 0 <= j < |ops| && (ops[j].TopUp? || ops[j].MintTo?) && ops[j].mint == v.mint ==>
                  ops[j].authority != v.holder
  }

  lemma {:induction false} PlayMintsForOthers(env: Env, auth: Auth, l: Accounts, ops: seq<Op>, i: nat, v: View)
    requires i <= |ops| && Play(env, auth, l, ops, i).Success? && MintsForOthers(env, ops, v)
    requires var l' := Play(env, auth, l, ops, i).value; DataAt(l', v.mint).MintData? && Controlled(env, l', v)
    ensures Supply(Play(env, auth, l, ops, i).value, v.mint) <= Supply(l, v.mint)
    decreases |ops| - i
  {
    if i < |ops| {
      PlayEvolves(env, auth, l, ops, i);
      assert Evolves(DataAt(l, v.mint), DataAt(Play(env, auth, l, ops, i).value, v.mint));
      ControlledBefore(env, l, Play(env, auth, l, ops, i).value, v);
      if Touches(auth, ops[i], SupplyOf(v.mint)) {
        OnlyAdminMints(env, auth, l, ops[i], v);
      } else {
        SupplyUntouched(env, auth, l, ops[i], v.mint);
      }
      PlayMintsForOthers(env, auth, Apply(env, auth, l, ops[i]).value, ops, i + 1, v);
    }
  }

  lemma WithdrawalScriptMints(env: Env, ix: Bridge.Instruction, p: Bridge.Parts, v: View)
    requires ix.WithdrawToken? && !(ix.admin == v.holder && ix.mint == v.mint)
    ensures MintsForOthers(env, Bridge.WithdrawTokenScript(env, ix, p), v)
  {
  }

  lemma BridgeMintsForOthers(env: Env, l: Accounts, item: Item, v: View)
    requires item.ix.BridgeIx? && !Withdraws(env, item, v)
    ensures MintsForOthers(env, Bridge.Ops(env, l, item.prior, item.ix.bridge), v)
  {
    if item.ix.bridge.WithdrawToken? {
      WithdrawalScriptMints(env, item.ix.bridge, Bridge.PartsOf(env, l, item.ix.bridge), v);
    }
  }

  lemma CommissionMintsForOthers(env: Env, l: Accounts, ix: Commission.Instruction, v: View)
    ensures MintsForOthers(env, Commission.Ops(env, l, ix), v)
  {
  }

  lemma OutsideMintsForItself(env: Env, s: Step, v: View)
    requires Valid(env, s) && s.item.ix.OutsideIx? && Ours(env, v.holder)
    ensures MintsForOthers(env, OutsideOps(env, s.pre, s.item.ix.outside), v)
  {
    OutsideIsPermitted(env, s);
  }

  lemma OthersDoNotMint(env: Env, s: Step, v: View)
    requires Valid(env, s) && !Withdraws(env, s.item, v) && Ours(env, v.holder)
    requires DataAt(s.post, v.mint).MintData? && Controlled(env, s.post, v)
    ensures Supply(s.post, v.mint) <= Supply(s.pre, v.mint)
  {
    match s.item.ix {
      case BridgeIx(_) => BridgeMintsForOthers(env, s.pre, s.item, v);
      case CommissionIx(c) => CommissionMintsForOthers(env, s.pre, c, v);
      case UpgradeIx(_) =>
      case OutsideIx(_) => OutsideMintsForItself(env, s, v);
      case SweepIx => SweepKeeps(env, s, v.mint);
    }
    if !s.item.ix.SweepIx? {
      PlayMintsForOthers(env, AuthOf(env, s.item), s.pre, Ops(env, s.pre, s.item), 0, v);
    }
  }

  /** Over any run, the supply of a bridge-controlled mint never exceeds what it started with or,
      if that was more, the most that ever circulated outside the vault. */
  lemma {:induction false} MintingFollowsDemand(env: Env, l: Accounts, steps: seq<Step>, l': Accounts, v: View,
      bound: nat)
    requires Run(env, l, steps, l') && DataAt(l', v.mint).MintData? && Controlled(env, l', v) && v.OfBridge(env)
    requires Supply(l, v.mint) <= bound
    requires forall i :: 0 <= i < |steps| ==> v.Outside(env, steps[i].post) <= bound
    ensures Supply(l', v.mint) <= bound
    decreases |steps|
  {
    if steps != [] {
      var s, rest := steps[0], steps[1..];
      if Withdraws(env, s.item, v) {
        WithdrawalMintsTheShortfall(env, s, v);
      } else if DataAt(s.post, v.mint).MintData? {
        RunEvolves(env, s.post, rest, l', v.mint);
        ControlledBefore(env, s.post, l', v);
        OthersDoNotMint(env, s, v);
      }
      assert forall i :: 0 <= i < |rest| ==> rest[i] == steps[i + 1];
      MintingFollowsDemand(env, s.post, rest, l', v, bound);
    }
  }

  lemma {:induction false} ElsewhereNeverAdds(env: Env, l: Accounts, steps: seq<Step>, l': Accounts, v: View)
    requires Run(env, l, steps, l') && Controlled(env, l', v) && v.OfBridge(env)
    ensures AllElsewhere(env, steps, v) <= 0
    decreases |steps|
  {
    if steps != [] {
      var s := steps[0];
      if DataAt(s.post, v.mint).MintData? {
        RunEvolves(env, s.post, steps[1..], l', v.mint);
      }
      if DataAt(s.pre, v.mint).MintData? {
        StepEvolves(env, s, v.mint);
      }
      if !Withdraws(env, s.item, v) && DataAt(s.post, v.mint).MintData? {
        OthersDoNotMint(env, s, v);
      }
      SupplyChangesBy(env, s, v.mint);
      ElsewhereNeverAdds(env, s.post, steps[1..], l', v);
    }
  }

  /** An NFT that the bridge mints stays unique: if withdrawals never get more than one ahead of deposits,
      there is never more than one token. */
  lemma NftStaysUnique(env: Env, l: Accounts, steps: seq<Step>, l': Accounts, v: View)
    requires Run(env, l, steps, l') && v.Sound(env, l) && v.OfBridge(env)
    requires DataAt(l', v.mint).MintData? && Controlled(env, l', v)
    requires Supply(l, v.mint) == 0
    requires forall n :: 0 <= n <= |steps| ==> AllBridged(env, steps[..n], v) <= 1
    ensures Supply(l', v.mint) <= 1
  {
    forall i | 0 <= i < |steps| ensures v.Outside(env, steps[i].post) <= 1 {
      D.RunPrefix(Executor(env), l, steps, l', i);
      CirculationIsConserved(env, l, steps[..i + 1], steps[i].post, v);
      if DataAt(steps[i].post, v.mint).MintData? {
        RunEvolves(env, steps[i].post, steps[i + 1..], l', v.mint);
      }
      ElsewhereNeverAdds(env, l, steps[..i + 1], steps[i].post, v);
    }
    MintingFollowsDemand(env, l, steps, l', v, 1);
  }
}
