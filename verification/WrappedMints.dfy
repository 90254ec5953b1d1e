/** Who may mint at an address derived from the bridge: only bridge admins, in every reachable state. */
module WrappedMints {
  import opened Wrappers
  import opened Chain
  import opened Ledger
  import opened Gauges
  import opened Programs
  import opened Steps
  import opened Vaults
  import D = Driver
  import Bridge
  import Commission
  import Upgrade

  // If there is a mint here, a bridge admin is its authority; and no account waits here to become a mint.
  predicate MintedByBridge(env: Env, l: Accounts, key: Address) {
    DataAt(l, key) != Blank(MINT_SIZE)
    && (DataAt(l, key).MintData? ==>
          DataAt(l, key).authority.Some? && IsBridgeAdmin(env, DataAt(l, key).authority.value))
  }

  // A mint keeps its authority, and appears only in an account created for it.
  lemma ApplyKeepsAuthority(env: Env, auth: Auth, l: Accounts, op: Op, key: Address)
    requires Apply(env, auth, l, op).Success? && MintedByBridge(env, l, key)
    requires !(op.Create? && op.key == key && op.size == MINT_SIZE)
    ensures MintedByBridge(env, Apply(env, auth, l, op).value, key)
  {
    ApplyEvolves(env, auth, l, op);
    assert Evolves(DataAt(l, key), DataAt(Apply(env, auth, l, op).value, key));
  }

  predicate OpensNoMint(ops: seq<Op>, key: Address) {
    forall op <- ops :: !(op.Create? && op.key == key && op.size == MINT_SIZE)
  }

  lemma {:induction false} PlayKeepsAuthority(env: Env, auth: Auth, l: Accounts, ops: seq<Op>, i: nat, key: Address)
    requires i <= |ops| && Play(env, auth, l, ops, i).Success? && MintedByBridge(env, l, key) && OpensNoMint(ops, key)
    ensures MintedByBridge(env, Play(env, auth, l, ops, i).value, key)
    decreases |ops| - i
  {
    if i < |ops| {
      ApplyKeepsAuthority(env, auth, l, ops[i], key);
      PlayKeepsAuthority(env, auth, Apply(env, auth, l, ops[i]).value, ops, i + 1, key);
    }
  }

  lemma BridgeOpensNoMint(env: Env, l: Accounts, prior: Option<Bridge.Prior>, ix: Bridge.Instruction, key: Address)
    requires !ix.WithdrawToken?
    ensures OpensNoMint(Bridge.Ops(env, l, prior, ix), key)
  {
  }

  lemma CommissionOpensNoMint(env: Env, l: Accounts, ix: Commission.Instruction, key: Address)
    ensures OpensNoMint(Commission.Ops(env, l, ix), key)
  {
  }

  lemma UpgradeOpensNoMint(env: Env, l: Accounts, ix: Upgrade.Instruction, key: Address)
    ensures OpensNoMint(Upgrade.Ops(env, l, ix), key)
  {
  }

  lemma WithdrawalOpensNoMint(env: Env, ix: Bridge.Instruction, p: Bridge.Parts, key: Address)
    requires ix.WithdrawToken? && !(p.creates && ix.mint == key)
    ensures OpensNoMint(Bridge.WithdrawTokenScript(env, ix, p), key)
  {
  }

  // The mint a withdrawal opens is the withdrawing admin's from then on.
  lemma OpenedMintIsAdmins(env: Env, auth: Auth, l: Accounts, ix: Bridge.Instruction, ops: seq<Op>)
    requires ix.WithdrawToken? && |ops| > 3 && Play(env, auth, l, ops, 0).Success? && ops[0].Check?
    requires ops[1].Create? && ops[1].key == ix.mint && ops[2].InitMint? && ops[2].mint == ix.mint
    ensures DataAt(Play(env, auth, l, ops, 0).value, ix.mint).MintData?
    ensures DataAt(Play(env, auth, l, ops, 0).value, ix.mint).authority == Some(ops[2].authority)
  {
    var l1 := PlayOne(env, auth, l, ops, 0);
    var l2 := PlayOne(env, auth, l1, ops, 1);
    var l3 := PlayOne(env, auth, l2, ops, 2);
    PlayEvolves(env, auth, l3, ops, 3);
    assert Evolves(DataAt(l3, ix.mint), DataAt(Play(env, auth, l, ops, 0).value, ix.mint));
  }

  lemma WithdrawalScriptKeepsAuthority(env: Env, auth: Auth, l: Accounts, ix: Bridge.Instruction, p: Bridge.Parts,
                                       key: Address)
    requires ix.WithdrawToken? && IsBridgeAdmin(env, ix.admin) && MintedByBridge(env, l, key)
    requires Play(env, auth, l, Bridge.WithdrawTokenScript(env, ix, p), 0).Success?
    ensures MintedByBridge(env, Play(env, auth, l, Bridge.WithdrawTokenScript(env, ix, p), 0).value, key)
  {
    if p.creates && ix.mint == key {
      OpenedMintIsAdmins(env, auth, l, ix, Bridge.WithdrawTokenScript(env, ix, p));
    } else {
      WithdrawalOpensNoMint(env, ix, p, key);
      PlayKeepsAuthority(env, auth, l, Bridge.WithdrawTokenScript(env, ix, p), 0, key);
    }
  }

  lemma WithdrawalKeepsAuthority(env: Env, s: Step, key: Address)
    requires Valid(env, s) && s.item.ix.BridgeIx? && s.item.ix.bridge.WithdrawToken? && MintedByBridge(env, s.pre, key)
    ensures MintedByBridge(env, s.post, key)
  {
    var p := WithdrawalPlays(env, s);
    WithdrawalFacts(env, s);
    WithdrawalScriptKeepsAuthority(env, AuthOf(env, s.item), s.pre, s.item.ix.bridge, p, key);
  }

  // Only the bridge can open an account at an address derived from it.
  lemma OutsideKeepsAuthority(env: Env, s: Step, key: Address)
    requires Valid(env, s) && s.item.ix.OutsideIx? && Ours(env, key) && MintedByBridge(env, s.pre, key)
    ensures MintedByBridge(env, s.post, key)
  {
    OutsideIsPermitted(env, s);
    ApplyKeepsAuthority(env, AuthOf(env, s.item), s.pre, s.item.ix.outside.op, key);
  }

  lemma StepKeepsAuthority(env: Env, s: Step, key: Address)
    requires Valid(env, s) && Ours(env, key) && MintedByBridge(env, s.pre, key)
    ensures MintedByBridge(env, s.post, key)
  {
    var auth, ops := AuthOf(env, s.item), Ops(env, s.pre, s.item);
    match s.item.ix {
      case BridgeIx(ix) =>
        if ix.WithdrawToken? {
          WithdrawalKeepsAuthority(env, s, key);
        } else {
          BridgeOpensNoMint(env, s.pre, s.item.prior, ix, key);
          PlayKeepsAuthority(env, auth, s.pre, ops, 0, key);
        }
      case CommissionIx(ix) =>
        CommissionOpensNoMint(env, s.pre, ix, key);
        PlayKeepsAuthority(env, auth, s.pre, ops, 0, key);
      case UpgradeIx(ix) =>
        UpgradeOpensNoMint(env, s.pre, ix, key);
        PlayKeepsAuthority(env, auth, s.pre, ops, 0, key);
      case OutsideIx(_) => OutsideKeepsAuthority(env, s, key);
      case SweepIx => SweepKeeps(env, s, key);
    }
  }

  /** Whatever wallets and other programs do, at their own derived addresses or elsewhere, a mint at an address derived
      from the bridge has a bridge admin as its authority, in every reachable state. */
  lemma {:induction false} WrappedMintsAreControlled(env: Env, l: Accounts, steps: seq<Step>, l': Accounts,
                                                     key: Address)
    requires Run(env, l, steps, l') && key.Pda? && key.program == env.bridge && MintedByBridge(env, l, key)
    ensures MintedByBridge(env, l', key)
    decreases |steps|
  {
    if steps != [] {
      StepKeepsAuthority(env, steps[0], key);
      WrappedMintsAreControlled(env, steps[0].post, steps[1..], l', key);
    }
  }

  lemma BurningScript(env: Env, auth: Auth, l: Accounts, ix: Bridge.Instruction, early: Option<Error>)
    requires ix.DepositToken? && ix.tokenSeed.Some?
             && Play(env, auth, l, Bridge.DepositTokenScript(env, ix, early), 0).Success?
    ensures var l' := Play(env, auth, l, Bridge.DepositTokenScript(env, ix, early), 0).value;
            DataAt(l', ix.mint).MintData? && Supply(l', ix.mint) == Supply(l, ix.mint) - Bridge.UnitsMoved(ix)
  {
    var ops := Bridge.DepositTokenScript(env, ix, early);
    var before, after := Focus(env, auth, l, ops, 4, SupplyOf(ix.mint));
    ReachPlays(env, auth, l, ops, 0, 4);
    assert Play(env, auth, before, ops, 4) == Success(after);
  }

  /** A deposit that burns, burns tokens that only a bridge admin can have minted. */
  lemma BurntTokensWereWrapped(env: Env, l: Accounts, steps: seq<Step>, l': Accounts, i: nat)
    requires Run(env, l, steps, l') && i < |steps|
    requires steps[i].item.ix.BridgeIx? && steps[i].item.ix.bridge.DepositToken?
             && steps[i].item.ix.bridge.tokenSeed.Some?
    requires MintedByBridge(env, l, steps[i].item.ix.bridge.mint)
    ensures var s, mint := steps[i], steps[i].item.ix.bridge.mint;
            DataAt(s.post, mint).MintData? && DataAt(s.post, mint).authority.Some?
            && IsBridgeAdmin(env, DataAt(s.post, mint).authority.value)
            && Supply(s.post, mint) == Supply(s.pre, mint) - Units(s.item)
  {
    var s := steps[i];
    D.RunSplits(Executor(env), l, steps, l', i);
    var early := DepositPlays(env, s);
    DepositFacts(env, AuthOf(env, s.item), s.pre, s.item.ix.bridge, early);
    BurningScript(env, AuthOf(env, s.item), s.pre, s.item.ix.bridge, early);
    WrappedMintsAreControlled(env, l, steps[..i], s.pre, s.item.ix.bridge.mint);
    StepKeepsAuthority(env, s, s.item.ix.bridge.mint);
  }
}
