/** From a step that took effect back to the tree its signers signed, in all three programs. */
module Authorisation {
  import opened Wrappers
  import opened ByteStrings
  import opened Merkle
  import opened Chain
  import opened Ledger
  import opened Gauges
  import opened Programs
  import opened Steps
  import D = Driver
  import BridgeContent
  import CommissionContent
  import UpgradeContent
  import Bridge
  import Commission
  import Upgrade
  import Journal
  import Keys
  import NativeFlow
  import Nonces
  import UpgradeSafety
  import Vaults

  // What a step claims was signed, and the admin account whose key must have signed it.
  datatype Claim = Claim(content: Bytes, proof: Proof, signer: Address)

  predicate NeedsSignature(item: Item) {
    match item.ix
    case BridgeIx(b) => b.WithdrawNative? || b.WithdrawToken?
    case CommissionIx(c) => c.EditToken? || c.Withdraw?
    case UpgradeIx(u) => u.UpgradeProgram?
    case OutsideIx(_) => false
    case SweepIx => false
  }

  function BridgeClaim(env: Env, l: Accounts, ix: Bridge.Instruction): Option<Claim>
    requires ix.WithdrawNative? || ix.WithdrawToken?
  {
    if ix.WithdrawNative? then Some(Claim(BridgeContent.Encode(Bridge.NativeContent(env, ix)), ix.proof, ix.admin))
    else
      match Bridge.TransferOf(env, l, ix)
      case Failure(_) => None
      case Success(transfer) => Some(Claim(BridgeContent.Encode(Bridge.TokenContent(env, ix, transfer)), ix.proof,
                                           ix.admin))
  }

  function CommissionClaim(env: Env, l: Accounts, ix: Commission.Instruction): Option<Claim>
    requires ix.EditToken? || ix.Withdraw?
  {
    match ReadCommission(l, ix.admin)
    case None => None
    case Some(a) => Some(Claim(CommissionContent.Encode(Commission.ContentOf(env, a, ix)), ix.proof, ix.bridgeAdmin))
  }

  function UpgradeClaim(env: Env, l: Accounts, ix: Upgrade.Instruction): Option<Claim>
    requires ix.UpgradeProgram?
  {
    match ReadUpgrade(l, ix.admin)
    case None => None
    case Some(a) => Some(Claim(UpgradeContent.Encode(Upgrade.ContentOf(env, a, ix)), ix.proof, ix.admin))
  }

  function ClaimOf(env: Env, l: Accounts, item: Item): Option<Claim>
    requires NeedsSignature(item)
  {
    match item.ix
    case BridgeIx(b) => BridgeClaim(env, l, b)
    case CommissionIx(c) => CommissionClaim(env, l, c)
    case UpgradeIx(u) => UpgradeClaim(env, l, u)
    case _ => None
  }

  // The claim was checked, against the key its admin held just before.
  predicate Proved(env: Env, l: Accounts, claim: Option<Claim>) {
    claim.Some? && Keys.KeyIn(l, claim.value.signer).Some? && |claim.value.content| >= 102
    && ProofError(env, claim.value.content, claim.value.proof, Keys.KeyIn(l, claim.value.signer).value) == None
  }

  lemma NativeWithdrawalProved(env: Env, s: Step)
    requires Valid(env, s) && s.item.ix.BridgeIx? && s.item.ix.bridge.WithdrawNative?
    ensures Proved(env, s.pre, BridgeClaim(env, s.pre, s.item.ix.bridge))
  {
    NativeFlow.NativeWithdrawalPassed(env, s);
    BridgeContent.ContentIsLong(Bridge.NativeContent(env, s.item.ix.bridge));
  }

  lemma TokenWithdrawalProved(env: Env, s: Step)
    requires Valid(env, s) && s.item.ix.BridgeIx? && s.item.ix.bridge.WithdrawToken?
    ensures Proved(env, s.pre, BridgeClaim(env, s.pre, s.item.ix.bridge))
  {
    var ix := s.item.ix.bridge;
    var parts := Bridge.PartsOf(env, s.pre, ix);
    var ops := Bridge.WithdrawTokenScript(env, ix, parts);
    PlayChecks(env, AuthOf(env, s.item), s.pre, ops, 0);
    assert ops[0].error == None && ops[4].error == None;
    BridgeContent.ContentIsLong(Bridge.TokenContent(env, ix, Bridge.TransferOf(env, s.pre, ix).value));
  }

  lemma CommissionProved(env: Env, s: Step)
    requires Valid(env, s) && s.item.ix.CommissionIx?
             && (s.item.ix.commission.EditToken? || s.item.ix.commission.Withdraw?)
    ensures Proved(env, s.pre, CommissionClaim(env, s.pre, s.item.ix.commission))
  {
    var ix := s.item.ix.commission;
    Nonces.SignedStepAccepted(env, s);
    CommissionContent.ContentIsLong(Commission.ContentOf(env, ReadCommission(s.pre, ix.admin).value, ix));
  }

  lemma UpgradeProved(env: Env, s: Step)
    requires Valid(env, s) && UpgradeSafety.IsUpgrade(s.item)
    ensures Proved(env, s.pre, UpgradeClaim(env, s.pre, s.item.ix.upgrade))
  {
    UpgradeSafety.UpgradePasses(env, s);
    UpgradeContent.ContentIsLong(Upgrade.ContentOf(env, DataAt(s.pre, s.item.ix.upgrade.admin).upgrade,
                                                   s.item.ix.upgrade));
  }

  /** Every payout, list edit, fee withdrawal and upgrade that takes effect was proved under its admin's key. */
  lemma {:induction false} SignedStepsAreProved(env: Env, s: Step)
    requires Valid(env, s) && NeedsSignature(s.item)
    ensures Proved(env, s.pre, ClaimOf(env, s.pre, s.item))
  {
    match s.item.ix
    case BridgeIx(b) => if b.WithdrawNative? { NativeWithdrawalProved(env, s); } else { TokenWithdrawalProved(env, s); }
    case CommissionIx(_) => CommissionProved(env, s);
    case UpgradeIx(_) => UpgradeProved(env, s);
  }

  function RootOf(env: Env, claim: Claim): Bytes32 {
    Fold(env.keccak, env.keccak(claim.content), claim.proof.path)
  }

  /** The whole chain of trust, for any step of any run from any ledger: the root its claim folds to was signed with a
      key that rotations, each signed for by the key before, lead to from the key its admin had at the start or was
      last initialised with; and if that root is the root of a tree of contents, the claimed content is one of them,
      or two colliding inputs are at hand. */
  lemma {:induction false} StepsAreAuthorised(env: Env, l: Accounts, steps: seq<Step>, l': Accounts, i: nat, t: Tree)
    returns (key: Bytes)
    requires Run(env, l, steps, l') && i < |steps| && NeedsSignature(steps[i].item)
    ensures ClaimOf(env, steps[i].pre, steps[i].item).Some?
    ensures var claim := ClaimOf(env, steps[i].pre, steps[i].item).value;
            env.recover(RootOf(env, claim), claim.proof.recoveryId, claim.proof.signature) == Some(key)
            && Keys.KeyIn(steps[i].pre, claim.signer) == Some(key)
            && (Ours(env, claim.signer) ==>
                  Keys.Provenance(env, l, steps[..i], claim.signer, key, Keys.FixedIn(steps[i].pre, claim.signer)))
            && (RootOf(env, claim) == Root(env.keccak, t) && LeavesNotNodeSized(t) ==>
                  claim.content in Leaves(t)
                  || Collides(env.keccak, FindCollision(env.keccak, t, claim.content, claim.proof.path)))
  {
    D.RunSplits(Executor(env), l, steps, l', i);
    SignedStepsAreProved(env, steps[i]);
    var claim := ClaimOf(env, steps[i].pre, steps[i].item).value;
    key := Keys.KeyIn(steps[i].pre, claim.signer).value;
    if Ours(env, claim.signer) {
      Keys.KeysHaveProvenance(env, l, steps[..i], steps[i].pre, claim.signer);
    }
    if RootOf(env, claim) == Root(env.keccak, t) && LeavesNotNodeSized(t) {
      ProvedContentIsSigned(env, claim.content, claim.proof, key, t);
    }
  }

  /** Payouts and upgrades always name an admin at an address of ours, so their key always has such a provenance. */
  lemma SignersAreOurs(env: Env, s: Step)
    requires Valid(env, s) && NeedsSignature(s.item) && !s.item.ix.CommissionIx?
    ensures ClaimOf(env, s.pre, s.item).Some? && Ours(env, ClaimOf(env, s.pre, s.item).value.signer)
  {
    SignedStepsAreProved(env, s);
    match s.item.ix
    case BridgeIx(ix) =>
      if ix.WithdrawNative? {
        NativeFlow.NativeWithdrawalPassed(env, s);
      } else {
        Vaults.WithdrawalFacts(env, s);
      }
    case UpgradeIx(_) => UpgradeSafety.UpgradePasses(env, s);
  }

  // A claimed bridge content carries the withdrawal's origin in its fixed-width tail.
  lemma ClaimedOrigin(env: Env, s: Step) returns (c: BridgeContent.Content)
    requires Valid(env, s) && Journal.IsWithdrawal(s.item)
    ensures c.origin == Journal.RecordOf(s.item).origin
    ensures ClaimOf(env, s.pre, s.item).Some? && ClaimOf(env, s.pre, s.item).value.content == BridgeContent.Encode(c)
  {
    SignedStepsAreProved(env, s);
    var ix := s.item.ix.bridge;
    if ix.WithdrawNative? {
      c := Bridge.NativeContent(env, ix);
    } else {
      c := Bridge.TokenContent(env, ix, Bridge.TransferOf(env, s.pre, ix).value);
    }
  }

  /** No bridge content is accepted twice: not by another admin, and not as a transfer of another kind. */
  lemma {:induction false} NoBridgeContentAcceptedTwice(env: Env, l: Accounts, steps: seq<Step>, l': Accounts,
      i: nat, j: nat)
    requires Run(env, l, steps, l') && i < j < |steps|
    requires Journal.IsWithdrawal(steps[i].item) && Journal.IsWithdrawal(steps[j].item)
    ensures ClaimOf(env, steps[i].pre, steps[i].item).Some? && ClaimOf(env, steps[j].pre, steps[j].item).Some?
    ensures ClaimOf(env, steps[i].pre, steps[i].item).value.content
            != ClaimOf(env, steps[j].pre, steps[j].item).value.content
  {
    D.RunBetween(Executor(env), l, steps, l', i, j);
    var c := ClaimedOrigin(env, steps[i]);
    var d := ClaimedOrigin(env, steps[j]);
    Journal.OriginsPaidOnce(env, l, steps, l', i, j);
    if BridgeContent.Encode(c) == BridgeContent.Encode(d) {
      BridgeContent.TailDecodes(c, d);
    }
  }
}
