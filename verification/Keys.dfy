/** Admin keys: each one was signed for by its predecessor, and what initialisation fixes never changes. */
module Keys {
  import opened Wrappers
  import opened ByteStrings
  import opened Chain
  import opened Ledger
  import opened Gauges
  import opened Programs
  import opened Steps
  import D = Driver
  import Bridge
  import Commission
  import Upgrade

  datatype Rotation = Rotation(newKey: Bytes, signature: Bytes, recoveryId: byte)

  // Every key in the chain was verified under the one before it.
  predicate Linked(env: Env, key: Bytes, rotations: seq<Rotation>)
    decreases |rotations|
  {
    rotations == []
    || (env.recover(env.keccak(rotations[0].newKey), rotations[0].recoveryId, rotations[0].signature) == Some(key)
        && Linked(env, rotations[0].newKey, rotations[1..]))
  }

  function LastKey(key: Bytes, rotations: seq<Rotation>): Bytes
    decreases |rotations|
  {
    if rotations == [] then key else LastKey(rotations[0].newKey, rotations[1..])
  }

  // The rotation a step performs on the bridge or upgrade admin at `admin`, if any.
  function RotationOf(item: Item, admin: Address): Option<Rotation> {
    match item.ix
    case BridgeIx(TransferOwnership(a, _, newKey, signature, recoveryId)) =>
      if a == admin then Some(Rotation(newKey, signature, recoveryId)) else None
    case UpgradeIx(TransferOwnership(a, newKey, signature, recoveryId)) =>
      if a == admin then Some(Rotation(newKey, signature, recoveryId)) else None
    case _ => None
  }

  function Rotations(steps: seq<Step>, admin: Address): seq<Rotation> {
    if steps == [] then []
    else (var r := RotationOf(steps[0].item, admin); if r.Some? then [r.value] else []) + Rotations(steps[1..], admin)
  }

  // ---- Each address is initialised at most once ----

  // The account an instruction initialises, in any of the three programs.
  function Initialises(ix: Instruction): Option<Address> {
    match ix
    case BridgeIx(b) => if b.InitializeAdmin? then Some(b.admin) else None
    case CommissionIx(c) => if c.InitializeAdmin? then Some(c.admin) else None
    case UpgradeIx(u) => if u.InitializeAdmin? then Some(u.admin) else None
    case OutsideIx(_) => None
    case SweepIx => None
  }

  lemma CreatedWasEmpty(env: Env, auth: Auth, l: Accounts, ops: seq<Op>, p: nat)
    requires p < |ops| && ops[p].Create? && Play(env, auth, l, ops, 0).Success?
    ensures DataAt(l, ops[p].key).Blank?
    ensures !Owned(DataAt(l, ops[p].key))
  {
    ReachPlays(env, auth, l, ops, 0, p);
    assert Evolves(DataAt(l, ops[p].key), DataAt(Reach(env, auth, l, ops, 0, p), ops[p].key));
  }

  lemma InitialisesFreshAccount(env: Env, s: Step)
    requires Valid(env, s) && Initialises(s.item.ix).Some?
    ensures !Owned(DataAt(s.pre, Initialises(s.item.ix).value)) && Owned(DataAt(s.post, Initialises(s.item.ix).value))
  {
    var ops := Ops(env, s.pre, s.item);
    CreatedWasEmpty(env, AuthOf(env, s.item), s.pre, ops, 1);
    StoresLast(env, s.pre, s.item);
    LastStoreWins(env, AuthOf(env, s.item), s.pre, ops, Initialises(s.item.ix).value);
  }

  /** Initialisation succeeds at most once per address and life of its account, whichever program's admin it is for:
      a second one needs the account to have been dropped in between, for want of lamports, and an upgrade admin
      never is. */
  lemma InitialisedOnce(env: Env, l: Accounts, steps: seq<Step>, l': Accounts, i: nat, j: nat)
    requires Run(env, l, steps, l') && i < j < |steps|
    requires Initialises(steps[i].item.ix).Some? && Initialises(steps[j].item.ix).Some?
    ensures Initialises(steps[i].item.ix) == Initialises(steps[j].item.ix) ==>
              !steps[i].item.ix.UpgradeIx? && !Kept(env, steps[i + 1..j], Initialises(steps[i].item.ix).value)
  {
    D.RunBetween(Executor(env), l, steps, l', i, j);
    InitialisesFreshAccount(env, steps[i]);
    InitialisesFreshAccount(env, steps[j]);
    var key := Initialises(steps[i].item.ix).value;
    if steps[i].item.ix.UpgradeIx? {
      InitialisedUpgradeAdmin(env, steps[i]);
    }
    if steps[i].item.ix.UpgradeIx? || Kept(env, steps[i + 1..j], key) {
      RunEvolves(env, steps[i].post, steps[i + 1..j], steps[j].pre, key);
    }
  }

  lemma InitialisedUpgradeAdmin(env: Env, s: Step)
    requires Valid(env, s) && s.item.ix.UpgradeIx? && s.item.ix.upgrade.InitializeAdmin?
    ensures Ours(env, s.item.ix.upgrade.admin) && DataAt(s.post, s.item.ix.upgrade.admin).UpgradeData?
  {
    var ops := Ops(env, s.pre, s.item);
    PlayChecks(env, AuthOf(env, s.item), s.pre, ops, 0);
    assert ops[0].error == None;
    StoresLast(env, s.pre, s.item);
    LastStoreWins(env, AuthOf(env, s.item), s.pre, ops, s.item.ix.upgrade.admin);
  }

  // ---- Bridge and upgrade admins ----

  function KeyIn(l: Accounts, admin: Address): Option<Bytes> {
    match DataAt(l, admin)
    case BridgeData(a) => Some(a.publicKey)
    case UpgradeData(a) => Some(a.publicKey)
    case _ => None
  }

  // What initialisation fixes: a bridge admin's commission program, an upgrade admin's contract.
  function FixedIn(l: Accounts, admin: Address): Option<Address> {
    match DataAt(l, admin)
    case BridgeData(a) => Some(a.commissionProgram)
    case UpgradeData(a) => Some(a.contract)
    case _ => None
  }

  predicate Initialised(l: Accounts, admin: Address) {
    match DataAt(l, admin)
    case BridgeData(a) => a.isInitialized
    case UpgradeData(a) => a.isInitialized
    case _ => false
  }

  lemma BridgeStores(env: Env, l: Accounts, prior: Option<Bridge.Prior>, ix: Bridge.Instruction)
    ensures StoresOnlyLast(Bridge.Ops(env, l, prior, ix))
    ensures var last := Last(Bridge.Ops(env, l, prior, ix));
            last.Store? && !last.data.WithdrawData? ==>
              last.key == ix.admin && (ix.InitializeAdmin? || ix.TransferOwnership?)
              && (ix.TransferOwnership? ==>
                    Bridge.Rotated(env, l, ix).Success? && last.data == BridgeData(Bridge.Rotated(env, l, ix).value))
  {
  }

  lemma UpgradeStores(env: Env, l: Accounts, ix: Upgrade.Instruction)
    ensures StoresOnlyLast(Upgrade.Ops(env, l, ix))
    ensures var last := Last(Upgrade.Ops(env, l, ix));
            last.Store? ==>
              last.key == ix.admin
              && (ix.TransferOwnership? ==>
                    Upgrade.Rotated(env, l, ix).Success? && last.data == UpgradeData(Upgrade.Rotated(env, l, ix).value))
              && (ix.UpgradeProgram? ==>
                    Upgrade.Upgraded(env, l, ix).Success?
                    && last.data == UpgradeData(Upgrade.Upgraded(env, l, ix).value))
  {
  }

  // A rotation that takes effect was signed for by the stored key.
  lemma RotationIsSigned(env: Env, s: Step, admin: Address)
    requires Valid(env, s) && RotationOf(s.item, admin).Some?
    ensures var r := RotationOf(s.item, admin).value;
            KeyIn(s.pre, admin).Some?
            && env.recover(env.keccak(r.newKey), r.recoveryId, r.signature) == KeyIn(s.pre, admin)
    ensures KeyIn(s.post, admin) == Some(RotationOf(s.item, admin).value.newKey)
            && FixedIn(s.post, admin) == FixedIn(s.pre, admin)
    ensures Initialised(s.pre, admin) && Initialised(s.post, admin)
  {
    var ops := Ops(env, s.pre, s.item);
    PlayChecks(env, AuthOf(env, s.item), s.pre, ops, 0);
    assert ops[0].Check? ==> ops[0].error == None;
    StoresLast(env, s.pre, s.item);
    LastStoreWins(env, AuthOf(env, s.item), s.pre, ops, admin);
  }

  lemma OtherStores(env: Env, l: Accounts, item: Item, admin: Address)
    requires KeyIn(l, admin).Some? && RotationOf(item, admin).None?
    requires !item.ix.OutsideIx? && !item.ix.SweepIx?
    ensures StoresOnlyLast(Ops(env, l, item))
    ensures var last := Last(Ops(env, l, item));
            last.Store? && last.key == admin && Writable(DataAt(l, admin), last.data) ==>
              Initialises(item.ix) == Some(admin)
              || (last.data.UpgradeData? && DataAt(l, admin).UpgradeData?
                  && last.data.upgrade.publicKey == DataAt(l, admin).upgrade.publicKey
                  && last.data.upgrade.contract == DataAt(l, admin).upgrade.contract
                  && last.data.upgrade.isInitialized == DataAt(l, admin).upgrade.isInitialized)
  {
    StoresLast(env, l, item);
    match item.ix
    case BridgeIx(b) => BridgeStores(env, l, item.prior, b);
    case UpgradeIx(u) => UpgradeStores(env, l, u);
    case CommissionIx(c) => StoredIsCommission(env, l, c);
  }

  lemma StoredIsCommission(env: Env, l: Accounts, ix: Commission.Instruction)
    ensures var ops := Commission.Ops(env, l, ix); |ops| > 0 && (Last(ops).Store? ==> Last(ops).data.CommissionData?)
  {
  }

  lemma OthersKeepKey(env: Env, s: Step, admin: Address)
    requires Valid(env, s) && Ours(env, admin) && KeyIn(s.pre, admin).Some? && RotationOf(s.item, admin).None?
    requires !Drops(env, s, admin)
    ensures KeyIn(s.post, admin) == KeyIn(s.pre, admin) && FixedIn(s.post, admin) == FixedIn(s.pre, admin)
    ensures Initialised(s.post, admin) == Initialised(s.pre, admin)
  {
    if s.item.ix.SweepIx? {
      SweepKeeps(env, s, admin);
    } else {
      StoresLast(env, s.pre, s.item);
      LastStoreWins(env, AuthOf(env, s.item), s.pre, Ops(env, s.pre, s.item), admin);
      if s.item.ix.OutsideIx? {
        OutsideIsPermitted(env, s);
      } else {
        OtherStores(env, s.pre, s.item, admin);
      }
      if Initialises(s.item.ix) == Some(admin) {
        InitialisesFreshAccount(env, s);
      }
    }
  }

  // One step, with or without a rotation.
  lemma StepLinksKey(env: Env, s: Step, admin: Address)
    requires Valid(env, s) && Ours(env, admin) && KeyIn(s.pre, admin).Some? && !Drops(env, s, admin)
    ensures FixedIn(s.post, admin) == FixedIn(s.pre, admin) && Initialised(s.post, admin) == Initialised(s.pre, admin)
    ensures match RotationOf(s.item, admin)
            case None => KeyIn(s.post, admin) == KeyIn(s.pre, admin)
            case Some(r) =>
              KeyIn(s.post, admin) == Some(r.newKey)
              && env.recover(env.keccak(r.newKey), r.recoveryId, r.signature) == KeyIn(s.pre, admin)
  {
    if RotationOf(s.item, admin).Some? {
      RotationIsSigned(env, s, admin);
    } else {
      OthersKeepKey(env, s, admin);
    }
  }

  /** While its account is kept, an admin's key is reached from its initial key by rotations each verified under
      the key before, and its commission program (bridge) or contract (upgrade) is the initial one. */
  lemma {:induction false} KeysAreLinked(env: Env, l: Accounts, steps: seq<Step>, l': Accounts, admin: Address)
    requires Run(env, l, steps, l') && Ours(env, admin) && KeyIn(l, admin).Some?
    requires Kept(env, steps, admin) || DataAt(l, admin).UpgradeData?
    ensures Linked(env, KeyIn(l, admin).value, Rotations(steps, admin))
    ensures KeyIn(l', admin) == Some(LastKey(KeyIn(l, admin).value, Rotations(steps, admin)))
    ensures FixedIn(l', admin) == FixedIn(l, admin)
    decreases |steps|
  {
    if steps != [] {
      var s := steps[0];
      assert s in steps;
      StepLinksKey(env, s, admin);
      StepEvolves(env, s, admin);
      KeysAreLinked(env, s.post, steps[1..], l', admin);
      UnfoldRotations(env, steps, admin, KeyIn(l, admin).value);
    }
  }

  lemma UnfoldRotations(env: Env, steps: seq<Step>, admin: Address, key: Bytes)
    requires steps != []
    ensures var rest := Rotations(steps[1..], admin);
            match RotationOf(steps[0].item, admin)
            case None => Rotations(steps, admin) == rest
            case Some(r) =>
              (Linked(env, key, Rotations(steps, admin))
               <==> (env.recover(env.keccak(r.newKey), r.recoveryId, r.signature) == Some(key)
                     && Linked(env, r.newKey, rest)))
              && LastKey(key, Rotations(steps, admin)) == LastKey(r.newKey, rest)
  {
    var rest := Rotations(steps[1..], admin);
    match RotationOf(steps[0].item, admin)
    case None => assert Rotations(steps, admin) == rest;
    case Some(r) =>
      assert Rotations(steps, admin) == [r] + rest;
      assert ([r] + rest)[1..] == rest;
  }

  // ---- Admins initialised within the run ----

  // The key, and what is fixed beside it, that an initialisation of `admin` is given.
  function InitialKey(ix: Instruction, admin: Address): Option<Bytes> {
    match ix
    case BridgeIx(InitializeAdmin(a, _, _, key, _)) => if a == admin then Some(key) else None
    case UpgradeIx(InitializeAdmin(a, _, key, _)) => if a == admin then Some(key) else None
    case _ => None
  }

  function InitialFixed(ix: Instruction, admin: Address): Option<Address> {
    match ix
    case BridgeIx(InitializeAdmin(a, _, _, _, program)) => if a == admin then Some(program) else None
    case UpgradeIx(InitializeAdmin(a, _, _, contract)) => if a == admin then Some(contract) else None
    case _ => None
  }

  lemma InitialisationInstalls(env: Env, s: Step, admin: Address)
    requires Valid(env, s) && InitialKey(s.item.ix, admin).Some?
    ensures KeyIn(s.post, admin) == InitialKey(s.item.ix, admin)
            && FixedIn(s.post, admin) == InitialFixed(s.item.ix, admin)
    ensures s.item.ix.BridgeIx? <==> DataAt(s.post, admin).BridgeData?
  {
    StoresLast(env, s.pre, s.item);
    LastStoreWins(env, AuthOf(env, s.item), s.pre, Ops(env, s.pre, s.item), admin);
  }

  // A key appears at an address of ours only by initialisation.
  lemma KeyAppears(env: Env, s: Step, admin: Address)
    requires Valid(env, s) && Ours(env, admin) && KeyIn(s.pre, admin).None? && KeyIn(s.post, admin).Some?
    ensures InitialKey(s.item.ix, admin).Some?
  {
    if s.item.ix.SweepIx? {
      SweepKeeps(env, s, admin);
    } else {
      StoresLast(env, s.pre, s.item);
      LastStoreWins(env, AuthOf(env, s.item), s.pre, Ops(env, s.pre, s.item), admin);
    }
    match s.item.ix
    case OutsideIx(_) => OutsideIsPermitted(env, s);
    case BridgeIx(b) =>
      BridgeStores(env, s.pre, s.item.prior, b);
      if RotationOf(s.item, admin).Some? { RotationIsSigned(env, s, admin); }
    case UpgradeIx(u) =>
      UpgradeStores(env, s.pre, u);
      if RotationOf(s.item, admin).Some? { RotationIsSigned(env, s, admin); }
    case CommissionIx(c) => StoredIsCommission(env, s.pre, c);
    case SweepIx =>
  }

  // A key, and what is fixed beside it, that verified rotations lead to from `first`, the account being kept.
  predicate Descends(env: Env, steps: seq<Step>, admin: Address, first: Bytes, key: Bytes) {
    Kept(env, steps, admin)
    && Linked(env, first, Rotations(steps, admin)) && key == LastKey(first, Rotations(steps, admin))
  }

  // Where a key comes from: the key at the start, or the one given at the account's last initialisation, and
  // verified rotations since.
  ghost predicate Provenance(env: Env, l: Accounts, steps: seq<Step>, admin: Address, key: Bytes,
                             fixed: Option<Address>) {
    (KeyIn(l, admin).Some? && Descends(env, steps, admin, KeyIn(l, admin).value, key) && fixed == FixedIn(l, admin))
    || exists k ::
         0 <= k < |steps| && InitialKey(steps[k].item.ix, admin).Some?
         && Descends(env, steps[k + 1..], admin, InitialKey(steps[k].item.ix, admin).value, key)
         && fixed == InitialFixed(steps[k].item.ix, admin)
  }

  // A life that begins after the first step of a run.
  lemma LaterLife(env: Env, l: Accounts, steps: seq<Step>, admin: Address, key: Bytes, fixed: Option<Address>, k: nat)
    requires k + 1 < |steps| && InitialKey(steps[1..][k].item.ix, admin).Some?
    requires Descends(env, steps[1..][k + 1..], admin, InitialKey(steps[1..][k].item.ix, admin).value, key)
    requires fixed == InitialFixed(steps[1..][k].item.ix, admin)
    ensures Provenance(env, l, steps, admin, key, fixed)
  {
    assert steps[1..][k] == steps[k + 1] && steps[1..][k + 1..] == steps[k + 2..];
    assert InitialKey(steps[k + 1].item.ix, admin).Some?;
  }

  // A life that goes on through the first step, or begins with it.
  lemma ThisLife(env: Env, l: Accounts, steps: seq<Step>, admin: Address, key: Bytes, fixed: Option<Address>)
    requires steps != [] && steps[0].pre == l && Valid(env, steps[0]) && Ours(env, admin)
    requires KeyIn(steps[0].post, admin).Some? && fixed == FixedIn(steps[0].post, admin)
    requires Descends(env, steps[1..], admin, KeyIn(steps[0].post, admin).value, key)
    ensures Provenance(env, l, steps, admin, key, fixed)
  {
    var s := steps[0];
    if KeyIn(l, admin).None? {
      KeyAppears(env, s, admin);
      InitialisationInstalls(env, s, admin);
      assert InitialKey(steps[0].item.ix, admin).Some?;
    } else {
      if Drops(env, s, admin) {
        SweepKeeps(env, s, admin);
      }
      StepLinksKey(env, s, admin);
      UnfoldRotations(env, steps, admin, KeyIn(l, admin).value);
      assert steps == [s] + steps[1..];
    }
  }

  /** In every state reached from any ledger, the empty one included, every admin's key has such a provenance. */
  lemma {:induction false} KeysHaveProvenance(env: Env, l: Accounts, steps: seq<Step>, l': Accounts, admin: Address)
    requires Run(env, l, steps, l') && Ours(env, admin) && KeyIn(l', admin).Some?
    ensures Provenance(env, l, steps, admin, KeyIn(l', admin).value, FixedIn(l', admin))
    decreases |steps|
  {
    if steps != [] {
      var s, rest, key, fixed := steps[0], steps[1..], KeyIn(l', admin).value, FixedIn(l', admin);
      KeysHaveProvenance(env, s.post, rest, l', admin);
      if k: nat :| k < |rest| && InitialKey(rest[k].item.ix, admin).Some?
                   && Descends(env, rest[k + 1..], admin, InitialKey(rest[k].item.ix, admin).value, key)
                   && fixed == InitialFixed(rest[k].item.ix, admin)
      {
        LaterLife(env, l, steps, admin, key, fixed, k);
      } else {
        ThisLife(env, l, steps, admin, key, fixed);
      }
    }
  }

  /** An admin that came to be within the run has the key it was last initialised with, or one that verified rotations
      lead to from there; its commission program or contract is the one given then. */
  lemma KeysStartAtInitialisation(env: Env, l: Accounts, steps: seq<Step>, l': Accounts, admin: Address)
    returns (k: nat)
    requires Run(env, l, steps, l') && Ours(env, admin) && KeyIn(l, admin).None? && KeyIn(l', admin).Some?
    ensures k < |steps| && InitialKey(steps[k].item.ix, admin).Some?
    ensures Descends(env, steps[k + 1..], admin, InitialKey(steps[k].item.ix, admin).value, KeyIn(l', admin).value)
    ensures FixedIn(l', admin) == InitialFixed(steps[k].item.ix, admin)
  {
    KeysHaveProvenance(env, l, steps, l', admin);
    k :| k < |steps| && InitialKey(steps[k].item.ix, admin).Some?
         && Descends(env, steps[k + 1..], admin, InitialKey(steps[k].item.ix, admin).value, KeyIn(l', admin).value)
         && FixedIn(l', admin) == InitialFixed(steps[k].item.ix, admin);
  }
}
