/** A rotation message carries no nonce: when one that was accepted is accepted again. */
module RepeatedRotations {
  import opened Wrappers
  import opened ByteStrings
  import opened Chain
  import opened Ledger
  import opened Gauges
  import opened Programs
  import opened Steps
  import opened Keys
  import D = Driver
  import Bridge
  import Ownership
  import Upgrade

  // An admin as its program leaves it: initialised, at an address of its own kind, and the program's.
  predicate Proper(env: Env, l: Accounts, admin: Address) {
    match DataAt(l, admin)
    case BridgeData(a) =>
      a.isInitialized && Get(l, admin).owner == env.bridge && admin.Pda? && |admin.seeds| == 1
    case UpgradeData(a) =>
      a.isInitialized && Get(l, admin).owner == env.upgrade && admin == UpgradeKey(env, a.contract)
    case _ => true
  }

  lemma InitialisationIsProper(env: Env, s: Step, admin: Address)
    requires Valid(env, s) && InitialKey(s.item.ix, admin).Some?
    ensures Proper(env, s.post, admin)
  {
    var ops := Ops(env, s.pre, s.item);
    PlayChecks(env, AuthOf(env, s.item), s.pre, ops, 0);
    assert ops[0].error == None;
    StoresLast(env, s.pre, s.item);
    LastStoreWins(env, AuthOf(env, s.item), s.pre, ops, admin);
    Ownership.LastStoreBelongs(env, AuthOf(env, s.item), s.pre, ops, admin);
  }

  lemma StepKeepsProper(env: Env, s: Step, admin: Address)
    requires Valid(env, s) && Ours(env, admin) && Proper(env, s.pre, admin)
    ensures Proper(env, s.post, admin)
  {
    if KeyIn(s.pre, admin).None? {
      if KeyIn(s.post, admin).Some? {
        KeyAppears(env, s, admin);
        InitialisationIsProper(env, s, admin);
      }
    } else if Drops(env, s, admin) {
      SweepKeeps(env, s, admin);
    } else {
      StepLinksKey(env, s, admin);
      StepEvolves(env, s, admin);
      Ownership.StepKeepsOwner(env, s, admin);
    }
  }

  lemma {:induction false} RunKeepsProper(env: Env, l: Accounts, steps: seq<Step>, l': Accounts, admin: Address)
    requires Run(env, l, steps, l') && Ours(env, admin) && Proper(env, l, admin)
    ensures Proper(env, l', admin)
    decreases |steps|
  {
    if steps != [] {
      StepKeepsProper(env, steps[0], admin);
      RunKeepsProper(env, steps[0].post, steps[1..], l', admin);
    }
  }

  // What is checked of a rotation that has passed once, in a later state.
  lemma BridgeRotationIff(env: Env, l: Accounts, m: Accounts, item: Item)
    requires item.ix.BridgeIx? && item.ix.bridge.TransferOwnership? && Exec(env, l, item).Success?
    requires Proper(env, m, item.ix.bridge.admin)
    ensures Exec(env, m, item).Success? <==> KeyIn(m, item.ix.bridge.admin) == KeyIn(l, item.ix.bridge.admin)
  {
    var ix := item.ix.bridge;
    BridgeRotationPlays(env, l, item);
    BridgeRotationPlays(env, m, item);
    RotationIsSigned(env, D.Step(item, l, Exec(env, l, item).value), ix.admin);
    assert ix.admin == BridgeKey(env, ix.seeds);
  }

  lemma BridgeRotationPlays(env: Env, l: Accounts, item: Item)
    requires item.ix.BridgeIx? && item.ix.bridge.TransferOwnership?
    ensures Exec(env, l, item).Success?
            <==> Outsiders(env, item.signers) && Bridge.Rotated(env, l, item.ix.bridge).Success?
                 && DataAt(l, item.ix.bridge.admin).BridgeData?
                 && Get(l, item.ix.bridge.admin).owner == env.bridge
  {
    var ix := item.ix.bridge;
    PlayLast(env, AuthOf(env, item), l, Bridge.TransferOwnershipScript(ix, Bridge.Rotated(env, l, ix)));
  }

  lemma UpgradeRotationPlays(env: Env, l: Accounts, item: Item)
    requires item.ix.UpgradeIx? && item.ix.upgrade.TransferOwnership?
    ensures Exec(env, l, item).Success?
            <==> Outsiders(env, item.signers) && Upgrade.Rotated(env, l, item.ix.upgrade).Success?
                 && DataAt(l, item.ix.upgrade.admin).UpgradeData?
                 && Get(l, item.ix.upgrade.admin).owner == env.upgrade
  {
    var ix := item.ix.upgrade;
    PlayLast(env, AuthOf(env, item), l, Upgrade.TransferOwnershipScript(ix, Upgrade.Rotated(env, l, ix)));
  }

  lemma UpgradeRotationIff(env: Env, l: Accounts, m: Accounts, item: Item)
    requires item.ix.UpgradeIx? && item.ix.upgrade.TransferOwnership? && Exec(env, l, item).Success?
    requires Proper(env, m, item.ix.upgrade.admin)
    ensures Exec(env, m, item).Success? <==> KeyIn(m, item.ix.upgrade.admin) == KeyIn(l, item.ix.upgrade.admin)
  {
    var ix := item.ix.upgrade;
    UpgradeRotationPlays(env, l, item);
    UpgradeRotationPlays(env, m, item);
    RotationIsSigned(env, D.Step(item, l, Exec(env, l, item).value), ix.admin);
    assert |ix.admin.seeds| == 2;
  }

  /** At any later point of a run, a rotation that took effect would take effect again if and only if the key then
      stored is the one that was stored when it did: with its signature it is good for as often as that key returns. */
  lemma RotationRepeatsIff(env: Env, l: Accounts, steps: seq<Step>, l': Accounts, i: nat, j: nat, admin: Address)
    requires Run(env, l, steps, l') && Ours(env, admin) && Proper(env, l, admin)
    requires i < j < |steps| && RotationOf(steps[i].item, admin).Some?
    ensures Exec(env, steps[j].pre, steps[i].item).Success?
            <==> KeyIn(steps[j].pre, admin) == KeyIn(steps[i].pre, admin)
  {
    D.RunSplits(Executor(env), l, steps, l', i);
    D.RunSplits(Executor(env), l, steps, l', j);
    RunKeepsProper(env, l, steps[..j], steps[j].pre, admin);
    var item := steps[i].item;
    if item.ix.BridgeIx? {
      BridgeRotationIff(env, steps[i].pre, steps[j].pre, item);
    } else {
      UpgradeRotationIff(env, steps[i].pre, steps[j].pre, item);
    }
  }

  // ---- A run in which one is ----

  function AdminAddress(env: Env): Address {
    BridgeKey(env, Zeros(32))
  }

  function WithKey(env: Env, key: Bytes): Accounts {
    map[AdminAddress(env) := Account(env.rent(BRIDGE_ADMIN_SIZE), env.bridge,
                                     BridgeData(BridgeAdmin(key, env.commission, true)))]
  }

  function Rotate(env: Env, newKey: Bytes, signature: Bytes, recoveryId: byte): Item {
    Item({}, None, BridgeIx(Bridge.TransferOwnership(AdminAddress(env), Zeros(32), newKey, signature, recoveryId)))
  }

  lemma RotateTakesEffect(env: Env, key: Bytes, newKey: Bytes, signature: Bytes, recoveryId: byte)
    requires env.recover(env.keccak(newKey), recoveryId, signature) == Some(key)
    ensures Exec(env, WithKey(env, key), Rotate(env, newKey, signature, recoveryId)) == Success(WithKey(env, newKey))
  {
    var item, l := Rotate(env, newKey, signature, recoveryId), WithKey(env, key);
    var ix := item.ix.bridge;
    assert Bridge.Rotated(env, l, ix) == Success(BridgeAdmin(newKey, env.commission, true));
    PlayLast(env, AuthOf(env, item), l, Bridge.TransferOwnershipScript(ix, Bridge.Rotated(env, l, ix)));
    assert WithData(l, ix.admin, BridgeData(BridgeAdmin(newKey, env.commission, true))) == WithKey(env, newKey);
  }

  /** The witness: a key is left, returned to, and left again with the first rotation's own signature. */
  lemma RotationTwice(env: Env, key: Bytes, other: Bytes, away: Bytes, awayId: byte, back: Bytes, backId: byte)
    returns (steps: seq<Step>)
    requires env.recover(env.keccak(other), awayId, away) == Some(key)
    requires env.recover(env.keccak(key), backId, back) == Some(other)
    ensures Run(env, WithKey(env, key), steps, WithKey(env, other)) && |steps| == 3
    ensures steps[0].item == steps[2].item == Rotate(env, other, away, awayId)
    ensures Proper(env, WithKey(env, key), AdminAddress(env))
    ensures KeyIn(steps[2].post, AdminAddress(env)) == Some(other)
  {
    RotateTakesEffect(env, key, other, away, awayId);
    RotateTakesEffect(env, other, key, back, backId);
    var l, m := WithKey(env, key), WithKey(env, other);
    var leave, comeBack := Rotate(env, other, away, awayId), Rotate(env, key, back, backId);
    ThreeStepRun(env, l, leave, m, comeBack, l, leave, m);
    steps := [D.Step(leave, l, m), D.Step(comeBack, m, l), D.Step(leave, l, m)];
  }
}
