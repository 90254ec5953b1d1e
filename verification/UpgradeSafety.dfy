/** Upgrades: each hits exactly the program its signers named, in the order of its nonce, and only once. */
module UpgradeSafety {
  import opened Wrappers
  import opened ByteStrings
  import opened Chain
  import opened Ledger
  import opened Gauges
  import opened Programs
  import opened Steps
  import D = Driver
  import Keys
  import Bridge
  import Commission
  import Upgrade
  import Signed = UpgradeContent

  predicate AdminAt(l: Accounts, admin: Address) {
    DataAt(l, admin).UpgradeData?
  }

  // The stored contract derives the admin's own address.
  predicate BoundAt(env: Env, l: Accounts, admin: Address) {
    Ours(env, admin) && AdminAt(l, admin) ==> admin == UpgradeKey(env, DataAt(l, admin).upgrade.contract)
  }

  ghost predicate Bound(env: Env, l: Accounts) {
    forall admin :: BoundAt(env, l, admin)
  }

  predicate IsUpgrade(item: Item) {
    item.ix.UpgradeIx? && item.ix.upgrade.UpgradeProgram?
  }

  // An upgrade of the program under the admin at `admin`.
  predicate UpgradesUnder(item: Item, admin: Address) {
    IsUpgrade(item) && item.ix.upgrade.admin == admin
  }

  predicate Initialises(item: Item, admin: Address) {
    item.ix.UpgradeIx? && item.ix.upgrade.InitializeAdmin? && item.ix.upgrade.admin == admin
  }

  function NonceIn(l: Accounts, admin: Address): u64 {
    if AdminAt(l, admin) then DataAt(l, admin).upgrade.nonce else 0
  }

  // ---- What a step does to an upgrade admin ----

  lemma InitialisationStores(env: Env, l: Accounts, item: Item)
    requires !item.ix.OutsideIx? && !item.ix.SweepIx?
    ensures StoresOnlyLast(Ops(env, l, item))
    ensures var last := Last(Ops(env, l, item));
            last.Store? && last.data.UpgradeData? ==>
              item.ix.UpgradeIx? && last.key == item.ix.upgrade.admin
              && (AdminAt(l, last.key)
                  || (item.ix.upgrade.InitializeAdmin? && last.data.upgrade.contract == item.ix.upgrade.contract))
  {
    StoresLast(env, l, item);
    match item.ix
    case BridgeIx(b) =>
    case CommissionIx(c) => Keys.StoredIsCommission(env, l, c);
    case UpgradeIx(u) => Keys.UpgradeStores(env, l, u);
  }

  lemma StepKeepsContract(env: Env, s: Step, admin: Address)
    requires Valid(env, s) && Ours(env, admin) && AdminAt(s.pre, admin)
    ensures AdminAt(s.post, admin) && DataAt(s.post, admin).upgrade.contract == DataAt(s.pre, admin).upgrade.contract
  {
    StepEvolves(env, s, admin);
    if Keys.RotationOf(s.item, admin).Some? {
      Keys.RotationIsSigned(env, s, admin);
    } else {
      Keys.OthersKeepKey(env, s, admin);
    }
  }

  lemma InitialisedAtItsKey(env: Env, s: Step)
    requires Valid(env, s) && s.item.ix.UpgradeIx? && s.item.ix.upgrade.InitializeAdmin?
    ensures s.item.ix.upgrade.admin == UpgradeKey(env, s.item.ix.upgrade.contract)
  {
    var ops := Upgrade.InitializeAdminScript(env, s.item.ix.upgrade);
    PlayChecks(env, AuthOf(env, s.item), s.pre, ops, 0);
    assert ops[0].error == None;
  }

  // An upgrade admin appears at an address of ours only by initialisation, with nonce 0.
  lemma AdminAppears(env: Env, s: Step, admin: Address)
    requires Valid(env, s) && Ours(env, admin) && !AdminAt(s.pre, admin) && AdminAt(s.post, admin)
    ensures Initialises(s.item, admin) && admin == UpgradeKey(env, s.item.ix.upgrade.contract)
    ensures DataAt(s.post, admin).upgrade.contract == s.item.ix.upgrade.contract && NonceIn(s.post, admin) == 0
  {
    if s.item.ix.SweepIx? {
      SweepKeeps(env, s, admin);
    }
    StoresLast(env, s.pre, s.item);
    LastStoreWins(env, AuthOf(env, s.item), s.pre, Ops(env, s.pre, s.item), admin);
    if s.item.ix.OutsideIx? {
      OutsideIsPermitted(env, s);
    } else {
      InitialisationStores(env, s.pre, s.item);
      InitialisedAtItsKey(env, s);
    }
  }

  lemma StepKeepsBound(env: Env, s: Step, admin: Address)
    requires Valid(env, s) && BoundAt(env, s.pre, admin)
    ensures BoundAt(env, s.post, admin)
  {
    if Ours(env, admin) {
      if AdminAt(s.pre, admin) {
        StepKeepsContract(env, s, admin);
      } else if AdminAt(s.post, admin) {
        AdminAppears(env, s, admin);
      }
    }
  }

  /** In every reachable state the contract an upgrade admin stores derives the admin's own address. */
  lemma {:induction false} ContractsStayBound(env: Env, l: Accounts, steps: seq<Step>, l': Accounts)
    requires Run(env, l, steps, l') && Bound(env, l)
    ensures Bound(env, l')
    decreases |steps|
  {
    if steps != [] {
      forall admin ensures BoundAt(env, steps[0].post, admin) {
        StepKeepsBound(env, steps[0], admin);
      }
      ContractsStayBound(env, steps[0].post, steps[1..], l');
    }
  }

  // ---- One upgrade ----

  lemma UpgradeScriptDeploys(env: Env, auth: Auth, l: Accounts, ix: Upgrade.Instruction, next: Outcome<UpgradeAdmin>)
    requires ix.UpgradeProgram? && Play(env, auth, l, Upgrade.UpgradeScript(ix, next), 0).Success?
    ensures next.Success? && DataAt(l, ix.target).ProgramData? && DataAt(l, ix.buffer).BufferData?
    ensures var l' := Play(env, auth, l, Upgrade.UpgradeScript(ix, next), 0).value;
            DataAt(l', ix.target) == DataAt(l, ix.target).(image := DataAt(l, ix.buffer).code)
            && DataAt(l', ix.admin) == UpgradeData(next.value)
            && forall key :: key != ix.target && key != ix.admin ==> DataAt(l', key) == DataAt(l, key)
  {
    var ops := Upgrade.UpgradeScript(ix, next);
    PlayChecks(env, auth, l, ops, 0);
    var l1 := PlayOne(env, auth, l, ops, 0);
    var l2 := PlayOne(env, auth, l1, ops, 1);
    assert l2 == Play(env, auth, l, ops, 0).value;
  }

  lemma UpgradePasses(env: Env, s: Step)
    requires Valid(env, s) && IsUpgrade(s.item)
    ensures Upgrade.UpgradeError(env, s.pre, s.item.ix.upgrade) == None && AdminAt(s.pre, s.item.ix.upgrade.admin)
  {
    UpgradeScriptDeploys(env, AuthOf(env, s.item), s.pre, s.item.ix.upgrade,
                         Upgrade.Upgraded(env, s.pre, s.item.ix.upgrade));
  }

  /** The handler checks the admin against the account to upgrade but the signature against the stored contract;
      the invariant makes them one: the upgraded program is the one named in the signed content, with the nonce
      then current, its new image is the named buffer's code, and no other account's data changes. */
  lemma UpgradeHitsSignedContract(env: Env, s: Step)
    requires Valid(env, s) && IsUpgrade(s.item) && Bound(env, s.pre)
    ensures var ix := s.item.ix.upgrade;
            AdminAt(s.pre, ix.admin) && DataAt(s.pre, ix.target).ProgramData? && DataAt(s.pre, ix.buffer).BufferData?
    ensures var ix := s.item.ix.upgrade; var a := DataAt(s.pre, ix.admin).upgrade;
            a.contract == ix.target
            && (var content := Signed.Content(a.nonce, env.bytes(ix.target), env.bytes(ix.buffer));
                ProofError(env, Signed.Encode(content), ix.proof, a.publicKey) == None)
            && DataAt(s.post, ix.target) == DataAt(s.pre, ix.target).(image := DataAt(s.pre, ix.buffer).code)
            && DataAt(s.post, ix.admin) == UpgradeData(a.(nonce := WrapAdd(a.nonce, 1)))
            && forall key :: key != ix.target && key != ix.admin ==> DataAt(s.post, key) == DataAt(s.pre, key)
  {
    var ix := s.item.ix.upgrade;
    UpgradePasses(env, s);
    UpgradeScriptDeploys(env, AuthOf(env, s.item), s.pre, ix, Upgrade.Upgraded(env, s.pre, ix));
    assert BoundAt(env, s.pre, ix.admin);
    UpgradeKeyInjective(env, ix.target, DataAt(s.pre, ix.admin).upgrade.contract);
  }

  lemma ImageUntouched(env: Env, auth: Auth, l: Accounts, op: Op, key: Address)
    requires Apply(env, auth, l, op).Success? && DataAt(l, key).ProgramData? && !(op.Deploy? && op.target == key)
    ensures DataAt(Apply(env, auth, l, op).value, key) == DataAt(l, key)
  {
  }

  // No operation of the script deploys to the program.
  predicate SparesProgram(ops: seq<Op>, key: Address) {
    forall op <- ops :: !(op.Deploy? && op.target == key)
  }

  lemma {:induction false} ImageKept(env: Env, auth: Auth, l: Accounts, ops: seq<Op>, i: nat, key: Address)
    requires i <= |ops| && Play(env, auth, l, ops, i).Success? && DataAt(l, key).ProgramData? && SparesProgram(ops, key)
    ensures DataAt(Play(env, auth, l, ops, i).value, key) == DataAt(l, key)
    decreases |ops| - i
  {
    if i < |ops| {
      ImageUntouched(env, auth, l, ops[i], key);
      ImageKept(env, auth, Apply(env, auth, l, ops[i]).value, ops, i + 1, key);
    }
  }

  lemma TokenWithdrawalDoesNotDeploy(env: Env, ix: Bridge.Instruction, p: Bridge.Parts, key: Address)
    requires ix.WithdrawToken?
    ensures SparesProgram(Bridge.WithdrawTokenScript(env, ix, p), key)
  {
  }

  lemma BridgeDoesNotDeploy(env: Env, l: Accounts, prior: Option<Bridge.Prior>, ix: Bridge.Instruction, key: Address)
    ensures SparesProgram(Bridge.Ops(env, l, prior, ix), key)
  {
    if ix.WithdrawToken? {
      TokenWithdrawalDoesNotDeploy(env, ix, Bridge.PartsOf(env, l, ix), key);
    }
  }

  lemma CommissionDoesNotDeploy(env: Env, l: Accounts, ix: Commission.Instruction, key: Address)
    ensures SparesProgram(Commission.Ops(env, l, ix), key)
  {
  }

  // An outsider cannot sign for an upgrade admin, so it deploys only to programs of other authorities.
  lemma OutsideKeepsImage(env: Env, s: Step, key: Address, contract: Address)
    requires Valid(env, s) && s.item.ix.OutsideIx? && DataAt(s.pre, key).ProgramData?
    requires DataAt(s.pre, key).upgradeAuthority == Some(UpgradeKey(env, contract))
    ensures DataAt(s.post, key) == DataAt(s.pre, key)
  {
    OutsideIsPermitted(env, s);
    var op := s.item.ix.outside.op;
    if !(op.Deploy? && op.target == key) {
      ImageUntouched(env, AuthOf(env, s.item), s.pre, op, key);
    }
  }

  lemma UpgradeElsewhereKeepsImage(env: Env, s: Step, key: Address)
    requires Valid(env, s) && s.item.ix.UpgradeIx? && DataAt(s.pre, key).ProgramData?
    requires !(IsUpgrade(s.item) && s.item.ix.upgrade.target == key)
    ensures DataAt(s.post, key) == DataAt(s.pre, key)
  {
    ImageKept(env, AuthOf(env, s.item), s.pre, Upgrade.Ops(env, s.pre, s.item.ix.upgrade), 0, key);
  }

  lemma UpgradeNeedsAuthority(env: Env, s: Step)
    requires Valid(env, s) && IsUpgrade(s.item) && DataAt(s.pre, s.item.ix.upgrade.target).ProgramData?
    ensures DataAt(s.pre, s.item.ix.upgrade.target).upgradeAuthority == Some(UpgradeKey(env, s.item.ix.upgrade.target))
  {
    var ix := s.item.ix.upgrade;
    UpgradePasses(env, s);
    var ops := Upgrade.UpgradeScript(ix, Upgrade.Upgraded(env, s.pre, ix));
    var l1 := PlayOne(env, AuthOf(env, s.item), s.pre, ops, 0);
  }

  /** A program whose upgrade authority is an upgrade admin changes only by an upgrade that names it, and only if that
      admin is the one derived from the program itself: nothing else, the loader's own instruction included, can
      deploy to it. */
  lemma OnlyItsUpgradesDeploy(env: Env, s: Step, key: Address, contract: Address)
    requires Valid(env, s) && DataAt(s.pre, key).ProgramData? && DataAt(s.post, key) != DataAt(s.pre, key)
    requires DataAt(s.pre, key).upgradeAuthority == Some(UpgradeKey(env, contract))
    ensures IsUpgrade(s.item) && s.item.ix.upgrade.target == key && contract == key
  {
    var auth, ops := AuthOf(env, s.item), Ops(env, s.pre, s.item);
    match s.item.ix
    case OutsideIx(_) => OutsideKeepsImage(env, s, key, contract);
    case BridgeIx(b) =>
      BridgeDoesNotDeploy(env, s.pre, s.item.prior, b, key);
      ImageKept(env, auth, s.pre, ops, 0, key);
    case CommissionIx(c) =>
      CommissionDoesNotDeploy(env, s.pre, c, key);
      ImageKept(env, auth, s.pre, ops, 0, key);
    case UpgradeIx(u) =>
      if IsUpgrade(s.item) && u.target == key {
        UpgradeNeedsAuthority(env, s);
        UpgradeKeyInjective(env, contract, key);
      } else {
        UpgradeElsewhereKeepsImage(env, s, key);
      }
    case SweepIx => SweepKeeps(env, s, key);
  }

  // The code of the last upgrade that named the program.
  function ImageAfter(image: Bytes, steps: seq<Step>, key: Address): Bytes
    decreases |steps|
  {
    if steps == [] then image
    else
      var s := steps[0];
      var deployed := IsUpgrade(s.item) && s.item.ix.upgrade.target == key
                      && DataAt(s.pre, s.item.ix.upgrade.buffer).BufferData?;
      ImageAfter(if deployed then DataAt(s.pre, s.item.ix.upgrade.buffer).code else image, steps[1..], key)
  }

  /** Over any run such a program runs the code of the last signed upgrade that named it, or what it ran at first. */
  lemma {:induction false} ImagesFollowUpgrades(env: Env, l: Accounts, steps: seq<Step>, l': Accounts, key: Address,
                                                contract: Address)
    requires Run(env, l, steps, l') && DataAt(l, key).ProgramData?
    requires DataAt(l, key).upgradeAuthority == Some(UpgradeKey(env, contract))
    ensures DataAt(l', key) == DataAt(l, key).(image := ImageAfter(DataAt(l, key).image, steps, key))
    decreases |steps|
  {
    if steps != [] {
      var s := steps[0];
      StepEvolves(env, s, key);
      if IsUpgrade(s.item) && s.item.ix.upgrade.target == key {
        UpgradeScriptDeploys(env, AuthOf(env, s.item), s.pre, s.item.ix.upgrade,
                             Upgrade.Upgraded(env, s.pre, s.item.ix.upgrade));
      } else if DataAt(s.post, key) != DataAt(s.pre, key) {
        OnlyItsUpgradesDeploy(env, s, key, contract);
      }
      ImagesFollowUpgrades(env, s.post, steps[1..], l', key, contract);
    }
  }

  // The loader's own instruction, for a program whose authority is not one of ours.
  function LoaderUpgrade(loader: Address, target: Address, buffer: Address, authority: Address): Item {
    Item({authority}, None, OutsideIx(Call(loader, Deploy(target, buffer, authority, []), None, Bridge.Unreadable)))
  }

  /** The condition on the authority is needed: a wallet upgrades its own programs without the upgrade program. */
  lemma WalletsUpgradeTheirOwn(env: Env, l: Accounts, loader: Address, target: Address, buffer: Address,
                               wallet: Address)
    requires !Ours(env, wallet) && !IsOurProgram(env, loader)
    requires DataAt(l, target).ProgramData? && DataAt(l, target).upgradeAuthority == Some(wallet)
    requires DataAt(l, buffer).BufferData? && DataAt(l, buffer).bufferAuthority == Some(wallet)
    ensures Exec(env, l, LoaderUpgrade(loader, target, buffer, wallet))
            == Success(WithData(l, target, DataAt(l, target).(image := DataAt(l, buffer).code)))
  {
    var item := LoaderUpgrade(loader, target, buffer, wallet);
    var ops := OutsideOps(env, l, item.ix.outside);
    assert Play(env, AuthOf(env, item), l, ops, 0) == Play(env, AuthOf(env, item), l, ops, 1);
    assert Play(env, AuthOf(env, item), l, ops, 1) == Apply(env, AuthOf(env, item), l, ops[1]);
  }

  // ---- The nonce ----

  function Upgrades(steps: seq<Step>, admin: Address): nat {
    D.Total(steps, item => UpgradesUnder(item, admin))
  }

  predicate StepCounts(s: Step, admin: Address) {
    D.Counts(s, l => NonceIn(l, admin), item => UpgradesUnder(item, admin))
  }

  lemma OtherStoresKeepNonce(env: Env, l: Accounts, item: Item, admin: Address)
    requires AdminAt(l, admin) && !UpgradesUnder(item, admin) && !item.ix.OutsideIx? && !item.ix.SweepIx?
    ensures StoresOnlyLast(Ops(env, l, item))
    ensures var last := Last(Ops(env, l, item));
            last.Store? && last.key == admin && last.data.UpgradeData? ==>
              Keys.Initialises(item.ix) == Some(admin) || last.data.upgrade.nonce == NonceIn(l, admin)
  {
    StoresLast(env, l, item);
    match item.ix
    case BridgeIx(b) =>
    case CommissionIx(c) => Keys.StoredIsCommission(env, l, c);
    case UpgradeIx(u) => Keys.UpgradeStores(env, l, u);
  }

  lemma UpgradeAdvances(env: Env, s: Step, admin: Address)
    requires Valid(env, s) && UpgradesUnder(s.item, admin)
    ensures AdminAt(s.pre, admin) && AdminAt(s.post, admin)
            && NonceIn(s.post, admin) == D.Successor(NonceIn(s.pre, admin))
  {
    UpgradePasses(env, s);
    UpgradeScriptDeploys(env, AuthOf(env, s.item), s.pre, s.item.ix.upgrade,
                         Upgrade.Upgraded(env, s.pre, s.item.ix.upgrade));
  }

  lemma OthersKeepNonce(env: Env, s: Step, admin: Address)
    requires Valid(env, s) && Ours(env, admin) && AdminAt(s.pre, admin) && !UpgradesUnder(s.item, admin)
    ensures AdminAt(s.post, admin) && NonceIn(s.post, admin) == NonceIn(s.pre, admin)
  {
    if s.item.ix.SweepIx? {
      SweepKeeps(env, s, admin);
    } else {
      StepKeepsContract(env, s, admin);
      StoresLast(env, s.pre, s.item);
      LastStoreWins(env, AuthOf(env, s.item), s.pre, Ops(env, s.pre, s.item), admin);
      if s.item.ix.OutsideIx? {
        OutsideIsPermitted(env, s);
      } else {
        OtherStoresKeepNonce(env, s.pre, s.item, admin);
      }
      if Keys.Initialises(s.item.ix) == Some(admin) {
        Keys.InitialisesFreshAccount(env, s);
      }
    }
  }

  lemma StepNonce(env: Env, s: Step, admin: Address)
    requires Valid(env, s) && Ours(env, admin) && AdminAt(s.pre, admin)
    ensures AdminAt(s.post, admin) && StepCounts(s, admin)
  {
    if UpgradesUnder(s.item, admin) {
      UpgradeAdvances(env, s, admin);
    } else {
      OthersKeepNonce(env, s, admin);
    }
  }

  lemma {:induction false} EachStepCounts(env: Env, l: Accounts, steps: seq<Step>, l': Accounts, admin: Address)
    requires Run(env, l, steps, l') && Ours(env, admin) && AdminAt(l, admin)
    ensures AdminAt(l', admin) && forall s <- steps :: StepCounts(s, admin)
    decreases |steps|
  {
    if steps != [] {
      StepNonce(env, steps[0], admin);
      EachStepCounts(env, steps[0].post, steps[1..], l', admin);
      assert steps == [steps[0]] + steps[1..];
    }
  }

  lemma CountedRun(exec: (Accounts, Item) -> Outcome<Accounts>, l: Accounts, steps: seq<Step>, l': Accounts,
                   admin: Address)
    requires D.Run(exec, l, steps, l') && forall s <- steps :: StepCounts(s, admin)
    ensures NonceIn(l', admin) == D.After(NonceIn(l, admin), Upgrades(steps, admin))
  {
    D.RunCounts(exec, l, steps, l', l => NonceIn(l, admin), item => UpgradesUnder(item, admin));
  }

  lemma NonceAtEnd(env: Env, l: Accounts, steps: seq<Step>, l': Accounts, admin: Address)
    requires Run(env, l, steps, l') && Ours(env, admin) && AdminAt(l, admin)
    ensures AdminAt(l', admin) && NonceIn(l', admin) == D.After(NonceIn(l, admin), Upgrades(steps, admin))
  {
    EachStepCounts(env, l, steps, l', admin);
    CountedRun(Executor(env), l, steps, l', admin);
  }

  /** The nonce counts the admin's upgrades, in machine words; key rotations leave it alone. */
  lemma NonceCountsUpgrades(env: Env, l: Accounts, steps: seq<Step>, l': Accounts, admin: Address)
    requires Run(env, l, steps, l') && Ours(env, admin) && AdminAt(l, admin)
    ensures AdminAt(l', admin) && NonceIn(l', admin) == (NonceIn(l, admin) + Upgrades(steps, admin)) % U64
  {
    NonceAtEnd(env, l, steps, l', admin);
    D.AfterIsModular(NonceIn(l, admin), Upgrades(steps, admin));
  }

  lemma {:induction false} AdminBornInRun(env: Env, l: Accounts, steps: seq<Step>, l': Accounts, admin: Address)
    returns (k: nat)
    requires Run(env, l, steps, l') && Ours(env, admin) && !AdminAt(l, admin) && AdminAt(l', admin)
    ensures k < |steps| && Initialises(steps[k].item, admin) && Run(env, steps[k].post, steps[k + 1..], l')
    ensures AdminAt(steps[k].post, admin) && NonceIn(steps[k].post, admin) == 0
    decreases |steps|
  {
    if AdminAt(steps[0].post, admin) {
      AdminAppears(env, steps[0], admin);
      k := 0;
    } else {
      var later := AdminBornInRun(env, steps[0].post, steps[1..], l', admin);
      k := later + 1;
      assert steps[1..][later + 1..] == steps[k + 1..];
    }
  }

  lemma CountsFromZero(env: Env, l: Accounts, steps: seq<Step>, l': Accounts, admin: Address)
    requires Run(env, l, steps, l') && Ours(env, admin) && AdminAt(l, admin) && NonceIn(l, admin) == 0
    ensures NonceIn(l', admin) == Upgrades(steps, admin) % U64
  {
    NonceAtEnd(env, l, steps, l', admin);
    D.AfterIsModular(0, Upgrades(steps, admin));
  }

  /** An upgrade admin that came to be within the run counts its upgrades from zero. */
  lemma NonceStartsAtZero(env: Env, l: Accounts, steps: seq<Step>, l': Accounts, admin: Address) returns (k: nat)
    requires Run(env, l, steps, l') && Ours(env, admin) && !AdminAt(l, admin) && AdminAt(l', admin)
    ensures k < |steps| && Initialises(steps[k].item, admin)
    ensures NonceIn(l', admin) == Upgrades(steps[k + 1..], admin) % U64
  {
    k := AdminBornInRun(env, l, steps, l', admin);
    CountsFromZero(env, steps[k].post, steps[k + 1..], l', admin);
  }

  // The bytes that must have been signed for an upgrade.
  function SignedBytes(env: Env, s: Step): Bytes
    requires IsUpgrade(s.item)
  {
    var a := ReadUpgrade(s.pre, s.item.ix.upgrade.admin);
    if a.None? then [] else Signed.Encode(Upgrade.ContentOf(env, a.value, s.item.ix.upgrade))
  }

  lemma NonceBetween(env: Env, l: Accounts, steps: seq<Step>, l': Accounts, i: nat, j: nat, admin: Address)
    requires Run(env, l, steps, l') && i < j < |steps| && Ours(env, admin) && AdminAt(steps[i].pre, admin)
    ensures NonceIn(steps[j].pre, admin) == D.After(NonceIn(steps[i].pre, admin), Upgrades(steps[i..j], admin))
  {
    D.RunFrom(Executor(env), l, steps, l', i, j);
    NonceAtEnd(env, steps[i].pre, steps[i..j], steps[j].pre, admin);
  }

  lemma UpgradeInRun(env: Env, l: Accounts, steps: seq<Step>, l': Accounts, i: nat)
    requires Run(env, l, steps, l') && i < |steps| && IsUpgrade(steps[i].item) && Bound(env, l)
    ensures var ix := steps[i].item.ix.upgrade;
            AdminAt(steps[i].pre, ix.admin) && DataAt(steps[i].pre, ix.admin).upgrade.contract == ix.target
                && ix.admin == UpgradeKey(env, ix.target)
  {
    D.RunSplits(Executor(env), l, steps, l', i);
    ContractsStayBound(env, l, steps[..i], steps[i].pre);
    UpgradePasses(env, steps[i]);
    assert BoundAt(env, steps[i].pre, steps[i].item.ix.upgrade.admin);
    UpgradeKeyInjective(env, steps[i].item.ix.upgrade.target,
                        DataAt(steps[i].pre, steps[i].item.ix.upgrade.admin).upgrade.contract);
  }

  /** The nonce of an upgrade is verified again exactly when a multiple of 2^64 upgrades under the same admin, whatever
      keys it had, lie between. */
  lemma NonceRepeatsIff(env: Env, l: Accounts, steps: seq<Step>, l': Accounts, i: nat, j: nat, admin: Address)
    requires Run(env, l, steps, l') && i < j < |steps| && Bound(env, l)
    requires UpgradesUnder(steps[i].item, admin) && UpgradesUnder(steps[j].item, admin)
    ensures NonceIn(steps[i].pre, admin) == NonceIn(steps[j].pre, admin)
            <==> Upgrades(steps[i..j], admin) % U64 == 0
  {
    UpgradeInRun(env, l, steps, l', i);
    NonceBetween(env, l, steps, l', i, j, admin);
    D.ReturnsIff(NonceIn(steps[i].pre, admin), Upgrades(steps[i..j], admin));
  }

  lemma UpgradesAreBounded(steps: seq<Step>, admin: Address)
    ensures Upgrades(steps, admin) <= |steps|
  {
    D.TotalIsBounded(steps, item => UpgradesUnder(item, admin));
  }

  lemma NonceAdvances(env: Env, l: Accounts, steps: seq<Step>, l': Accounts, i: nat, j: nat, admin: Address)
    requires Run(env, l, steps, l') && i < j < |steps| <= U64 && UpgradesUnder(steps[i].item, admin)
    requires Ours(env, admin) && AdminAt(steps[i].pre, admin)
    ensures NonceIn(steps[j].pre, admin) != NonceIn(steps[i].pre, admin)
  {
    NonceBetween(env, l, steps, l', i, j, admin);
    UpgradesAreBounded(steps[i..j], admin);
    D.MovesOn(NonceIn(steps[i].pre, admin), Upgrades(steps[i..j], admin));
  }

  /** No upgrade content is accepted twice, whichever keys signed it and whichever admins checked it, in runs below
      2^64 steps; the two targets only have to be told apart by their 32 bytes. */
  lemma NoUpgradeAcceptedTwice(env: Env, l: Accounts, steps: seq<Step>, l': Accounts, i: nat, j: nat)
    requires Run(env, l, steps, l') && i < j < |steps| <= U64 && Bound(env, l)
    requires IsUpgrade(steps[i].item) && IsUpgrade(steps[j].item)
    requires var p, q := steps[i].item.ix.upgrade.target, steps[j].item.ix.upgrade.target;
             env.bytes(p) == env.bytes(q) ==> p == q
    ensures SignedBytes(env, steps[i]) != SignedBytes(env, steps[j])
  {
    UpgradeInRun(env, l, steps, l', i);
    UpgradeInRun(env, l, steps, l', j);
    var s, t := steps[i], steps[j];
    var admin := s.item.ix.upgrade.admin;
    if SignedBytes(env, s) == SignedBytes(env, t) {
      Signed.ContentDecodes(Upgrade.ContentOf(env, DataAt(s.pre, admin).upgrade, s.item.ix.upgrade),
                            Upgrade.ContentOf(env, DataAt(t.pre, t.item.ix.upgrade.admin).upgrade, t.item.ix.upgrade));
      NonceAdvances(env, l, steps, l', i, j, admin);
    }
  }
}
