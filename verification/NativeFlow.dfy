/** Native currency: nothing is created, nothing wraps, and what a bridge admin holds is accounted for. */
module NativeFlow {
  import opened Wrappers
  import opened ByteStrings
  import opened FeeList
  import opened Borsh
  import opened Chain
  import opened Ledger
  import opened Gauges
  import opened Programs
  import opened Steps
  import opened Vaults
  import Bridge
  import Commission
  import Upgrade

  lemma NativeChecks(env: Env, l: Accounts, ix: Bridge.Instruction)
    requires ix.WithdrawNative? && Bridge.WithdrawNativeError(env, l, ix) == None
    ensures ix.admin == BridgeKey(env, ix.seeds) && ix.record == OneSeedKey(env, ix.origin)
    ensures DataAt(l, ix.admin).BridgeData? && ix.amount <= Get(l, ix.admin).lamports
  {
  }

  // Paying the record's rent leaves the admin's lamports alone: the payer is from outside, the record is new.
  lemma RentSparesAdmin(env: Env, auth: Auth, l: Accounts, op: Op, admin: Address)
    requires op.Create? && Apply(env, auth, l, op).Success?
    requires op.key == Pda(auth.program, op.seeds) && Outsiders(env, auth.signers)
    requires Ours(env, admin) && IsOurProgram(env, auth.program) && DataAt(l, admin).BridgeData?
    ensures !Ours(env, op.payer) && op.key != admin && op.key != op.payer
    ensures var l' := Apply(env, auth, l, op).value;
            Get(l', admin) == Get(l, admin)
            && Get(l', op.payer).lamports == Get(l, op.payer).lamports - env.rent(op.size)
            && Get(l', op.key).lamports == env.rent(op.size)
  {
  }

  // Debit and credit, between two accounts that are not the record.
  lemma PayoutIsExact(env: Env, auth: Auth, l: Accounts, op: Op, record: Address)
    requires op.Payout? && Apply(env, auth, l, op).Success? && record != op.admin && record != op.to
    requires op.admin != op.to && op.lamports <= Get(l, op.admin).lamports && Sum(l, Lamports) < U64
    ensures var l' := Apply(env, auth, l, op).value;
            Sum(l', Lamports) == Sum(l, Lamports)
            && Get(l', op.admin).lamports == Get(l, op.admin).lamports - op.lamports
            && Get(l', op.to).lamports == Get(l, op.to).lamports + op.lamports
            && Get(l', record) == Get(l, record)
  {
    PayoutDoesNotWrap(l, op.admin, op.to, op.lamports);
    ApplyKeepsLamports(env, auth, l, op);
  }

  lemma StoreMovesNothing(env: Env, auth: Auth, l: Accounts, op: Op)
    requires op.Store? && Apply(env, auth, l, op).Success?
    ensures Sum(Apply(env, auth, l, op).value, Lamports) == Sum(l, Lamports)
    ensures forall key :: Get(Apply(env, auth, l, op).value, key).lamports == Get(l, key).lamports
  {
    ApplyKeepsLamports(env, auth, l, op);
  }

  /** A native payout: the record's rent is paid by the receiver, between the balance check and the debit,
      yet the debit cannot wrap, and neither can the credit. */
  lemma NativeScript(env: Env, auth: Auth, l: Accounts, ix: Bridge.Instruction, early: Option<Error>)
    requires ix.WithdrawNative? && auth.program == env.bridge && Outsiders(env, auth.signers)
    requires Play(env, auth, l, Bridge.WithdrawNativeScript(env, ix, early), 0).Success?
    requires ix.admin == BridgeKey(env, ix.seeds) && ix.record == OneSeedKey(env, ix.origin)
    requires DataAt(l, ix.admin).BridgeData? && ix.amount <= Get(l, ix.admin).lamports && Sum(l, Lamports) < U64
    ensures var l' := Play(env, auth, l, Bridge.WithdrawNativeScript(env, ix, early), 0).value;
            Sum(l', Lamports) == Sum(l, Lamports)
            && Get(l', ix.admin).lamports == Get(l, ix.admin).lamports - ix.amount
            && Get(l', ix.owner).lamports == Get(l, ix.owner).lamports - env.rent(WithdrawSize(env)) + ix.amount
            && Get(l', ix.record).lamports == env.rent(WithdrawSize(env))
            && !Ours(env, ix.owner)
  {
    var ops := Bridge.WithdrawNativeScript(env, ix, early);
    var l0 := PlayOne(env, auth, l, ops, 0);
    var l1 := PlayOne(env, auth, l0, ops, 1);
    RentSparesAdmin(env, auth, l, ops[1], ix.admin);
    ApplyKeepsLamports(env, auth, l, ops[1]);
    var l2 := PlayOne(env, auth, l1, ops, 2);
    PayoutIsExact(env, auth, l1, ops[2], ix.record);
    var l3 := PlayOne(env, auth, l2, ops, 3);
    StoreMovesNothing(env, auth, l2, ops[3]);
  }

  lemma NativeWithdrawalPassed(env: Env, s: Step)
    requires Valid(env, s) && s.item.ix.BridgeIx? && s.item.ix.bridge.WithdrawNative?
    ensures Bridge.WithdrawNativeError(env, s.pre, s.item.ix.bridge) == None
  {
    var ix := s.item.ix.bridge;
    var ops := Bridge.WithdrawNativeScript(env, ix, Bridge.WithdrawNativeError(env, s.pre, ix));
    PlayChecks(env, AuthOf(env, s.item), s.pre, ops, 0);
    assert ops[0].error == None;
  }

  lemma NativeWithdrawal(env: Env, s: Step)
    requires Valid(env, s) && s.item.ix.BridgeIx? && s.item.ix.bridge.WithdrawNative? && Sum(s.pre, Lamports) < U64
    ensures Sum(s.post, Lamports) == Sum(s.pre, Lamports)
    ensures var ix := s.item.ix.bridge;
            Get(s.post, ix.admin).lamports == Get(s.pre, ix.admin).lamports - ix.amount && !Ours(env, ix.owner)
            && ix.admin == BridgeKey(env, ix.seeds) && ix.record == OneSeedKey(env, ix.origin)
  {
    var ix := s.item.ix.bridge;
    NativeWithdrawalPassed(env, s);
    NativeChecks(env, s.pre, ix);
    NativeScript(env, AuthOf(env, s.item), s.pre, ix, Bridge.WithdrawNativeError(env, s.pre, ix));
  }

  lemma BridgeDoesNotPayOut(env: Env, l: Accounts, prior: Option<Bridge.Prior>, ix: Bridge.Instruction)
    requires !ix.WithdrawNative?
    ensures forall op <- Bridge.Ops(env, l, prior, ix) :: !op.Payout?
  {
  }

  lemma CommissionDoesNotPayOut(env: Env, l: Accounts, ix: Commission.Instruction)
    ensures forall op <- Commission.Ops(env, l, ix) :: !op.Payout?
  {
  }

  lemma PlayWithoutPayouts(env: Env, auth: Auth, l: Accounts, ops: seq<Op>)
    requires Play(env, auth, l, ops, 0).Success? && forall op <- ops :: !op.Payout?
    ensures Sum(Play(env, auth, l, ops, 0).value, Lamports) == Sum(l, Lamports)
  {
    PlayKeepsLamports(env, auth, l, ops, 0);
  }

  lemma StepKeepsLamports(env: Env, s: Step)
    requires Valid(env, s) && Sum(s.pre, Lamports) < U64
    ensures Sum(s.post, Lamports) == Sum(s.pre, Lamports)
  {
    var ops, auth := Ops(env, s.pre, s.item), AuthOf(env, s.item);
    match s.item.ix
    case BridgeIx(ix) =>
      if ix.WithdrawNative? {
        NativeWithdrawal(env, s);
      } else {
        BridgeDoesNotPayOut(env, s.pre, s.item.prior, ix);
        PlayWithoutPayouts(env, auth, s.pre, ops);
      }
    case CommissionIx(ix) =>
      CommissionDoesNotPayOut(env, s.pre, ix);
      PlayWithoutPayouts(env, auth, s.pre, ops);
    case UpgradeIx(_) => PlayWithoutPayouts(env, auth, s.pre, ops);
    case OutsideIx(c) =>
      OutsideIsPermitted(env, s);
      ApplyKeepsLamports(env, auth, s.pre, c.op);
    case SweepIx =>
      forall key ensures Weigh(Get(s.pre, key), Lamports) == Weigh(Get(s.post, key), Lamports) {
        SweepKeeps(env, s, key);
      }
      SameWeightsSameSum(s.pre, s.post, Lamports);
  }

  /** If all lamports fit a machine word, their total is constant over every run. */
  lemma {:induction false} LamportsAreConserved(env: Env, l: Accounts, steps: seq<Step>, l': Accounts)
    requires Run(env, l, steps, l') && Sum(l, Lamports) < U64
    ensures Sum(l', Lamports) == Sum(l, Lamports)
    decreases |steps|
  {
    if steps != [] {
      StepKeepsLamports(env, steps[0]);
      LamportsAreConserved(env, steps[0].post, steps[1..], l');
    }
  }

  // ---- What a bridge or commission admin holds ----

  // The addresses of bridge and commission admins, as against records, mints, token accounts and wallets.
  predicate IsAdminKey(env: Env, key: Address) {
    key.Pda?
    && ((key.program == env.bridge && |key.seeds| == 1)
        || (key.program == env.commission && |key.seeds| == 2 && key.seeds[0] == Raw(COMMISSION_ADMIN_SEED)
            && key.seeds[1].Of?))
  }

  // Native deposits into the admin, and payouts out of it.
  function Deposited(item: Item, key: Address): nat {
    match item.ix
    case BridgeIx(DepositNative(admin, _, _, _, _, amount)) => if admin == key then amount else 0
    case _ => 0
  }

  function Withdrawn(item: Item, key: Address): nat {
    match item.ix
    case BridgeIx(WithdrawNative(admin, _, _, _, _, _, amount)) => if admin == key then amount else 0
    case _ => 0
  }

  // Native fees at the price then listed, and native fees withdrawn; an admin that pays itself moves nothing.
  function LamportFee(env: Env, s: Step, key: Address): nat {
    match s.item.ix
    case CommissionIx(c) =>
      if c.ChargeCommission? && c.token.Native? && c.admin == key && c.owner != key
          && Commission.Price(env, s.pre, c).Success?
      then Commission.Price(env, s.pre, c).value else 0
    case _ => 0
  }

  function FeeDrawn(item: Item, key: Address): nat {
    match item.ix
    case CommissionIx(c) =>
      if c.Withdraw? && c.entry.token.Native? && c.admin == key && c.receiver != key then c.withdrawAmount else 0
    case _ => 0
  }

  // Lamports that reach the admin in other ways: its own rent, transfers, fees withdrawn from another admin to it.
  function Donated(env: Env, item: Item, key: Address): nat {
    match item.ix
    case BridgeIx(InitializeAdmin(admin, _, _, _, _)) => if admin == key then env.rent(BRIDGE_ADMIN_SIZE) else 0
    case CommissionIx(InitializeAdmin(admin, _, _, _)) =>
      if admin == key then env.rent(MaxAdminSize(env.tokenSize)) else 0
    case CommissionIx(Withdraw(admin, _, receiver, _, _, _, _, entry, amount)) =>
      if entry.token.Native? && receiver == key && admin != key then amount else 0
    case OutsideIx(c) => if (c.op.Pay? || c.op.Payout?) && c.op.to == key then c.op.lamports else 0
    case _ => 0
  }

  // Derived addresses of other shapes are never an admin's.
  lemma NotAnAdmin(env: Env, key: Address)
    requires IsAdminKey(env, key)
    ensures forall seed: Bytes :: key != OneSeedKey(env, seed)
    ensures forall wallet, mint :: key != AssociatedKey(env, wallet, mint)
    ensures forall mint :: key != MetadataKey(env, mint)
    ensures forall contract :: key != UpgradeKey(env, contract)
  {
    forall seed: Bytes ensures key != OneSeedKey(env, seed) {
      assert OneSeedKey(env, seed).seeds == [Raw(seed), Raw([env.bump(env.bridge, [Raw(seed)])])];
    }
    forall contract ensures key != UpgradeKey(env, contract) {
      assert |UPGRADE_ADMIN_SEED| != |COMMISSION_ADMIN_SEED|;
    }
  }

  // What one payment, account creation or associated-account creation does to the admin's lamports.
  function Inflow(env: Env, op: Op, key: Address): int {
    match op
    case Pay(payer, to, lamports, _) =>
      (if to == key && payer != key then lamports else 0) - (if payer == key && to != key then lamports else 0)
    case Create(_, created, size, _, _) => if created == key then env.rent(size) else 0
    case _ => 0
  }

  lemma InflowIsExact(env: Env, auth: Auth, l: Accounts, op: Op, key: Address)
    requires Apply(env, auth, l, op).Success? && IsAdminKey(env, key) && Outsiders(env, auth.signers)
    requires op.Pay? || op.Create? || op.EnsureAssociated?
    requires op.Create? ==> op.key == Pda(auth.program, op.seeds) && Get(l, op.key).lamports == 0
    ensures Get(Apply(env, auth, l, op).value, key).lamports == Get(l, key).lamports + Inflow(env, op, key)
  {
    NotAnAdmin(env, key);
  }

  // A script with one operation, `p`, that can touch the admin's lamports.
  lemma AdminReceives(env: Env, auth: Auth, l: Accounts, ops: seq<Op>, p: nat, key: Address)
    requires p < |ops| && Play(env, auth, l, ops, 0).Success?
             && (ops[p].Pay? || ops[p].Create? || ops[p].EnsureAssociated?)
    requires forall j :: 0 <= j < |ops| && j != p ==> !Touches(auth, ops[j], LamportsOf(key))
    requires IsAdminKey(env, key) && Outsiders(env, auth.signers)
    requires ops[p].Create? ==> ops[p].key == Pda(auth.program, ops[p].seeds)
    ensures Get(Play(env, auth, l, ops, 0).value, key).lamports == Get(l, key).lamports + Inflow(env, ops[p], key)
  {
    var before, after := Focus(env, auth, l, ops, p, LamportsOf(key));
    InflowIsExact(env, auth, before, ops[p], key);
  }

  lemma DepositTokenSpares(env: Env, auth: Auth, l: Accounts, ix: Bridge.Instruction, early: Option<Error>,
                           key: Address)
    requires ix.DepositToken? && IsAdminKey(env, key) && Outsiders(env, auth.signers)
    requires Play(env, auth, l, Bridge.DepositTokenScript(env, ix, early), 0).Success?
    ensures Get(Play(env, auth, l, Bridge.DepositTokenScript(env, ix, early), 0).value, key).lamports
            == Get(l, key).lamports
  {
    AdminReceives(env, auth, l, Bridge.DepositTokenScript(env, ix, early), 2, key);
  }

  lemma InitializeAdds(env: Env, auth: Auth, l: Accounts, ix: Bridge.Instruction, key: Address)
    requires ix.InitializeAdmin? && IsAdminKey(env, key) && Outsiders(env, auth.signers) && auth.program == env.bridge
    requires Play(env, auth, l, Bridge.InitializeAdminScript(env, ix), 0).Success?
    ensures Get(Play(env, auth, l, Bridge.InitializeAdminScript(env, ix), 0).value, key).lamports
            == Get(l, key).lamports + if ix.admin == key then env.rent(BRIDGE_ADMIN_SIZE) else 0
  {
    var ops := Bridge.InitializeAdminScript(env, ix);
    PlayChecks(env, auth, l, ops, 0);
    assert ops[0].error == None;
    AdminReceives(env, auth, l, ops, 1, key);
  }

  lemma WithdrawTokenSpares(env: Env, auth: Auth, l: Accounts, ix: Bridge.Instruction, p: Bridge.Parts, key: Address)
    requires ix.WithdrawToken? && IsAdminKey(env, key) && Outsiders(env, auth.signers) && auth.program == env.bridge
    requires Play(env, auth, l, Bridge.WithdrawTokenScript(env, ix, p), 0).Success? && !Ours(env, ix.owner)
    requires ix.record == OneSeedKey(env, ix.origin) && ix.vault == AssociatedKey(env, ix.admin, ix.mint)
    requires ix.ownerToken == AssociatedKey(env, ix.owner, ix.mint) && ix.metadata == MetadataKey(env, ix.mint)
    requires p.creates ==> ix.mint == OneSeedKey(env, p.tokenSeed)
    ensures Get(Play(env, auth, l, Bridge.WithdrawTokenScript(env, ix, p), 0).value, key).lamports
            == Get(l, key).lamports
  {
    NotAnAdmin(env, key);
    PlayUntouched(env, auth, l, Bridge.WithdrawTokenScript(env, ix, p), 0, LamportsOf(key));
  }

  lemma NativeScriptSpares(env: Env, auth: Auth, l: Accounts, ix: Bridge.Instruction, early: Option<Error>,
                           key: Address)
    requires ix.WithdrawNative? && !Ours(env, ix.owner) && ix.record == OneSeedKey(env, ix.origin) && ix.admin != key
             && IsAdminKey(env, key)
    requires Play(env, auth, l, Bridge.WithdrawNativeScript(env, ix, early), 0).Success?
    ensures Get(Play(env, auth, l, Bridge.WithdrawNativeScript(env, ix, early), 0).value, key).lamports
            == Get(l, key).lamports
  {
    NotAnAdmin(env, key);
    PlayUntouched(env, auth, l, Bridge.WithdrawNativeScript(env, ix, early), 0, LamportsOf(key));
  }

  lemma TokenWithdrawalSpares(env: Env, s: Step, key: Address)
    requires Valid(env, s) && s.item.ix.BridgeIx? && s.item.ix.bridge.WithdrawToken? && IsAdminKey(env, key)
    ensures Get(s.post, key).lamports == Get(s.pre, key).lamports
  {
    var ix := s.item.ix.bridge;
    var p := WithdrawalPlays(env, s);
    WithdrawalFacts(env, s);
    ScriptFacts(env, AuthOf(env, s.item), s.pre, ix, p);
    WithdrawTokenSpares(env, AuthOf(env, s.item), s.pre, ix, p, key);
  }

  lemma BridgeMoves(env: Env, s: Step, key: Address)
    requires Valid(env, s) && s.item.ix.BridgeIx? && Sum(s.pre, Lamports) < U64 && IsAdminKey(env, key)
    ensures Get(s.post, key).lamports
            == Get(s.pre, key).lamports + Deposited(s.item, key) - Withdrawn(s.item, key) + Donated(env, s.item, key)
  {
    var ix, auth := s.item.ix.bridge, AuthOf(env, s.item);
    match ix {
      case InitializeAdmin(_, _, _, _, _) => InitializeAdds(env, auth, s.pre, ix, key);
      case TransferOwnership(_, _, _, _, _) =>
        PlayUntouched(env, auth, s.pre, Bridge.TransferOwnershipScript(ix, Bridge.Rotated(env, s.pre, ix)), 0,
                      LamportsOf(key));
      case DepositNative(_, _, _, _, _, _) => DepositNativeAdds(env, s, key);
      case DepositToken(_, _, _, _, _, _, _, _, _, _, _) =>
        DepositTokenSpares(env, auth, s.pre, ix, Bridge.DepositError(env, s.pre, s.item.prior, ix), key);
      case WithdrawNative(_, _, _, _, _, _, _) => NativeWithdrawalMoves(env, s, key);
      case WithdrawToken(_, _, _, _, _, _, _, _, _, _, _, _, _, _, _) => TokenWithdrawalSpares(env, s, key);
    }
  }

  lemma DepositNativeAdds(env: Env, s: Step, key: Address)
    requires Valid(env, s) && s.item.ix.BridgeIx? && s.item.ix.bridge.DepositNative? && IsAdminKey(env, key)
    ensures Get(s.post, key).lamports == Get(s.pre, key).lamports + Deposited(s.item, key)
  {
    var ix := s.item.ix.bridge;
    var ops := Bridge.DepositNativeScript(ix, Bridge.DepositError(env, s.pre, s.item.prior, ix));
    ReachPlays(env, AuthOf(env, s.item), s.pre, ops, 0, 1);
    AdminReceives(env, AuthOf(env, s.item), s.pre, ops, 1, key);
  }

  lemma NativeWithdrawalMoves(env: Env, s: Step, key: Address)
    requires Valid(env, s) && s.item.ix.BridgeIx? && s.item.ix.bridge.WithdrawNative? && Sum(s.pre, Lamports) < U64
             && IsAdminKey(env, key)
    ensures Get(s.post, key).lamports == Get(s.pre, key).lamports - Withdrawn(s.item, key)
  {
    var ix := s.item.ix.bridge;
    NativeWithdrawal(env, s);
    if ix.admin != key {
      NativeScriptSpares(env, AuthOf(env, s.item), s.pre, ix, Bridge.WithdrawNativeError(env, s.pre, ix), key);
    }
  }

  // ---- Commission instructions ----

  lemma ChargeAdds(env: Env, auth: Auth, l: Accounts, ix: Commission.Instruction, price: Outcome<u64>, key: Address)
    requires ix.ChargeCommission? && IsAdminKey(env, key)
    requires Outsiders(env, auth.signers) && auth.program == env.commission
    requires price.Success? ==> ix.admin == CommissionKey(env.commission, ix.bridgeAdmin)
    requires Play(env, auth, l, Commission.ChargeScript(env, ix, price), 0).Success?
    ensures price.Success?
    ensures Get(Play(env, auth, l, Commission.ChargeScript(env, ix, price), 0).value, key).lamports
            == Get(l, key).lamports + if ix.token.Native? && ix.admin == key && ix.owner != key then price.value else 0
  {
    var ops := Commission.ChargeScript(env, ix, price);
    if |ops| == 3 {
      AdminReceives(env, auth, l, ops, 1, key);
    } else {
      ReachPlays(env, auth, l, ops, 0, 0);
      AdminReceives(env, auth, l, ops, 0, key);
    }
  }

  lemma FeeWithdrawalMoves(env: Env, auth: Auth, l: Accounts, ix: Commission.Instruction, next: Outcome<FeeAdmin>,
                           key: Address)
    requires ix.Withdraw? && IsAdminKey(env, key) && Outsiders(env, auth.signers) && auth.program == env.commission
    requires Play(env, auth, l, Commission.WithdrawScript(env, ix, next), 0).Success?
    ensures Get(Play(env, auth, l, Commission.WithdrawScript(env, ix, next), 0).value, key).lamports
            == Get(l, key).lamports
               + (if ix.entry.token.Native? && ix.receiver == key && ix.admin != key then ix.withdrawAmount else 0)
               - (if ix.entry.token.Native? && ix.admin == key && ix.receiver != key then ix.withdrawAmount else 0)
  {
    var ops := Commission.WithdrawScript(env, ix, next);
    AdminReceives(env, auth, l, ops, if |ops| == 5 then 1 else 0, key);
  }

  lemma FeeAdminCreated(env: Env, s: Step, key: Address)
    requires Valid(env, s) && s.item.ix.CommissionIx? && s.item.ix.commission.InitializeAdmin? && IsAdminKey(env, key)
    ensures Get(s.post, key).lamports == Get(s.pre, key).lamports + Donated(env, s.item, key)
  {
    FeeAdminKey(env, s);
    AdminReceives(env, AuthOf(env, s.item), s.pre, Commission.InitializeAdminScript(env, s.item.ix.commission), 1, key);
  }

  lemma EditSpares(env: Env, s: Step, key: Address)
    requires Valid(env, s) && s.item.ix.CommissionIx? && s.item.ix.commission.EditToken?
    ensures Get(s.post, key).lamports == Get(s.pre, key).lamports
  {
    var ix := s.item.ix.commission;
    PlayUntouched(env, AuthOf(env, s.item), s.pre, Commission.EditScript(env, ix, Commission.Next(env, s.pre, ix)), 0,
                  LamportsOf(key));
  }

  lemma CommissionMoves(env: Env, s: Step, key: Address)
    requires Valid(env, s) && s.item.ix.CommissionIx? && IsAdminKey(env, key)
    ensures Get(s.post, key).lamports
            == Get(s.pre, key).lamports + LamportFee(env, s, key) - FeeDrawn(s.item, key) + Donated(env, s.item, key)
  {
    var ix, auth := s.item.ix.commission, AuthOf(env, s.item);
    match ix {
      case InitializeAdmin(_, _, _, _) => FeeAdminCreated(env, s, key);
      case ChargeCommission(_, _, _, _, _, _, _, _, _) =>
        FeeAdminKey(env, s);
        ChargeAdds(env, auth, s.pre, ix, Commission.Price(env, s.pre, ix), key);
      case EditToken(_, _, _, _, _) => EditSpares(env, s, key);
      case Withdraw(_, _, _, _, _, _, _, _, _) =>
        FeeWithdrawalMoves(env, auth, s.pre, ix, Commission.Next(env, s.pre, ix), key);
    }
  }

  /** A successful native charge raises the fee admin's lamports by the first listed price exactly when the payer
      is someone else, or the price is zero: the admin signs for itself in every charge. */
  lemma NativeChargeMovesPriceIff(env: Env, s: Step)
    requires Valid(env, s) && s.item.ix.CommissionIx? && s.item.ix.commission.ChargeCommission?
             && s.item.ix.commission.token.Native?
    ensures Commission.Price(env, s.pre, s.item.ix.commission).Success?
    ensures var ix := s.item.ix.commission; var price := Commission.Price(env, s.pre, ix).value;
            (Get(s.post, ix.admin).lamports - Get(s.pre, ix.admin).lamports == price)
            <==> (ix.owner != ix.admin || price == 0)
  {
    var ix := s.item.ix.commission;
    FeeAdminKey(env, s);
    ChargeAdds(env, AuthOf(env, s.item), s.pre, ix, Commission.Price(env, s.pre, ix), ix.admin);
  }

  // ---- Other instructions ----

  lemma UpgradeSpares(env: Env, s: Step, key: Address)
    requires Valid(env, s) && s.item.ix.UpgradeIx? && IsAdminKey(env, key)
    ensures Get(s.post, key).lamports == Get(s.pre, key).lamports
  {
    var ops := Upgrade.Ops(env, s.pre, s.item.ix.upgrade);
    PlayChecks(env, AuthOf(env, s.item), s.pre, ops, 0);
    if s.item.ix.upgrade.InitializeAdmin? {
      assert ops[0].error == None;
      NotAnAdmin(env, key);
      AdminReceives(env, AuthOf(env, s.item), s.pre, ops, 1, key);
    } else {
      PlayUntouched(env, AuthOf(env, s.item), s.pre, ops, 0, LamportsOf(key));
    }
  }

  lemma OutsidePays(env: Env, auth: Auth, l: Accounts, op: Op, key: Address)
    requires Apply(env, auth, l, op).Success? && IsAdminKey(env, key)
    requires Outsiders(env, auth.signers) && !IsOurProgram(env, auth.program)
    requires op.Payout? ==> op.admin != key && Get(l, op.to).lamports + op.lamports < U64 && op.admin != op.to
    ensures Get(Apply(env, auth, l, op).value, key).lamports
            == Get(l, key).lamports + if (op.Pay? || op.Payout?) && op.to == key then op.lamports else 0
  {
    NotAnAdmin(env, key);
    if !Touches(auth, op, LamportsOf(key)) {
      LamportsUntouched(env, auth, l, op, key);
    } else if op.Payout? {
      InRangeDoesNotWrap(Get(l, op.to).lamports + op.lamports);
    }
  }

  lemma OutsideAdds(env: Env, s: Step, key: Address)
    requires Valid(env, s) && s.item.ix.OutsideIx? && IsAdminKey(env, key)
    ensures Get(s.post, key).lamports == Get(s.pre, key).lamports + Donated(env, s.item, key)
  {
    OutsideIsPermitted(env, s);
    OutsidePays(env, AuthOf(env, s.item), s.pre, s.item.ix.outside.op, key);
  }

  // The net change a step makes to what the admin holds.
  function Net(env: Env, s: Step, key: Address): int {
    Deposited(s.item, key) - Withdrawn(s.item, key) + LamportFee(env, s, key) - FeeDrawn(s.item, key)
    + Donated(env, s.item, key)
  }

  lemma StepMovesLamports(env: Env, s: Step, key: Address)
    requires Valid(env, s) && Sum(s.pre, Lamports) < U64 && IsAdminKey(env, key)
    ensures Get(s.post, key).lamports == Get(s.pre, key).lamports + Net(env, s, key)
  {
    match s.item.ix
    case BridgeIx(_) => BridgeMoves(env, s, key);
    case CommissionIx(_) => CommissionMoves(env, s, key);
    case UpgradeIx(_) => UpgradeSpares(env, s, key);
    case OutsideIx(_) => OutsideAdds(env, s, key);
    case SweepIx => SweepKeeps(env, s, key);
  }

  function AllNet(env: Env, steps: seq<Step>, key: Address): int {
    if steps == [] then 0 else Net(env, steps[0], key) + AllNet(env, steps[1..], key)
  }

  /** A bridge or commission admin holds what it held, plus its native deposits and the listed price of each native
      charge, minus its payouts and withdrawn fees, plus donations: nothing else, in any run, moves its lamports. */
  lemma {:induction false} AdminLamportsAreAccountedFor(env: Env, l: Accounts, steps: seq<Step>, l': Accounts,
      key: Address)
    requires Run(env, l, steps, l') && Sum(l, Lamports) < U64 && IsAdminKey(env, key)
    ensures Get(l', key).lamports == Get(l, key).lamports + AllNet(env, steps, key)
    decreases |steps|
  {
    if steps != [] {
      StepMovesLamports(env, steps[0], key);
      StepKeepsLamports(env, steps[0]);
      AdminLamportsAreAccountedFor(env, steps[0].post, steps[1..], l', key);
    }
  }
}
