/** What each deposit of a transaction has paid, and when that is nothing. */
module DepositFees {
  import opened Wrappers
  import opened ByteStrings
  import opened FeeList
  import opened Borsh
  import opened Chain
  import opened Ledger
  import opened Gauges
  import opened Programs
  import opened Steps
  import opened Vaults
  import opened Fees
  import D = Driver
  import Bridge
  import Commission
  import NativeFlow

  // ---- One deposit ----

  // What the account that a charge pays into holds: tokens in a vault, or the fee admin's lamports.
  function Collected(l: Accounts, c: Commission.Instruction): nat
    requires c.ChargeCommission?
  {
    if c.token.FT? then Balance(l, c.vault) else Get(l, c.admin).lamports
  }

  // The payer is the account that is paid: the handler signs for it in every charge.
  predicate SameAccount(c: Commission.Instruction)
    requires c.ChargeCommission?
  {
    if c.token.FT? then c.ownerToken == c.vault else c.owner == c.admin
  }

  // The price the admin's list asks for the token of the charge.
  function Listed(l: Accounts, c: Commission.Instruction): Option<u64>
    requires c.ChargeCommission?
  {
    if DataAt(l, c.admin).CommissionData? then PriceOf(DataAt(l, c.admin).commission.acceptableTokens, c.token)
    else None
  }

  lemma ChargeMovesListedPrice(env: Env, s: Step)
    requires Valid(env, s) && IsCharge(s.item.ix)
    ensures Listed(s.pre, s.item.ix.commission).Some? && !s.item.ix.commission.token.NFT?
    ensures var c := s.item.ix.commission;
            Collected(s.post, c) == Collected(s.pre, c) + if SameAccount(c) then 0 else Listed(s.pre, c).value
  {
    var c, auth := s.item.ix.commission, AuthOf(env, s.item);
    ChargePassedKeyCheck(env, s);
    NoNftFees(env, auth, s.pre, c, Commission.Price(env, s.pre, c));
    if c.token.FT? {
      ChargeScriptPays(env, auth, s.pre, c, Commission.Price(env, s.pre, c));
    } else {
      FeeAdminKey(env, s);
      NativeFlow.ChargeAdds(env, auth, s.pre, c, Commission.Price(env, s.pre, c), c.admin);
    }
  }

  lemma NoNftFees(env: Env, auth: Auth, l: Accounts, c: Commission.Instruction, price: Outcome<u64>)
    requires c.ChargeCommission? && Play(env, auth, l, Commission.ChargeScript(env, c, price), 0).Success?
    ensures !c.token.NFT?
  {
  }

  // ---- All that the fee admin holds ----

  // The fee admin's lamports, or its tokens of the mint in whatever accounts.
  ghost function Wealth(l: Accounts, c: Commission.Instruction): nat
    requires c.ChargeCommission?
  {
    if c.token.FT? then Sum(l, HeldBy(c.admin, c.token.mint)) else Get(l, c.admin).lamports
  }

  lemma OpeningKeepsSum(env: Env, auth: Auth, l: Accounts, op: Op, w: Weight)
    requires op.EnsureAssociated? && Apply(env, auth, l, op).Success? && w.HeldBy?
    ensures Sum(Apply(env, auth, l, op).value, w) == Sum(l, w)
  {
    var l' := Apply(env, auth, l, op).value;
    if NoData(l, op.key) {
      SumUpdate2(l, w, op.payer, l'[op.payer], op.key, l'[op.key]);
    }
  }

  // A transfer to one of the holder's accounts: it gains unless it pays.
  lemma MoveToHolder(env: Env, auth: Auth, l: Accounts, op: Op, w: Weight)
    requires op.Move? && Apply(env, auth, l, op).Success? && w.HeldBy?
    requires DataAt(l, op.to).mint == w.heldMint && DataAt(l, op.to).holder == w.holder
    ensures Sum(Apply(env, auth, l, op).value, w) == Sum(l, w) + if op.authority == w.holder then 0 else op.amount
  {
    var l' := Apply(env, auth, l, op).value;
    if op.from != op.to {
      SumUpdate2(l, w, op.from, l'[op.from], op.to, l'[op.to]);
    }
  }

  lemma TokenChargeEnriches(env: Env, auth: Auth, l: Accounts, c: Commission.Instruction, price: Outcome<u64>)
    requires c.ChargeCommission? && c.token.FT? && View(c.admin, c.token.mint).Sound(env, l)
    requires Play(env, auth, l, Commission.ChargeScript(env, c, price), 0).Success?
    ensures price.Success?
    ensures Wealth(Play(env, auth, l, Commission.ChargeScript(env, c, price), 0).value, c)
            == Wealth(l, c) + if c.owner == c.admin then 0 else price.value
  {
    var ops, w := Commission.ChargeScript(env, c, price), HeldBy(c.admin, c.token.mint);
    PlayChecks(env, auth, l, ops, 0);
    assert ops[0].error == None;
    var l1 := PlayOne(env, auth, l, ops, 1);
    OpeningKeepsSum(env, auth, l, ops[1], w);
    ApplyKeepsSound(env, auth, l, ops[1], View(c.admin, c.token.mint));
    var l2 := PlayOne(env, auth, l1, ops, 2);
    MoveToHolder(env, auth, l1, ops[2], w);
    assert Play(env, auth, l, ops, 0) == Play(env, auth, l, ops, 1);
    assert Play(env, auth, l2, ops, 3) == Success(l2);
  }

  /** A charge, in tokens or lamports, raises everything the fee admin holds in its currency by the price then listed,
      unless the fee admin pays, out of whichever of its accounts. */
  lemma ChargeEnriches(env: Env, s: Step)
    requires Valid(env, s) && IsCharge(s.item.ix)
    requires var c := s.item.ix.commission; c.token.FT? ==> View(c.admin, c.token.mint).Sound(env, s.pre)
    ensures Listed(s.pre, s.item.ix.commission).Some?
    ensures var c := s.item.ix.commission;
            Wealth(s.post, c) == Wealth(s.pre, c) + if c.owner == c.admin then 0 else Listed(s.pre, c).value
  {
    var c, auth := s.item.ix.commission, AuthOf(env, s.item);
    ChargePassedKeyCheck(env, s);
    NoNftFees(env, auth, s.pre, c, Commission.Price(env, s.pre, c));
    if c.token.FT? {
      TokenChargeEnriches(env, auth, s.pre, c, Commission.Price(env, s.pre, c));
    } else {
      FeeAdminKey(env, s);
      NativeFlow.ChargeAdds(env, auth, s.pre, c, Commission.Price(env, s.pre, c), c.admin);
    }
  }

  lemma {:induction false} RunKeepsSound(env: Env, l: Accounts, steps: seq<Step>, l': Accounts, v: View)
    requires Run(env, l, steps, l') && v.Sound(env, l)
    ensures v.Sound(env, l')
    decreases |steps|
  {
    if steps != [] {
      StepKeepsSound(env, steps[0], v);
      RunKeepsSound(env, steps[0].post, steps[1..], l', v);
    }
  }

  // The fee admin's vault is as sound at a step as it was at the start.
  lemma SoundAtCharge(env: Env, l: Accounts, steps: seq<Step>, l': Accounts, i: nat)
    requires Run(env, l, steps, l') && i < |steps| && IsCharge(steps[i].item.ix)
    requires HolderSound(env, l, steps[i].item.ix.commission.admin)
    ensures var c := steps[i].item.ix.commission;
            Valid(env, steps[i]) && (c.token.FT? ==> View(c.admin, c.token.mint).Sound(env, steps[i].pre))
  {
    var c := steps[i].item.ix.commission;
    D.RunSplits(Executor(env), l, steps, l', i);
    if c.token.FT? {
      assert View(c.admin, c.token.mint).Sound(env, l);
      RunKeepsSound(env, l, steps[..i], steps[i].pre, View(c.admin, c.token.mint));
    }
  }

  // What a charge has to do for a deposit to have paid its fee.
  ghost predicate PaidFee(s: Step)
    requires IsCharge(s.item.ix) && Listed(s.pre, s.item.ix.commission).Some?
  {
    var c := s.item.ix.commission;
    Wealth(s.post, c) - Wealth(s.pre, c) == Listed(s.pre, c).value
  }

  lemma ChargePaidIff(env: Env, l: Accounts, steps: seq<Step>, l': Accounts, i: nat)
    requires Run(env, l, steps, l') && i < |steps| && IsCharge(steps[i].item.ix)
    requires HolderSound(env, l, steps[i].item.ix.commission.admin)
    ensures var s, c := steps[i], steps[i].item.ix.commission;
            Listed(s.pre, c).Some? && (PaidFee(s) <==> c.owner != c.admin || Listed(s.pre, c).value == 0)
  {
    SoundAtCharge(env, l, steps, l', i);
    ChargeEnriches(env, steps[i]);
  }

  /** In a transaction that takes effect, the instruction before each deposit is a charge for exactly that deposit, and
      it raised all that the fee admin holds, its tokens of the mint or its lamports, by the price then listed if and
      only if somebody else paid or the price is zero. */
  lemma DepositPaidItsFeeIff(env: Env, tx: Transaction, l: Accounts, steps: seq<Step>, l': Accounts, i: nat)
    requires Executes(env, tx, l, steps, l') && i < |steps| && IsDeposit(steps[i].item.ix)
    requires UsesThisCommission(env, steps[i].pre, steps[i].item.ix.bridge.admin)
    requires HolderSound(env, l, CommissionKey(env.commission, steps[i].item.ix.bridge.admin))
    ensures i > 0 && PaysFor(env, steps[i - 1].item.ix, steps[i].item.ix)
    ensures var s, c := steps[i - 1], steps[i - 1].item.ix.commission;
            Listed(s.pre, c).Some? && (PaidFee(s) <==> c.owner != c.admin || Listed(s.pre, c).value == 0)
  {
    DepositsArePaidFor(env, tx, l, steps, l', i);
    ChargePaidIff(env, l, steps, l', i - 1);
  }

  // ---- A whole transaction ----

  // Where fees are collected: a fee admin's vault for a mint, or its lamports.
  datatype FeeAccount = Vault(view: View) | Funds(admin: Address) {
    function Admin(): Address {
      if Vault? then view.holder else admin
    }

    function Token(): FeeToken<Address> {
      if Vault? then FT(view.mint) else Native
    }

    function Holding(env: Env, l: Accounts): nat {
      match this
      case Vault(v) => Balance(l, v.Vault(env))
      case Funds(a) => Get(l, a).lamports
    }

    // What a charge paid into the account; nothing for other steps, other accounts and self-paid charges.
    function Charged(env: Env, s: Step): nat {
      match this
      case Vault(v) => FeeCharged(env, s, v)
      case Funds(a) => NativeFlow.LamportFee(env, s, a)
    }

    // What else a step does to the account: withdrawals, gifts, its own rent.
    function Other(env: Env, s: Step): int {
      match this
      case Vault(v) => Given(env, s, v) - FeesDrawn(env, s, v)
      case Funds(a) => NativeFlow.Net(env, s, a) - NativeFlow.LamportFee(env, s, a)
    }

    ghost predicate Sound(env: Env, l: Accounts, bridgeAdmin: Address) {
      Admin() == CommissionKey(env.commission, bridgeAdmin)
      && match this
         case Vault(v) => HolderSound(env, l, v.holder)
         case Funds(_) => Sum(l, Lamports) < U64
    }
  }

  // The price listed at a charge into the account that does not pay itself; nothing for other steps.
  function ListedInto(s: Step, acc: FeeAccount): nat {
    if IsCharge(s.item.ix) && s.item.ix.commission.admin == acc.Admin() && s.item.ix.commission.token == acc.Token()
       && !SameAccount(s.item.ix.commission) && Listed(s.pre, s.item.ix.commission).Some?
    then Listed(s.pre, s.item.ix.commission).value else 0
  }

  lemma ChargedIsListedPrice(env: Env, s: Step, acc: FeeAccount)
    requires Valid(env, s)
    ensures acc.Charged(env, s) == ListedInto(s, acc)
  {
    if IsCharge(s.item.ix) {
      ChargePassedKeyCheck(env, s);
      ChargeMovesListedPrice(env, s);
      if s.item.ix.commission.token.FT? {
        var c := s.item.ix.commission;
        ChargeScriptPays(env, AuthOf(env, s.item), s.pre, c, Commission.Price(env, s.pre, c));
      }
    }
  }

  lemma StepHolding(env: Env, s: Step, acc: FeeAccount, bridgeAdmin: Address)
    requires Valid(env, s) && acc.Sound(env, s.pre, bridgeAdmin)
    ensures acc.Sound(env, s.post, bridgeAdmin)
    ensures acc.Holding(env, s.post) == acc.Holding(env, s.pre) + ListedInto(s, acc) + acc.Other(env, s)
  {
    ChargedIsListedPrice(env, s, acc);
    match acc
    case Vault(v) => StepFeeVault(env, s, v, bridgeAdmin);
    case Funds(a) =>
      NativeFlow.StepMovesLamports(env, s, a);
      NativeFlow.StepKeepsLamports(env, s);
  }

  // The charges that stand just before a deposit: deposit `i` goes with charge `i - 1`.
  function PaidForDeposits(steps: seq<Step>, acc: FeeAccount): nat {
    if |steps| < 2 then 0
    else (if IsDeposit(steps[1].item.ix) then ListedInto(steps[0], acc) else 0) + PaidForDeposits(steps[1..], acc)
  }

  // The other charges.
  function PaidOtherwise(steps: seq<Step>, acc: FeeAccount): nat {
    if steps == [] then 0
    else
      (if |steps| > 1 && IsDeposit(steps[1].item.ix) then 0 else ListedInto(steps[0], acc))
      + PaidOtherwise(steps[1..], acc)
  }

  function AllOther(env: Env, steps: seq<Step>, acc: FeeAccount): int {
    if steps == [] then 0 else acc.Other(env, steps[0]) + AllOther(env, steps[1..], acc)
  }

  lemma {:induction false} RunHolding(env: Env, l: Accounts, steps: seq<Step>, l': Accounts, acc: FeeAccount,
                                      bridgeAdmin: Address)
    requires Run(env, l, steps, l') && acc.Sound(env, l, bridgeAdmin)
    ensures acc.Holding(env, l')
            == acc.Holding(env, l) + PaidForDeposits(steps, acc) + PaidOtherwise(steps, acc)
               + AllOther(env, steps, acc)
    decreases |steps|
  {
    if steps != [] {
      StepHolding(env, steps[0], acc, bridgeAdmin);
      RunHolding(env, steps[0].post, steps[1..], l', acc, bridgeAdmin);
    }
  }

  // Every deposit of the transaction has appointed the commission program of this model.
  ghost predicate AllUseThisCommission(env: Env, steps: seq<Step>) {
    forall i :: 0 <= i < |steps| && IsDeposit(steps[i].item.ix) ==>
                  UsesThisCommission(env, steps[i].pre, steps[i].item.ix.bridge.admin)
  }

  /** A whole transaction: every deposit goes with its own charge, the one before it, and what a fee account gains is
      the prices listed at those charges and at the charges for no deposit, self-paid ones counting nothing, plus
      what other instructions did. */
  lemma TransactionFees(env: Env, tx: Transaction, l: Accounts, steps: seq<Step>, l': Accounts, acc: FeeAccount,
                        bridgeAdmin: Address)
    requires Executes(env, tx, l, steps, l') && AllUseThisCommission(env, steps) && acc.Sound(env, l, bridgeAdmin)
    ensures forall i :: 0 <= i < |steps| && IsDeposit(steps[i].item.ix) ==>
                          i > 0 && PaysFor(env, steps[i - 1].item.ix, steps[i].item.ix)
    ensures acc.Holding(env, l')
            == acc.Holding(env, l) + PaidForDeposits(steps, acc) + PaidOtherwise(steps, acc)
               + AllOther(env, steps, acc)
  {
    forall i | 0 <= i < |steps| && IsDeposit(steps[i].item.ix)
      ensures i > 0 && PaysFor(env, steps[i - 1].item.ix, steps[i].item.ix)
    {
      DepositsArePaidFor(env, tx, l, steps, l', i);
    }
    RunHolding(env, l, steps, l', acc, bridgeAdmin);
  }

  // ---- A deposit that pays nothing ----

  /** Any charge whose payer is the fee admin itself, out of the very vault it would pay into, takes effect and changes
      nothing, as long as the vault holds the price. */
  lemma SelfChargeChangesNothing(env: Env, l: Accounts, item: Item)
    requires IsCharge(item.ix) && Outsiders(env, item.signers)
    requires var c := item.ix.commission;
             c.admin == CommissionKey(env.commission, c.bridgeAdmin) && c.token.FT? && c.owner == c.admin
             && c.vault == AssociatedKey(env, c.admin, c.token.mint) && c.ownerToken == c.vault
             && DataAt(l, c.admin).CommissionData? && DataAt(l, c.admin).commission.isInitialized
             && Listed(l, c).Some? && DataAt(l, c.vault).TokenData? && DataAt(l, c.vault).holder == c.admin
             && Listed(l, c).value <= Balance(l, c.vault)
    ensures Exec(env, l, item) == Success(l)
  {
    var c, auth := item.ix.commission, AuthOf(env, item);
    var ops := Commission.ChargeScript(env, c, Commission.Price(env, l, c));
    assert Commission.Price(env, l, c) == Success(Listed(l, c).value);
    assert Play(env, auth, l, ops, 0) == Play(env, auth, l, ops, 1);
    assert Play(env, auth, l, ops, 1) == Play(env, auth, l, ops, 2);
    assert Apply(env, auth, l, ops[2]) == Success(l);
  }

  // A bridge admin, its fee admin with one token on the list, a vault that holds the price, and a depositor.
  const DEPOSITOR := Base(1)
  const FEE_MINT := Base(2)

  function BridgeAdminKey(env: Env): Address {
    BridgeKey(env, Zeros(32))
  }

  function FeeAdminAddress(env: Env): Address {
    CommissionKey(env.commission, BridgeAdminKey(env))
  }

  function FeeVault(env: Env): Address {
    AssociatedKey(env, FeeAdminAddress(env), FEE_MINT)
  }

  function Before(env: Env, price: u64, amount: u64): Accounts {
    var bridge, fees := BridgeAdmin(Zeros(64), env.commission, true),
                        Commission.InitialAdmin([FeeEntry(FT(FEE_MINT), price)]);
    map[BridgeAdminKey(env) := Account(env.rent(BRIDGE_ADMIN_SIZE), env.bridge, BridgeData(bridge)),
        FeeAdminAddress(env) := Account(env.rent(MaxAdminSize(env.tokenSize)), env.commission, CommissionData(fees)),
        FeeVault(env) :=
          Account(env.rent(TOKEN_SIZE), env.tokenProgram, TokenData(FEE_MINT, FeeAdminAddress(env), price)),
        DEPOSITOR := Account(amount, env.systemProgram, Blank(0))]
  }

  function SelfCharge(env: Env, amount: u64): Instruction {
    CommissionIx(Commission.ChargeCommission(FeeAdminAddress(env), BridgeAdminKey(env), FeeAdminAddress(env),
                                             FeeVault(env), FeeVault(env), FEE_MINT, FT(FEE_MINT), Sol, amount))
  }

  function Deposit(env: Env, amount: u64): Instruction {
    BridgeIx(Bridge.DepositNative(BridgeAdminKey(env), DEPOSITOR, Zeros(32), [], [], amount))
  }

  function UnpaidTransaction(env: Env, amount: u64): Transaction {
    Transaction({DEPOSITOR}, [SelfCharge(env, amount), Deposit(env, amount)])
  }

  lemma KeysDiffer(env: Env)
    ensures FeeAdminAddress(env) != BridgeAdminKey(env) && FeeVault(env) != BridgeAdminKey(env)
    ensures FeeVault(env) != FeeAdminAddress(env)
  {
    assert |BridgeAdminKey(env).seeds| == 1 && |FeeAdminAddress(env).seeds| == 2 && |FeeVault(env).seeds| == 4;
  }

  lemma DepositFollows(env: Env, price: u64, amount: u64)
    requires amount > 0 && env.rent(BRIDGE_ADMIN_SIZE) + amount < U64
    ensures var item, l := ItemAt(env, UnpaidTransaction(env, amount), 1), Before(env, price, amount);
            Exec(env, l, item).Success?
            && Get(Exec(env, l, item).value, BridgeAdminKey(env)).lamports == env.rent(BRIDGE_ADMIN_SIZE) + amount
            && Get(Exec(env, l, item).value, FeeVault(env)) == Get(l, FeeVault(env))
  {
    KeysDiffer(env);
    var item, l := ItemAt(env, UnpaidTransaction(env, amount), 1), Before(env, price, amount);
    var ix := item.ix.bridge;
    assert Bridge.DepositError(env, l, item.prior, ix) == None;
    var ops := Bridge.DepositNativeScript(ix, None);
    assert Play(env, AuthOf(env, item), l, ops, 0) == Play(env, AuthOf(env, item), l, ops, 1);
    assert Play(env, AuthOf(env, item), l, ops, 1) == Apply(env, AuthOf(env, item), l, ops[1]);
  }

  /** The witness: whatever the price, a transaction of a self-paid charge and a deposit takes effect; the deposit
      arrives and the fee vault gains nothing. */
  lemma DepositWithoutFee(env: Env, price: u64, amount: u64) returns (l': Accounts)
    requires amount > 0 && env.rent(BRIDGE_ADMIN_SIZE) + amount < U64
    ensures D.RunBatch(Executor(env), Before(env, price, amount), Items(env, UnpaidTransaction(env, amount)))
            == Success(l')
    ensures IsDeposit(UnpaidTransaction(env, amount).instructions[1])
    ensures Get(l', BridgeAdminKey(env)).lamports == env.rent(BRIDGE_ADMIN_SIZE) + amount
    ensures Balance(l', FeeVault(env)) == Balance(Before(env, price, amount), FeeVault(env))
  {
    var l, tx := Before(env, price, amount), UnpaidTransaction(env, amount);
    KeysDiffer(env);
    SelfChargeChangesNothing(env, l, ItemAt(env, tx, 0));
    DepositFollows(env, price, amount);
    var deposited := Exec(env, l, ItemAt(env, tx, 1)).value;
    l' := Swept(env, deposited);
    SweptAt(env, deposited, BridgeAdminKey(env));
    SweptAt(env, deposited, FeeVault(env));
    assert Items(env, tx) == [ItemAt(env, tx, 0), ItemAt(env, tx, 1), SWEEP];
    BatchOfThree(env, l, ItemAt(env, tx, 0), l, ItemAt(env, tx, 1), deposited, SWEEP, l');
  }

  lemma BatchOfThree(env: Env, l: Accounts, i1: Item, l1: Accounts, i2: Item, l2: Accounts, i3: Item, l3: Accounts)
    requires Exec(env, l, i1) == Success(l1) && Exec(env, l1, i2) == Success(l2) && Exec(env, l2, i3) == Success(l3)
    ensures D.RunBatch(Executor(env), l, [i1, i2, i3]) == Success(l3)
  {
    D.BatchOfThree(Executor(env), l, i1, l1, i2, l2, i3, l3);
  }
}
