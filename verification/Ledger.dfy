/** Accounts, and the runtime operations the programs ask for. */
module Ledger {
  import opened Wrappers
  import opened ByteStrings
  import opened Borsh
  import opened Chain

  // bridge/program/src/state.rs
  datatype BridgeAdmin = BridgeAdmin(publicKey: Bytes, commissionProgram: Address, isInitialized: bool)

  datatype Withdraw = Withdraw(
    tokenType: TokenType,
    mint: Option<Address>,
    amount: u64,
    origin: Bytes,
    receiver: Address,
    isInitialized: bool)

  // upgrade/program/src/state.rs
  datatype UpgradeAdmin = UpgradeAdmin(publicKey: Bytes, contract: Address, nonce: u64, isInitialized: bool)

  type FeeAdmin = CommissionAdmin<Address>

  datatype Metadata = Metadata(name: Bytes, symbol: Bytes, uri: Bytes, collection: Option<Address>)

  datatype Data =
    | Blank(size: nat) // all bytes zero; size 0 is no data at all
    | BridgeData(bridge: BridgeAdmin)
    | WithdrawData(withdraw: Withdraw)
    | CommissionData(commission: FeeAdmin)
    | UpgradeData(upgrade: UpgradeAdmin)
    | MintData(authority: Option<Address>, supply: u64, decimals: byte)
    | TokenData(mint: Address, holder: Address, amount: u64)
    | MetadataData(metadata: Metadata)
    | ProgramData(upgradeAuthority: Option<Address>, image: Bytes)
    | BufferData(bufferAuthority: Option<Address>, code: Bytes)

  datatype Account = Account(lamports: nat, owner: Address, data: Data)

  type Accounts = map<Address, Account>

  const BRIDGE_ADMIN_SIZE: nat := 97
  const UPGRADE_ADMIN_SIZE: nat := 105
  const MINT_SIZE: nat := 82
  const TOKEN_SIZE: nat := 165
  const METADATA_SIZE: nat := 679

  // `WITHDRAW_SIZE`, which depends on the memory layout of the token type.
  function WithdrawSize(env: Env): nat {
    env.tagSize + 161
  }

  function Get(l: Accounts, key: Address): Account {
    if key in l then l[key] else Account(0, Base(0), Blank(0))
  }

  function DataAt(l: Accounts, key: Address): Data {
    Get(l, key).data
  }

  // `data.len() == 0`
  predicate NoData(l: Accounts, key: Address) {
    DataAt(l, key) == Blank(0)
  }

  predicate Occupied(l: Accounts, key: Address) {
    Get(l, key).lamports > 0 || !NoData(l, key)
  }

  // Deserialisation: the type itself, or zeroed bytes long enough for it.
  function ReadBridge(l: Accounts, key: Address): Option<BridgeAdmin> {
    match DataAt(l, key)
    case BridgeData(a) => Some(a)
    case Blank(size) => if size >= BRIDGE_ADMIN_SIZE then Some(BridgeAdmin(Zeros(64), Base(0), false)) else None
    case _ => None
  }

  function ReadCommission(l: Accounts, key: Address): Option<FeeAdmin> {
    match DataAt(l, key)
    case CommissionData(a) => Some(a)
    case Blank(size) => if size >= 37 then Some(CommissionAdmin([], 0, 0, 0, 0, false)) else None
    case _ => None
  }

  function ReadUpgrade(l: Accounts, key: Address): Option<UpgradeAdmin> {
    match DataAt(l, key)
    case UpgradeData(a) => Some(a)
    case Blank(size) => if size >= UPGRADE_ADMIN_SIZE then Some(UpgradeAdmin(Zeros(64), Base(0), 0, false)) else None
    case _ => None
  }

  function Balance(l: Accounts, key: Address): nat {
    if DataAt(l, key).TokenData? then DataAt(l, key).amount else 0
  }

  function Supply(l: Accounts, mint: Address): nat {
    if DataAt(l, mint).MintData? then DataAt(l, mint).supply else 0
  }

  // The executing program and the wallets that signed the transaction.
  datatype Auth = Auth(program: Address, signers: set<Address>)

  // A derived address signs only through its own program, which supplies the seeds (none: []).
  function Signers(auth: Auth, seeds: seq<Seed>): set<Address> {
    auth.signers + if seeds == [] then {} else {Pda(auth.program, seeds)}
  }

  datatype Op =
    | Check(error: Option<Error>)
    | Create(payer: Address, key: Address, size: nat, owner: Address, seeds: seq<Seed>)
    | Pay(payer: Address, to: Address, lamports: u64, seeds: seq<Seed>)
    | Payout(admin: Address, to: Address, lamports: u64)
    | InitMint(mint: Address, authority: Address, decimals: byte)
    | CreateMetadata(key: Address, mint: Address, authority: Address, payer: Address, metadata: Metadata,
                     seeds: seq<Seed>)
    | EnsureAssociated(payer: Address, wallet: Address, mint: Address, key: Address)
    | NeedToken(key: Address)
    | TopUp(mint: Address, key: Address, authority: Address, atLeast: u64, seeds: seq<Seed>)
    | MintTo(mint: Address, key: Address, authority: Address, amount: u64, seeds: seq<Seed>)
    | Burn(key: Address, mint: Address, authority: Address, amount: u64)
    | Move(from: Address, to: Address, authority: Address, amount: u64, seeds: seq<Seed>)
    | Store(key: Address, data: Data)
    | Deploy(target: Address, buffer: Address, authority: Address, seeds: seq<Seed>)

  predicate CanSpend(env: Env, l: Accounts, payer: Address, lamports: nat) {
    Get(l, payer).lamports >= lamports && (NoData(l, payer) || (env.spendsFromData && DataAt(l, payer).CommissionData?))
  }

  // The payer funds a new account that nobody has used before.
  function Created(env: Env, l: Accounts, payer: Address, key: Address, size: nat, owner: Address,
                   data: Data): Outcome<Accounts> {
    var cost := env.rent(size);
    if payer == key || !CanSpend(env, l, payer, cost) || Occupied(l, key) then Failure(Runtime)
    else
      var p := Get(l, payer);
      Success(l[payer := p.(lamports := p.lamports - cost)][key := Account(cost, owner, data)])
  }

  // The associated-token program: lamports already at the address count towards its rent.
  function Opened(env: Env, l: Accounts, payer: Address, key: Address, size: nat, owner: Address,
                  data: Data): Outcome<Accounts> {
    var p, held := Get(l, payer), Get(l, key).lamports;
    var cost := if held < env.rent(size) then env.rent(size) - held else 0;
    if payer == key || !CanSpend(env, l, payer, cost) || !NoData(l, key) then Failure(Runtime)
    else Success(l[payer := p.(lamports := p.lamports - cost)][key := Account(held + cost, owner, data)])
  }

  function Paid(env: Env, l: Accounts, payer: Address, to: Address, lamports: nat): Outcome<Accounts> {
    var p, t := Get(l, payer), Get(l, to);
    if !CanSpend(env, l, payer, lamports) then Failure(Runtime)
    else if payer == to then Success(l)
    else if t.lamports + lamports >= U64 then Failure(Runtime)
    else Success(l[payer := p.(lamports := p.lamports - lamports)][to := t.(lamports := t.lamports + lamports)])
  }

  // `-=` on one account's lamports, then `+=` on the other's.
  function PaidOut(l: Accounts, admin: Address, to: Address, lamports: u64): Accounts {
    var debited := l[admin := Get(l, admin).(lamports := WrapSub(Get(l, admin).lamports, lamports))];
    debited[to := Get(debited, to).(lamports := WrapAdd(Get(debited, to).lamports, lamports))]
  }

  function WithData(l: Accounts, key: Address, data: Data): Accounts {
    l[key := Get(l, key).(data := data)]
  }

  function Minted(l: Accounts, mint: Address, key: Address, authority: Address, amount: nat): Outcome<Accounts> {
    var m, t := DataAt(l, mint), DataAt(l, key);
    if !m.MintData? || !t.TokenData? || t.mint != mint || m.authority != Some(authority) then Failure(Runtime)
    else if m.supply + amount >= U64 || t.amount + amount >= U64 then Failure(Runtime)
    else Success(WithData(WithData(l, mint, m.(supply := m.supply + amount)), key, t.(amount := t.amount + amount)))
  }

  function Burned(l: Accounts, key: Address, mint: Address, authority: Address, amount: u64): Outcome<Accounts> {
    var m, t := DataAt(l, mint), DataAt(l, key);
    if !m.MintData? || !t.TokenData? || t.mint != mint || t.holder != authority then Failure(Runtime)
    else if t.amount < amount || m.supply < amount then Failure(Runtime)
    else Success(WithData(WithData(l, mint, m.(supply := m.supply - amount)), key, t.(amount := t.amount - amount)))
  }

  function Moved(l: Accounts, from: Address, to: Address, authority: Address, amount: u64): Outcome<Accounts> {
    var f, t := DataAt(l, from), DataAt(l, to);
    if !f.TokenData? || !t.TokenData? || f.mint != t.mint || f.holder != authority || f.amount < amount then
      Failure(Runtime)
    else if from == to then Success(l)
    else if t.amount + amount >= U64 then Failure(Runtime)
    else Success(WithData(WithData(l, from, f.(amount := f.amount - amount)), to, t.(amount := t.amount + amount)))
  }

  // A program writes its own account: fresh zeroes, or state of the type it has just read.
  predicate Writable(before: Data, after: Data) {
    match before
    case Blank(size) =>
      size > 0 && (after.BridgeData? || after.WithdrawData? || after.CommissionData? || after.UpgradeData?)
    case BridgeData(_) => after.BridgeData?
    case CommissionData(_) => after.CommissionData?
    case UpgradeData(_) => after.UpgradeData?
    case _ => false
  }

  function Apply(env: Env, auth: Auth, l: Accounts, op: Op): Outcome<Accounts> {
    match op
    case Check(error) => if error.Some? then Failure(error.value) else Success(l)
    case Create(payer, key, size, owner, seeds) =>
      if {payer, key} <= Signers(auth, seeds) then Created(env, l, payer, key, size, owner, Blank(size))
      else Failure(Runtime)
    case Pay(payer, to, lamports, seeds) =>
      if payer in Signers(auth, seeds) then Paid(env, l, payer, to, lamports) else Failure(Runtime)
    case Payout(admin, to, lamports) =>
      if Get(l, admin).owner == auth.program then Success(PaidOut(l, admin, to, lamports)) else Failure(Runtime)
    case InitMint(mint, authority, decimals) =>
      if Get(l, mint).owner == env.tokenProgram && DataAt(l, mint) == Blank(MINT_SIZE)
      then Success(WithData(l, mint, MintData(Some(authority), 0, decimals)))
      else Failure(Runtime)
    case CreateMetadata(key, mint, authority, payer, metadata, seeds) =>
      if {authority, payer} <= Signers(auth, seeds) && key == MetadataKey(env, mint)
         && DataAt(l, mint).MintData? && DataAt(l, mint).authority == Some(authority)
      then Created(env, l, payer, key, METADATA_SIZE, env.metadataProgram, MetadataData(metadata))
      else Failure(Runtime)
    case EnsureAssociated(payer, wallet, mint, key) =>
      if !NoData(l, key) then Success(l)
      else if payer in auth.signers && key == AssociatedKey(env, wallet, mint) && DataAt(l, mint).MintData?
      then Opened(env, l, payer, key, TOKEN_SIZE, env.tokenProgram, TokenData(mint, wallet, 0))
      else Failure(Runtime)
    case NeedToken(key) => if DataAt(l, key).TokenData? then Success(l) else Failure(Runtime)
    case TopUp(mint, key, authority, atLeast, seeds) =>
      if Balance(l, key) >= atLeast then Success(l)
      else if authority in Signers(auth, seeds) then Minted(l, mint, key, authority, atLeast - Balance(l, key))
      else Failure(Runtime)
    case MintTo(mint, key, authority, amount, seeds) =>
      if authority in Signers(auth, seeds) then Minted(l, mint, key, authority, amount) else Failure(Runtime)
    case Burn(key, mint, authority, amount) =>
      if authority in auth.signers then Burned(l, key, mint, authority, amount) else Failure(Runtime)
    case Move(from, to, authority, amount, seeds) =>
      if authority in Signers(auth, seeds) then Moved(l, from, to, authority, amount) else Failure(Runtime)
    case Store(key, data) =>
      if Get(l, key).owner != auth.program then Failure(Runtime)
      else if !Writable(DataAt(l, key), data) then Failure(AlreadyInUse)
      else Success(WithData(l, key, data))
    case Deploy(target, buffer, authority, seeds) =>
      var p, b := DataAt(l, target), DataAt(l, buffer);
      if authority in Signers(auth, seeds) && p.ProgramData? && b.BufferData?
         && p.upgradeAuthority == Some(authority) && b.bufferAuthority == Some(authority)
      then Success(WithData(l, target, p.(image := b.code)))
      else Failure(Runtime)
  }

  // Data whose account nobody debits to nothing, as `Solvency` shows: the runtime's own accounts, and our records
  // and upgrade admins.
  predicate Lasting(env: Env, key: Address, d: Data) {
    d.MintData? || d.TokenData? || d.MetadataData? || d.ProgramData? || d.BufferData?
    || (Ours(env, key) && (d.WithdrawData? || d.UpgradeData?))
  }

  predicate Dropped(env: Env, l: Accounts, key: Address) {
    Get(l, key).lamports == 0 && !Lasting(env, key, DataAt(l, key))
  }

  /** What the runtime leaves at the end of a transaction: accounts without lamports are gone. */
  function Swept(env: Env, l: Accounts): Accounts {
    map key | key in l && !Dropped(env, l, key) :: l[key]
  }

  lemma SweptAt(env: Env, l: Accounts, key: Address)
    ensures Get(Swept(env, l), key) == if Dropped(env, l, key) then Account(0, Base(0), Blank(0)) else Get(l, key)
  {
  }

  /** Runs the operations from `i` on; the first failure is the instruction's error. */
  function Play(env: Env, auth: Auth, l: Accounts, ops: seq<Op>, i: nat): Outcome<Accounts>
    requires i <= |ops|
    decreases |ops| - i
  {
    if i == |ops| then Success(l)
    else
      match Apply(env, auth, l, ops[i])
      case Failure(e) => Failure(e)
      case Success(l') => Play(env, auth, l', ops, i + 1)
  }

  lemma PlayLast(env: Env, auth: Auth, l: Accounts, ops: seq<Op>)
    requires ops != []
    ensures Play(env, auth, l, ops, |ops| - 1) == Apply(env, auth, l, ops[|ops| - 1])
  {
  }

  // A check passes on to the rest of the script, or ends it with its error.
  lemma PlayCheck(env: Env, auth: Auth, l: Accounts, ops: seq<Op>, i: nat)
    requires i < |ops| && ops[i].Check?
    ensures Play(env, auth, l, ops, i)
            == if ops[i].error.Some? then Failure(ops[i].error.value) else Play(env, auth, l, ops, i + 1)
  {
  }

  lemma PlayNext(env: Env, auth: Auth, l: Accounts, ops: seq<Op>, i: nat)
    requires i < |ops|
    ensures var next := Apply(env, auth, l, ops[i]);
            Play(env, auth, l, ops, i) == if next.Failure? then next else Play(env, auth, next.value, ops, i + 1)
  {
  }

  /** How an account's data may change: what is written stays what it is, and tokens keep their mint and holder. */
  predicate Evolves(before: Data, after: Data) {
    match before
    case Blank(size) => size > 0 ==> !after.Blank? || after == before
    case BridgeData(_) => after.BridgeData?
    case WithdrawData(_) => after == before
    case CommissionData(_) => after.CommissionData?
    case UpgradeData(_) => after.UpgradeData?
    case MintData(authority, _, decimals) => after.MintData? && after.authority == authority
        && after.decimals == decimals
    case TokenData(mint, holder, _) => after.TokenData? && after.mint == mint && after.holder == holder
    case MetadataData(_) => after == before
    case ProgramData(authority, _) => after.ProgramData? && after.upgradeAuthority == authority
    case BufferData(_, _) => after == before
  }

  ghost predicate AllEvolve(l: Accounts, l': Accounts) {
    forall key :: Evolves(DataAt(l, key), DataAt(l', key))
  }

  lemma AllEvolveTransitive(l1: Accounts, l2: Accounts, l3: Accounts)
    requires AllEvolve(l1, l2) && AllEvolve(l2, l3)
    ensures AllEvolve(l1, l3)
  {
    forall key ensures Evolves(DataAt(l1, key), DataAt(l3, key)) {
      assert Evolves(DataAt(l1, key), DataAt(l2, key)) && Evolves(DataAt(l2, key), DataAt(l3, key));
    }
  }

  lemma UpdateEvolves(l: Accounts, key: Address, a: Account)
    requires Evolves(DataAt(l, key), a.data)
    ensures AllEvolve(l, l[key := a])
  {
  }

  lemma UpdatesEvolve(l: Accounts, k1: Address, a1: Account, k2: Address, a2: Account)
    requires k1 != k2 && Evolves(DataAt(l, k1), a1.data) && Evolves(DataAt(l, k2), a2.data)
    ensures AllEvolve(l, l[k1 := a1][k2 := a2])
  {
  }

  // The operations that move lamports, as against those that rewrite account data.
  predicate Funds(op: Op) {
    op.Create? || op.CreateMetadata? || op.EnsureAssociated? || op.Pay? || op.Payout?
  }

  lemma FundingEvolves(env: Env, auth: Auth, l: Accounts, op: Op)
    requires Funds(op) && Apply(env, auth, l, op).Success?
    ensures AllEvolve(l, Apply(env, auth, l, op).value)
  {
    var l' := Apply(env, auth, l, op).value;
    match op {
      case Create(payer, key, _, _, _) => UpdatesEvolve(l, payer, l'[payer], key, l'[key]);
      case CreateMetadata(key, _, _, payer, _, _) => UpdatesEvolve(l, payer, l'[payer], key, l'[key]);
      case EnsureAssociated(payer, _, _, key) =>
        if l' != l { UpdatesEvolve(l, payer, l'[payer], key, l'[key]); }
      case Pay(payer, to, _, _) =>
        if l' != l { UpdatesEvolve(l, payer, l'[payer], to, l'[to]); }
      case _ =>
    }
  }

  lemma RewritingEvolves(env: Env, auth: Auth, l: Accounts, op: Op)
    requires !Funds(op) && Apply(env, auth, l, op).Success?
    ensures AllEvolve(l, Apply(env, auth, l, op).value)
  {
    var l' := Apply(env, auth, l, op).value;
    match op {
      case InitMint(mint, _, _) => UpdateEvolves(l, mint, l'[mint]);
      case TopUp(mint, key, _, _, _) =>
        if l' != l { UpdatesEvolve(l, mint, l'[mint], key, l'[key]); }
      case MintTo(mint, key, _, _, _) => UpdatesEvolve(l, mint, l'[mint], key, l'[key]);
      case Burn(key, mint, _, _) => UpdatesEvolve(l, mint, l'[mint], key, l'[key]);
      case Move(from, to, _, _, _) =>
        if l' != l { UpdatesEvolve(l, from, l'[from], to, l'[to]); }
      case Store(key, _) => UpdateEvolves(l, key, l'[key]);
      case Deploy(program, _, _, _) => UpdateEvolves(l, program, l'[program]);
      case _ =>
    }
  }

  lemma ApplyEvolves(env: Env, auth: Auth, l: Accounts, op: Op)
    requires Apply(env, auth, l, op).Success?
    ensures AllEvolve(l, Apply(env, auth, l, op).value)
  {
    if Funds(op) {
      FundingEvolves(env, auth, l, op);
    } else {
      RewritingEvolves(env, auth, l, op);
    }
  }

  lemma {:induction false} PlayEvolves(env: Env, auth: Auth, l: Accounts, ops: seq<Op>, i: nat)
    requires i <= |ops| && Play(env, auth, l, ops, i).Success?
    ensures AllEvolve(l, Play(env, auth, l, ops, i).value)
    decreases |ops| - i
  {
    if i < |ops| {
      var l' := Apply(env, auth, l, ops[i]).value;
      ApplyEvolves(env, auth, l, ops[i]);
      PlayEvolves(env, auth, l', ops, i + 1);
      AllEvolveTransitive(l, l', Play(env, auth, l', ops, i + 1).value);
    }
  }

  // ---- Sums over all accounts ----

  // All lamports; a mint's tokens; those of one holder; what a program's bridge admins hold; what its records say was
  // paid in lamports.
  datatype Weight =
    | Lamports
    | TokensOf(mint: Address)
    | HeldBy(holder: Address, heldMint: Address)
    | AdminFunds(program: Address)
    | NativePaid(program: Address)

  function Weigh(a: Account, w: Weight): nat {
    match w
    case Lamports => a.lamports
    case TokensOf(mint) => if a.data.TokenData? && a.data.mint == mint then a.data.amount else 0
    case HeldBy(holder, mint) =>
      if a.data.TokenData? && a.data.mint == mint && a.data.holder == holder then a.data.amount else 0
    case AdminFunds(program) => if a.data.BridgeData? && a.owner == program then a.lamports else 0
    case NativePaid(program) =>
      if a.data.WithdrawData? && a.owner == program && a.data.withdraw.mint.None? then a.data.withdraw.amount else 0
  }

  ghost function Sum(l: Accounts, w: Weight): nat
    decreases |l|
  {
    if l == map[] then 0
    else
      var key :| key in l;
      Weigh(l[key], w) + Sum(l - {key}, w)
  }

  lemma {:induction false} SumSplits(l: Accounts, w: Weight, key: Address)
    requires key in l
    ensures Sum(l, w) == Weigh(l[key], w) + Sum(l - {key}, w)
    decreases |l|
  {
    var first :| first in l && Sum(l, w) == Weigh(l[first], w) + Sum(l - {first}, w);
    if first != key {
      SumSplits(l - {first}, w, key);
      SumSplits(l - {key}, w, first);
      assert l - {first} - {key} == l - {key} - {first};
    }
  }

  lemma SumUpdate(l: Accounts, w: Weight, key: Address, a: Account)
    ensures Sum(l[key := a], w) + Weigh(Get(l, key), w) == Sum(l, w) + Weigh(a, w)
  {
    var l' := l[key := a];
    SumSplits(l', w, key);
    assert l' - {key} == l - {key};
    if key in l {
      SumSplits(l, w, key);
    } else {
      assert l - {key} == l;
    }
  }

  lemma SumUpdate2(l: Accounts, w: Weight, k1: Address, a1: Account, k2: Address, a2: Account)
    requires k1 != k2
    ensures Sum(l[k1 := a1][k2 := a2], w) + Weigh(Get(l, k1), w) + Weigh(Get(l, k2), w)
            == Sum(l, w) + Weigh(a1, w) + Weigh(a2, w)
  {
    SumUpdate(l, w, k1, a1);
    SumUpdate(l[k1 := a1], w, k2, a2);
  }

  // ---- Ledgers compared account by account ----

  ghost predicate SameWeights(l: Accounts, l': Accounts, w: Weight) {
    forall key :: Weigh(Get(l, key), w) == Weigh(Get(l', key), w)
  }

  lemma WithoutWeightless(l: Accounts, w: Weight, key: Address)
    ensures Sum(l, w) == Weigh(Get(l, key), w) + Sum(l - {key}, w)
    ensures forall k :: k != key ==> Get(l - {key}, k) == Get(l, k)
    ensures Weigh(Get(l - {key}, key), w) == 0
  {
    if key in l {
      SumSplits(l, w, key);
    } else {
      assert l - {key} == l;
    }
  }

  lemma SameWeightsWithout(l: Accounts, l': Accounts, w: Weight, key: Address)
    requires SameWeights(l, l', w)
    ensures SameWeights(l - {key}, l' - {key}, w)
    ensures Sum(l, w) - Sum(l - {key}, w) == Sum(l', w) - Sum(l' - {key}, w)
  {
    WithoutWeightless(l, w, key);
    WithoutWeightless(l', w, key);
    forall k ensures Weigh(Get(l - {key}, k), w) == Weigh(Get(l' - {key}, k), w) {
    }
  }

  lemma {:induction false} SameWeightsSameSum(l: Accounts, l': Accounts, w: Weight)
    requires SameWeights(l, l', w)
    ensures Sum(l, w) == Sum(l', w)
    decreases |l| + |l'|
  {
    if l != map[] || l' != map[] {
      var key :| key in l || key in l';
      SmallerWithout(l, key);
      SmallerWithout(l', key);
      SameWeightsWithout(l, l', w, key);
      SameWeightsSameSum(l - {key}, l' - {key}, w);
    }
  }

  lemma SmallerWithout(l: Accounts, key: Address)
    ensures |l - {key}| == if key in l then |l| - 1 else |l|
  {
    assert (l - {key}).Keys == l.Keys - {key};
    assert |(l - {key}).Keys| == |l - {key}| && |l.Keys| == |l|;
  }

  /** If only one account changes its weight, the sum changes by that much. */
  lemma SumChangesAt(l: Accounts, l': Accounts, w: Weight, key: Address)
    requires forall k :: k != key ==> Weigh(Get(l, k), w) == Weigh(Get(l', k), w)
    ensures Sum(l', w) == Sum(l, w) + Weigh(Get(l', key), w) - Weigh(Get(l, key), w)
  {
    SumUpdate(l, w, key, Get(l', key));
    SameWeightsSameSum(l[key := Get(l', key)], l', w);
  }
}
