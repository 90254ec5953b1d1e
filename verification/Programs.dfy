/** Transactions over the three programs and everything outside them. */
module Programs {
  import opened Wrappers
  import opened ByteStrings
  import opened Chain
  import opened Ledger
  import Bridge
  import Commission
  import Upgrade

  // What the world outside the three programs does: any program, one runtime operation at a time, as it chooses.
  // Wallets call the runtime's own programs; a program may also do nothing that matters here (`Check(None)`).
  datatype OutsideCall = Call(program: Address, op: Op, firstAccount: Option<Address>, payload: Bridge.Payload)

  datatype Instruction =
    | BridgeIx(bridge: Bridge.Instruction)
    | CommissionIx(commission: Commission.Instruction)
    | UpgradeIx(upgrade: Upgrade.Instruction)
    | OutsideIx(outside: OutsideCall)
    | SweepIx // not an instruction: the runtime, when a transaction ends

  function ProgramOf(env: Env, ix: Instruction): Address {
    match ix
    case BridgeIx(_) => env.bridge
    case CommissionIx(_) => env.commission
    case UpgradeIx(_) => env.upgrade
    case OutsideIx(c) => c.program
    case SweepIx => env.systemProgram
  }

  // What the instructions sysvar shows of an instruction.
  function Shown(env: Env, ix: Instruction): Bridge.Prior {
    match ix
    case CommissionIx(c) =>
      Bridge.Prior(env.commission, Some(c.admin),
                   if c.ChargeCommission? then Bridge.Charge(c.depositKind, c.depositAmount)
                   else Bridge.OtherInstruction)
    case OutsideIx(c) => Bridge.Prior(c.program, c.firstAccount, c.payload)
    case _ => Bridge.Prior(ProgramOf(env, ix), None, Bridge.Unreadable)
  }

  // The runtime's own programs touch the data and lamports of accounts only by the operations they offer.
  predicate IsRuntimeProgram(env: Env, program: Address) {
    program in {env.systemProgram, env.tokenProgram, env.associatedProgram, env.metadataProgram, env.loaderProgram}
  }

  // A program rewrites and debits the accounts it owns; none of ours ever is one, as `Ownership` shows.
  predicate MayRewrite(env: Env, l: Accounts, program: Address, key: Address) {
    !IsRuntimeProgram(env, program) && !Ours(env, key) && !NoData(l, key)
  }

  // What the runtime lets a program outside the three do. The three refuse data that is not one of their
  // instructions, and the runtime refuses a debit that would change the total of lamports.
  predicate Permitted(env: Env, l: Accounts, c: OutsideCall) {
    !IsOurProgram(env, c.program)
    && !c.op.TopUp? && !c.op.NeedToken? // the bridge's own compounds
    && (c.op.Store? ==> MayRewrite(env, l, c.program, c.op.key))
    && (c.op.Payout? ==>
          MayRewrite(env, l, c.program, c.op.admin) && c.op.admin != c.op.to
          && c.op.lamports <= Get(l, c.op.admin).lamports && Get(l, c.op.to).lamports + c.op.lamports < U64)
  }

  function OutsideOps(env: Env, l: Accounts, c: OutsideCall): seq<Op> {
    [ Check(if Permitted(env, l, c) then None else Some(Runtime)), c.op ]
  }

  // An instruction where it runs: who signed the transaction, and what came before it.
  datatype Item = Item(signers: set<Address>, prior: Option<Bridge.Prior>, ix: Instruction)

  function Ops(env: Env, l: Accounts, item: Item): seq<Op> {
    match item.ix
    case BridgeIx(b) => Bridge.Ops(env, l, item.prior, b)
    case CommissionIx(c) => Commission.Ops(env, l, c)
    case UpgradeIx(u) => Upgrade.Ops(env, l, u)
    case OutsideIx(c) => OutsideOps(env, l, c)
    case SweepIx => []
  }

  function AuthOf(env: Env, item: Item): Auth {
    Auth(ProgramOf(env, item.ix), item.signers)
  }

  function Exec(env: Env, l: Accounts, item: Item): Outcome<Accounts> {
    if item.ix.SweepIx? then Success(Swept(env, l))
    else if !Outsiders(env, item.signers) then Failure(Runtime)
    else Play(env, AuthOf(env, item), l, Ops(env, l, item), 0)
  }

  function Executor(env: Env): (Accounts, Item) -> Outcome<Accounts> {
    (l, item) => Exec(env, l, item)
  }

  datatype Transaction = Transaction(signers: set<Address>, instructions: seq<Instruction>)

  function ItemAt(env: Env, tx: Transaction, i: nat): Item
    requires i < |tx.instructions|
  {
    Item(tx.signers, if i == 0 then None else Some(Shown(env, tx.instructions[i - 1])), tx.instructions[i])
  }

  const SWEEP := Item({}, None, SweepIx)

  // The instructions in their places, and the runtime's sweep at the end.
  function Items(env: Env, tx: Transaction): (items: seq<Item>)
    ensures |items| == |tx.instructions| + 1 && items[|tx.instructions|] == SWEEP
    ensures forall i :: 0 <= i < |tx.instructions| ==> items[i] == ItemAt(env, tx, i)
  {
    seq(|tx.instructions|, i requires 0 <= i < |tx.instructions| => ItemAt(env, tx, i)) + [SWEEP]
  }
}
