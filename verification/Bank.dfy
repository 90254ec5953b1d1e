/** Executes transactions on the mutable ledger: all instructions in order, or none of them. */
module Bank {
  import opened Wrappers
  import opened Chain
  import opened Ledger
  import opened Worlds
  import opened Programs
  import opened Steps
  import D = Driver
  import BridgeProcessor
  import CommissionProcessor
  import UpgradeProcessor

  /** A call from outside: refused unless permitted, else one runtime operation. */
  method ExecuteOutside(w: World, auth: Auth, c: OutsideCall) returns (status: Status)
    requires auth.program == c.program
    modifies w
    ensures Refines(Play(w.env, auth, old(w.accounts), OutsideOps(w.env, old(w.accounts), c), 0), status, w.accounts)
  {
    if !Permitted(w.env, w.accounts, c) {
      return Err(Runtime);
    }
    PlayLast(w.env, auth, w.accounts, OutsideOps(w.env, w.accounts, c));
    match c.op {
      case Create(payer, key, size, owner, seeds) => status := w.CreateAccount(auth, payer, key, size, owner, seeds);
      case Pay(payer, to, lamports, seeds) => status := w.TransferLamports(auth, payer, to, lamports, seeds);
      case Payout(from, to, lamports) => status := w.PayOut(auth, from, to, lamports);
      case InitMint(mint, authority, decimals) => status := w.InitializeMint(auth, mint, authority, decimals);
      case CreateMetadata(key, mint, authority, payer, metadata, seeds) =>
        status := w.CreateMetadataAccount(auth, key, mint, authority, payer, metadata, seeds);
      case EnsureAssociated(payer, wallet, mint, key) =>
        status := w.EnsureAssociatedAccount(auth, payer, wallet, mint, key);
      case MintTo(mint, key, authority, amount, seeds) =>
        status := w.MintTokens(auth, mint, key, authority, amount, seeds);
      case Burn(key, mint, authority, amount) => status := w.BurnTokens(auth, key, mint, authority, amount);
      case Move(from, to, authority, amount, seeds) =>
        status := w.TransferTokens(auth, from, to, authority, amount, seeds);
      case Store(key, data) => status := w.Serialize(auth, key, data);
      case Deploy(target, buffer, authority, seeds) =>
        status := w.UpgradeProgram(auth, target, buffer, authority, seeds);
      case Check(error) => status := StatusOf(error);
      case _ => assert false;
    }
  }

  /** One instruction, by the program it names. */
  method Execute(w: World, item: Item) returns (status: Status)
    modifies w
    ensures Refines(Exec(w.env, old(w.accounts), item), status, w.accounts)
  {
    if item.ix.SweepIx? {
      w.Sweep();
      return Ok;
    }
    if !Outsiders(w.env, item.signers) {
      return Err(Runtime);
    }
    var auth := AuthOf(w.env, item);
    match item.ix {
      case BridgeIx(ix) => status := BridgeProcessor.Process(w, auth, item.prior, ix);
      case CommissionIx(ix) => status := CommissionProcessor.Process(w, auth, ix);
      case UpgradeIx(ix) => status := UpgradeProcessor.Process(w, auth, ix);
      case OutsideIx(c) => status := ExecuteOutside(w, auth, c);
      case SweepIx => assert false;
    }
  }

  /** A transaction: the instructions in order and the sweep, or the snapshot back at the first error. */
  method ProcessTransaction(w: World, tx: Transaction) returns (status: Status)
    modifies w
    ensures w.accounts == D.Commit(Executor(w.env), old(w.accounts), Items(w.env, tx))
    ensures status.Ok? <==> D.RunBatch(Executor(w.env), old(w.accounts), Items(w.env, tx)).Success?
  {
    var snapshot := w.accounts;
    ghost var exec, items := Executor(w.env), Items(w.env, tx);
    for i := 0 to |tx.instructions|
      invariant D.RunBatch(exec, snapshot, items) == D.RunBatch(exec, w.accounts, items[i..])
    {
      var item := ItemAt(w.env, tx, i);
      assert items[i..][0] == item && items[i..][1..] == items[i + 1..];
      status := Execute(w, item);
      if status.Err? {
        w.accounts := snapshot;
        return;
      }
    }
    w.Sweep();
    assert items[|tx.instructions|..] == [SWEEP] && [SWEEP][1..] == [];
    status := Ok;
  }

  // The transactions as lists of instructions in their places.
  function AllItems(env: Env, txs: seq<Transaction>): (all: seq<seq<Item>>)
    ensures |all| == |txs|
  {
    if txs == [] then [] else [Items(env, txs[0])] + AllItems(env, txs[1..])
  }

  /** Any history of submitted transactions leaves the ledger in a state reached by a run of successful steps,
      which is what every theorem about runs speaks of. */
  method ProcessAll(w: World, txs: seq<Transaction>)
    modifies w
    ensures w.accounts == D.CommitAll(Executor(w.env), old(w.accounts), AllItems(w.env, txs))
    ensures exists steps :: Run(w.env, old(w.accounts), steps, w.accounts)
  {
    ghost var exec, all, start := Executor(w.env), AllItems(w.env, txs), w.accounts;
    for i := 0 to |txs|
      invariant D.CommitAll(exec, start, all) == D.CommitAll(exec, w.accounts, AllItems(w.env, txs[i..]))
    {
      var _ := ProcessTransaction(w, txs[i]);
      assert txs[i..][0] == txs[i] && txs[i..][1..] == txs[i + 1..];
    }
    TransactionsAreRuns(w.env, start, all);
  }
}
