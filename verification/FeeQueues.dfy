/** The fee list of a running system, seen as one queue of prices per token. */
module FeeQueues {
  import opened Wrappers
  import opened ByteStrings
  import opened FeeList
  import opened Chain
  import opened Ledger
  import opened Programs
  import opened Steps
  import opened Nonces
  import D = Driver
  import Commission
  import Fees

  type Token = FeeToken<Address>

  function QueueIn(l: Accounts, admin: Address, token: Token): seq<u64> {
    if Live(l, admin) then Queue(DataAt(l, admin).commission.acceptableTokens, token) else []
  }

  // What an instruction does to the queue of one token of one admin.
  function Advance(queue: seq<u64>, item: Item, admin: Address, token: Token): seq<u64> {
    if Acts(item, admin) && item.ix.commission.EditToken? && item.ix.commission.entry.token == token then
      var amount := item.ix.commission.entry.amount;
      match item.ix.commission.edit
      case Add => queue + [amount]
      case Remove => WithoutFirst(queue, amount)
      case Update => if queue == [] then [] else queue[0 := amount]
    else queue
  }

  function Replay(queue: seq<u64>, steps: seq<Step>, admin: Address, token: Token): seq<u64>
    decreases |steps|
  {
    if steps == [] then queue else Replay(Advance(queue, steps[0].item, admin, token), steps[1..], admin, token)
  }

  lemma StepAdvancesQueue(env: Env, s: Step, admin: Address, token: Token)
    requires Valid(env, s) && Ours(env, admin) && Live(s.pre, admin) && !Drops(env, s, admin)
    ensures Live(s.post, admin)
            && QueueIn(s.post, admin, token) == Advance(QueueIn(s.pre, admin, token), s.item, admin, token)
  {
    StepAdmin(env, s, admin);
    if Acts(s.item, admin) && s.item.ix.commission.EditToken? {
      var list, entry := DataAt(s.pre, admin).commission.acceptableTokens, s.item.ix.commission.entry;
      match s.item.ix.commission.edit
      case Add => AddEnqueues(list, entry, token);
      case Remove => RemoveDequeues(list, entry, token);
      case Update => UpdateRewritesHead(list, entry, token);
    }
  }

  /** Over any run that keeps the account, for lists with arbitrary duplicates, the list refines one queue per token:
      replaying the accepted edits of that token alone on its queue gives the queue the final list has. */
  lemma {:induction false} ListRefinesQueues(env: Env, l: Accounts, steps: seq<Step>, l': Accounts, admin: Address,
                                             token: Token)
    requires Run(env, l, steps, l') && Ours(env, admin) && Live(l, admin) && Kept(env, steps, admin)
    ensures Live(l', admin) && QueueIn(l', admin, token) == Replay(QueueIn(l, admin, token), steps, admin, token)
    decreases |steps|
  {
    if steps != [] {
      assert steps[0] in steps;
      StepAdvancesQueue(env, steps[0], admin, token);
      ListRefinesQueues(env, steps[0].post, steps[1..], l', admin, token);
    }
  }

  // The prices given at an initialisation, and the edits since, the account being kept.
  predicate GivenAt(env: Env, steps: seq<Step>, admin: Address, token: Token, queue: seq<u64>, k: nat)
    requires k < |steps|
  {
    InitialTokens(steps[k].item, admin).Some? && Kept(env, steps[k + 1..], admin)
    && queue == Replay(Queue(InitialTokens(steps[k].item, admin).value, token), steps[k + 1..], admin, token)
  }

  /** The queue of an admin that came to be within the run starts as the prices it was last initialised with. */
  lemma QueuesStartAsGiven(env: Env, l: Accounts, steps: seq<Step>, l': Accounts, admin: Address, token: Token)
    returns (k: nat)
    requires Run(env, l, steps, l') && Ours(env, admin) && !LivesOn(env, l, steps, admin) && Live(l', admin)
    ensures k < |steps| && GivenAt(env, steps, admin, token, QueueIn(l', admin, token), k)
  {
    k := LastLife(env, l, steps, l', admin);
    D.RunPrefix(Executor(env), l, steps, l', k);
    ListRefinesQueues(env, steps[k].post, steps[k + 1..], l', admin, token);
  }

  // Where a queue comes from: the one at the start, or the one given at the last initialisation, and the edits since.
  ghost predicate Replayed(env: Env, l: Accounts, steps: seq<Step>, admin: Address, token: Token, queue: seq<u64>) {
    (LivesOn(env, l, steps, admin) && queue == Replay(QueueIn(l, admin, token), steps, admin, token))
    || exists k :: 0 <= k < |steps| && GivenAt(env, steps, admin, token, queue, k)
  }

  lemma QueuesAreReplayed(env: Env, l: Accounts, steps: seq<Step>, l': Accounts, admin: Address, token: Token)
    requires Run(env, l, steps, l') && Ours(env, admin) && Live(l', admin)
    ensures Replayed(env, l, steps, admin, token, QueueIn(l', admin, token))
  {
    if LivesOn(env, l, steps, admin) {
      ListRefinesQueues(env, l, steps, l', admin, token);
    } else {
      var k := QueuesStartAsGiven(env, l, steps, l', admin, token);
    }
  }

  /** Every successful charge of every run pays the head of its token's queue, which is never empty and has come from
      the start, or from the admin's last initialisation, by the edits accepted since. */
  lemma ChargesPayQueueHead(env: Env, l: Accounts, steps: seq<Step>, l': Accounts, i: nat) returns (queue: seq<u64>)
    requires Run(env, l, steps, l') && i < |steps| && Fees.IsCharge(steps[i].item.ix)
    ensures var ix := steps[i].item.ix.commission;
            Replayed(env, l, steps[..i], ix.admin, ix.token, queue)
            && queue != [] && Commission.Price(env, steps[i].pre, ix) == Success(queue[0])
  {
    var ix := steps[i].item.ix.commission;
    D.RunSplits(Executor(env), l, steps, l', i);
    Fees.ChargePassedKeyCheck(env, steps[i]);
    queue := QueueIn(steps[i].pre, ix.admin, ix.token);
    QueuesAreReplayed(env, l, steps[..i], steps[i].pre, ix.admin, ix.token);
    ChargeReadsHead(DataAt(steps[i].pre, ix.admin).commission.acceptableTokens, ix.token);
  }
}
