/** Commission nonces: each counts its own operations, and no signed content is accepted twice. */
module Nonces {
  import opened Wrappers
  import opened ByteStrings
  import opened FeeList
  import opened Borsh
  import opened Chain
  import opened Ledger
  import opened Gauges
  import opened Programs
  import opened Steps
  import opened Vaults
  import D = Driver
  import Commission
  import Signed = CommissionContent

  // A signed operation on the commission admin at `admin`.
  predicate Acts(item: Item, admin: Address) {
    item.ix.CommissionIx? && (item.ix.commission.EditToken? || item.ix.commission.Withdraw?)
        && item.ix.commission.admin == admin
  }

  function Kind(item: Item): Signed.OperationType
    requires item.ix.CommissionIx? && (item.ix.commission.EditToken? || item.ix.commission.Withdraw?)
  {
    Commission.SignedOperation(item.ix.commission)
  }

  // The bytes that must have been signed for the step.
  function SignedBytes(env: Env, s: Step): Bytes
    requires s.item.ix.CommissionIx? && (s.item.ix.commission.EditToken? || s.item.ix.commission.Withdraw?)
  {
    var a := ReadCommission(s.pre, s.item.ix.commission.admin);
    if a.None? then [] else Signed.Encode(Commission.ContentOf(env, a.value, s.item.ix.commission))
  }

  // Only commission instructions store commission state, and only for the account they name.
  lemma OnlyCommissionStores(env: Env, s: Step, key: Address)
    requires Valid(env, s) && !s.item.ix.CommissionIx? && Ours(env, key)
    ensures DataAt(s.pre, key).CommissionData? && !Drops(env, s, key) ==> DataAt(s.post, key) == DataAt(s.pre, key)
    ensures DataAt(s.post, key).CommissionData? ==> DataAt(s.pre, key).CommissionData? && !Drops(env, s, key)
  {
    if s.item.ix.SweepIx? {
      SweepKeeps(env, s, key);
    } else {
      StoresLast(env, s.pre, s.item);
      LastStoreWins(env, AuthOf(env, s.item), s.pre, Ops(env, s.pre, s.item), key);
      if s.item.ix.OutsideIx? {
        OutsideIsPermitted(env, s);
      } else {
        StoresOfOthers(env, s.pre, s.item);
      }
    }
  }

  lemma StoresOfOthers(env: Env, l: Accounts, item: Item)
    requires !item.ix.CommissionIx? && !item.ix.OutsideIx? && !item.ix.SweepIx?
    ensures StoresOnlyLast(Ops(env, l, item))
    ensures var last := Last(Ops(env, l, item)); last.Store? ==> !last.data.CommissionData?
  {
    StoresLast(env, l, item);
  }

  // What a commission instruction leaves in its last place.
  lemma CommissionStores(env: Env, l: Accounts, ix: Commission.Instruction)
    ensures StoresOnlyLast(Commission.Ops(env, l, ix))
    ensures var last := Last(Commission.Ops(env, l, ix));
            last.Store? ==> last.key == ix.admin && !ix.ChargeCommission?
                            && (ix.InitializeAdmin? ==> last.data == CommissionData(Commission.InitialAdmin(ix.tokens)))
                            && (ix.EditToken? || ix.Withdraw? ==>
                                  Commission.Next(env, l, ix).Success?
                                  && var a := ReadCommission(l, ix.admin).value;
                                     last.data == CommissionData(Commission.After(a, ix)))
    ensures (ix.EditToken? || ix.Withdraw?) && Commission.Next(env, l, ix).Success?
            && !(ix.Withdraw? && ix.entry.token.NFT?) ==>
              Last(Commission.Ops(env, l, ix)).Store?
  {
  }

  // An account that exists is not created again.
  lemma NotInitializedAgain(env: Env, auth: Auth, l: Accounts, ix: Commission.Instruction)
    requires ix.InitializeAdmin? && Play(env, auth, l, Commission.InitializeAdminScript(env, ix), 0).Success?
    ensures NoData(l, ix.admin)
  {
    ReachPlays(env, auth, l, Commission.InitializeAdminScript(env, ix), 0, 1);
    assert Evolves(DataAt(l, ix.admin),
                   DataAt(Reach(env, auth, l, Commission.InitializeAdminScript(env, ix), 0, 1), ix.admin));
  }

  lemma SignedStepAccepted(env: Env, s: Step)
    requires Valid(env, s) && s.item.ix.CommissionIx?
             && (s.item.ix.commission.EditToken? || s.item.ix.commission.Withdraw?)
    ensures Commission.Next(env, s.pre, s.item.ix.commission).Success?
    ensures !(s.item.ix.commission.Withdraw? && s.item.ix.commission.entry.token.NFT?)
    ensures DataAt(s.pre, s.item.ix.commission.admin).CommissionData?
  {
    var ops := Commission.Ops(env, s.pre, s.item.ix.commission);
    PlayChecks(env, AuthOf(env, s.item), s.pre, ops, 0);
    assert ops[0].Check? ==> ops[0].error == None;
  }

  /** One step: a signed operation on the admin writes exactly its successor state; nothing else changes it, unless
      the account is dropped for want of lamports. */
  lemma StepAdmin(env: Env, s: Step, admin: Address)
    requires Valid(env, s) && Ours(env, admin) && DataAt(s.pre, admin).CommissionData? && !Drops(env, s, admin)
    ensures DataAt(s.post, admin)
            == if Acts(s.item, admin)
               then CommissionData(Commission.After(DataAt(s.pre, admin).commission, s.item.ix.commission))
               else DataAt(s.pre, admin)
  {
    if s.item.ix.CommissionIx? {
      var ix := s.item.ix.commission;
      CommissionStores(env, s.pre, ix);
      LastStoreWins(env, AuthOf(env, s.item), s.pre, Commission.Ops(env, s.pre, ix), admin);
      if ix.InitializeAdmin? {
        NotInitializedAgain(env, AuthOf(env, s.item), s.pre, ix);
      } else if ix.EditToken? || ix.Withdraw? {
        SignedStepAccepted(env, s);
      }
    } else {
      OnlyCommissionStores(env, s, admin);
    }
  }

  lemma NonceAfter(a: FeeAdmin, ix: Commission.Instruction, op: Signed.OperationType)
    requires ix.EditToken? || ix.Withdraw?
    ensures Commission.NonceOf(Commission.After(a, ix), op)
            == if Commission.SignedOperation(ix) == op then D.Successor(Commission.NonceOf(a, op))
               else Commission.NonceOf(a, op)
  {
  }

  predicate Live(l: Accounts, admin: Address) {
    DataAt(l, admin).CommissionData?
  }

  function NonceIn(l: Accounts, admin: Address, op: Signed.OperationType): u64 {
    if Live(l, admin) then Commission.NonceOf(DataAt(l, admin).commission, op) else 0
  }

  // An operation of the kind on the admin.
  predicate Ticks(item: Item, admin: Address, op: Signed.OperationType) {
    Acts(item, admin) && Kind(item) == op
  }

  function Count(steps: seq<Step>, admin: Address, op: Signed.OperationType): nat {
    D.Total(steps, item => Ticks(item, admin, op))
  }

  predicate StepCounts(s: Step, admin: Address, op: Signed.OperationType) {
    D.Counts(s, l => NonceIn(l, admin, op), item => Ticks(item, admin, op))
  }

  // The successor state a step leaves, as far as one nonce is concerned.
  lemma SuccessorNonce(s: Step, admin: Address, op: Signed.OperationType)
    requires Live(s.pre, admin)
    requires DataAt(s.post, admin)
             == if Acts(s.item, admin)
                then CommissionData(Commission.After(DataAt(s.pre, admin).commission, s.item.ix.commission))
                else DataAt(s.pre, admin)
    ensures Live(s.post, admin) && StepCounts(s, admin, op)
  {
    if Acts(s.item, admin) {
      NonceAfter(DataAt(s.pre, admin).commission, s.item.ix.commission, op);
    }
  }

  lemma {:induction false} EachStepCounts(env: Env, l: Accounts, steps: seq<Step>, l': Accounts, admin: Address,
                                          op: Signed.OperationType)
    requires Run(env, l, steps, l') && Ours(env, admin) && Live(l, admin) && Kept(env, steps, admin)
    ensures Live(l', admin) && forall s <- steps :: StepCounts(s, admin, op)
    decreases |steps|
  {
    if steps != [] {
      assert steps[0] in steps;
      StepAdmin(env, steps[0], admin);
      SuccessorNonce(steps[0], admin, op);
      EachStepCounts(env, steps[0].post, steps[1..], l', admin, op);
      assert steps == [steps[0]] + steps[1..];
    }
  }

  lemma CountedRun(exec: (Accounts, Item) -> Outcome<Accounts>, l: Accounts, steps: seq<Step>, l': Accounts,
                   admin: Address, op: Signed.OperationType)
    requires D.Run(exec, l, steps, l') && forall s <- steps :: StepCounts(s, admin, op)
    ensures NonceIn(l', admin, op) == D.After(NonceIn(l, admin, op), Count(steps, admin, op))
  {
    D.RunCounts(exec, l, steps, l', l => NonceIn(l, admin, op), item => Ticks(item, admin, op));
  }

  lemma NonceAtEnd(env: Env, l: Accounts, steps: seq<Step>, l': Accounts, admin: Address, op: Signed.OperationType)
    requires Run(env, l, steps, l') && Ours(env, admin) && Live(l, admin) && Kept(env, steps, admin)
    ensures Live(l', admin) && NonceIn(l', admin, op) == D.After(NonceIn(l, admin, op), Count(steps, admin, op))
  {
    EachStepCounts(env, l, steps, l', admin, op);
    CountedRun(Executor(env), l, steps, l', admin, op);
  }

  /** While the account is kept, each of the four nonces is its starting value plus the number of successful operations
      of its kind, in machine words, whatever else the run does. */
  lemma NoncesCountOperations(env: Env, l: Accounts, steps: seq<Step>, l': Accounts, admin: Address,
                              op: Signed.OperationType)
    requires Run(env, l, steps, l') && Ours(env, admin) && Live(l, admin) && Kept(env, steps, admin)
    ensures Live(l', admin) && NonceIn(l', admin, op) == (NonceIn(l, admin, op) + Count(steps, admin, op)) % U64
  {
    NonceAtEnd(env, l, steps, l', admin, op);
    D.AfterIsModular(NonceIn(l, admin, op), Count(steps, admin, op));
  }

  lemma NonceBetween(env: Env, l: Accounts, steps: seq<Step>, l': Accounts, i: nat, j: nat, admin: Address,
                     op: Signed.OperationType)
    requires Run(env, l, steps, l') && i < j < |steps| && Ours(env, admin) && Live(steps[i].pre, admin)
    requires Kept(env, steps[i..j], admin)
    ensures NonceIn(steps[j].pre, admin, op) == D.After(NonceIn(steps[i].pre, admin, op), Count(steps[i..j], admin, op))
  {
    D.RunFrom(Executor(env), l, steps, l', i, j);
    NonceAtEnd(env, steps[i].pre, steps[i..j], steps[j].pre, admin, op);
  }

  lemma AcceptedInRun(env: Env, l: Accounts, steps: seq<Step>, l': Accounts, i: nat, admin: Address)
    requires Run(env, l, steps, l') && i < |steps| && Acts(steps[i].item, admin)
    ensures Live(steps[i].pre, admin) && Ours(env, admin)
  {
    D.RunSplits(Executor(env), l, steps, l', i);
    SignedStepAccepted(env, steps[i]);
    FeeAdminKey(env, steps[i]);
  }

  /** While the account is kept, a nonce is verified again exactly when a multiple of 2^64 operations of its kind lie
      between. */
  lemma NonceRepeatsIff(env: Env, l: Accounts, steps: seq<Step>, l': Accounts, i: nat, j: nat, admin: Address)
    requires Run(env, l, steps, l') && i < j < |steps|
    requires Acts(steps[i].item, admin) && Acts(steps[j].item, admin) && Kind(steps[i].item) == Kind(steps[j].item)
    requires Kept(env, steps[i..j], admin)
    ensures var op := Kind(steps[i].item);
            NonceIn(steps[i].pre, admin, op) == NonceIn(steps[j].pre, admin, op)
            <==> Count(steps[i..j], admin, op) % U64 == 0
  {
    var op := Kind(steps[i].item);
    AcceptedInRun(env, l, steps, l', i, admin);
    NonceBetween(env, l, steps, l', i, j, admin, op);
    D.ReturnsIff(NonceIn(steps[i].pre, admin, op), Count(steps[i..j], admin, op));
  }

  lemma CountIsBounded(steps: seq<Step>, admin: Address, op: Signed.OperationType)
    ensures Count(steps, admin, op) <= |steps|
  {
    D.TotalIsBounded(steps, item => Ticks(item, admin, op));
  }

  lemma NonceMovedOn(env: Env, l: Accounts, steps: seq<Step>, l': Accounts, i: nat, j: nat, admin: Address)
    requires Run(env, l, steps, l') && i < j < |steps| <= U64
    requires Acts(steps[i].item, admin) && Acts(steps[j].item, admin) && Kind(steps[i].item) == Kind(steps[j].item)
    requires Kept(env, steps[i..j], admin)
    ensures NonceIn(steps[i].pre, admin, Kind(steps[i].item)) != NonceIn(steps[j].pre, admin, Kind(steps[i].item))
  {
    var op := Kind(steps[i].item);
    AcceptedInRun(env, l, steps, l', i, admin);
    NonceBetween(env, l, steps, l', i, j, admin, op);
    CountIsBounded(steps[i..j], admin, op);
    D.MovesOn(NonceIn(steps[i].pre, admin, op), Count(steps[i..j], admin, op));
  }

  lemma SameBytesSameNonce(env: Env, s: Step, t: Step, admin: Address)
    requires Acts(s.item, admin) && Acts(t.item, admin) && !Signed.Ambiguous(env.bytes(env.commission))
    requires Live(s.pre, admin) && Live(t.pre, admin)
    requires SignedBytes(env, s) == SignedBytes(env, t)
    ensures Kind(s.item) == Kind(t.item) && NonceIn(s.pre, admin, Kind(s.item)) == NonceIn(t.pre, admin, Kind(t.item))
  {
    var c := Commission.ContentOf(env, DataAt(s.pre, admin).commission, s.item.ix.commission);
    var d := Commission.ContentOf(env, DataAt(t.pre, admin).commission, t.item.ix.commission);
    Signed.ContentDecodes(c, d);
  }

  /** No signed content is accepted twice by a commission admin, for the same or for different kinds of operation,
      if the program id is not ambiguous and the run stays below 2^64 steps: the account would have to be dropped in
      between, for want of lamports, and start anew. */
  lemma NoContentAcceptedTwice(env: Env, l: Accounts, steps: seq<Step>, l': Accounts, i: nat, j: nat, admin: Address)
    requires Run(env, l, steps, l') && i < j < |steps| <= U64
    requires Acts(steps[i].item, admin) && Acts(steps[j].item, admin)
    requires !Signed.Ambiguous(env.bytes(env.commission))
    ensures SignedBytes(env, steps[i]) == SignedBytes(env, steps[j]) ==> !Kept(env, steps[i..j], admin)
  {
    if SignedBytes(env, steps[i]) == SignedBytes(env, steps[j]) && Kept(env, steps[i..j], admin) {
      AcceptedInRun(env, l, steps, l', i, admin);
      AcceptedInRun(env, l, steps, l', j, admin);
      SameBytesSameNonce(env, steps[i], steps[j], admin);
      NonceMovedOn(env, l, steps, l', i, j, admin);
    }
  }

  // ---- Admins initialised within the run ----

  // The fee list an initialisation of `admin` is given.
  function InitialTokens(item: Item, admin: Address): Option<seq<FeeEntry<Address>>> {
    match item.ix
    case CommissionIx(InitializeAdmin(a, _, _, tokens)) => if a == admin then Some(tokens) else None
    case _ => None
  }

  // An admin appears at an address of ours only by initialisation, with the list it is given and zero nonces.
  lemma AdminAppears(env: Env, s: Step, admin: Address)
    requires Valid(env, s) && Ours(env, admin) && !Live(s.pre, admin) && Live(s.post, admin)
    ensures InitialTokens(s.item, admin).Some?
    ensures DataAt(s.post, admin) == CommissionData(Commission.InitialAdmin(InitialTokens(s.item, admin).value))
  {
    if s.item.ix.CommissionIx? {
      var ix := s.item.ix.commission;
      CommissionStores(env, s.pre, ix);
      LastStoreWins(env, AuthOf(env, s.item), s.pre, Commission.Ops(env, s.pre, ix), admin);
      if ix.EditToken? || ix.Withdraw? {
        SignedStepAccepted(env, s);
      }
    } else {
      OnlyCommissionStores(env, s, admin);
    }
  }

  // An admin's life since the start of a run; and since one of its steps, which initialised it.
  predicate LivesOn(env: Env, l: Accounts, steps: seq<Step>, admin: Address) {
    Live(l, admin) && Kept(env, steps, admin)
  }

  predicate BornAt(env: Env, steps: seq<Step>, admin: Address, k: nat)
    requires k < |steps|
  {
    InitialTokens(steps[k].item, admin).Some? && Kept(env, steps[k + 1..], admin)
    && DataAt(steps[k].post, admin)
       == CommissionData(Commission.InitialAdmin(InitialTokens(steps[k].item, admin).value))
  }

  lemma BornLater(env: Env, steps: seq<Step>, admin: Address, k: nat)
    requires k + 1 < |steps| && BornAt(env, steps[1..], admin, k)
    ensures BornAt(env, steps, admin, k + 1)
  {
    assert steps[1..][k] == steps[k + 1] && steps[1..][k + 1..] == steps[k + 2..];
  }

  lemma LifeThroughStep(env: Env, steps: seq<Step>, admin: Address)
    requires steps != [] && Valid(env, steps[0]) && Ours(env, admin) && LivesOn(env, steps[0].post, steps[1..], admin)
    ensures LivesOn(env, steps[0].pre, steps, admin) || BornAt(env, steps, admin, 0)
  {
    if !Live(steps[0].pre, admin) {
      AdminAppears(env, steps[0], admin);
    } else if Drops(env, steps[0], admin) {
      SweepKeeps(env, steps[0], admin);
    }
  }

  /** An admin that exists at the end has lived since the start, or since its last initialisation. */
  lemma {:induction false} LastLife(env: Env, l: Accounts, steps: seq<Step>, l': Accounts, admin: Address)
    returns (k: nat)
    requires Run(env, l, steps, l') && Ours(env, admin) && Live(l', admin)
    ensures LivesOn(env, l, steps, admin) || (k < |steps| && BornAt(env, steps, admin, k))
    decreases |steps|
  {
    k := 0;
    if steps != [] {
      var later := LastLife(env, steps[0].post, steps[1..], l', admin);
      if LivesOn(env, steps[0].post, steps[1..], admin) {
        LifeThroughStep(env, steps, admin);
      } else {
        BornLater(env, steps, admin, later);
        k := later + 1;
      }
    }
  }

  /** An admin that came to be within the run counts its operations from zero, since its last initialisation. */
  lemma NoncesStartAtZero(env: Env, l: Accounts, steps: seq<Step>, l': Accounts, admin: Address,
                          op: Signed.OperationType) returns (k: nat)
    requires Run(env, l, steps, l') && Ours(env, admin) && !Live(l, admin) && Live(l', admin)
    ensures k < |steps| && InitialTokens(steps[k].item, admin).Some? && Kept(env, steps[k + 1..], admin)
    ensures NonceIn(l', admin, op) == Count(steps[k + 1..], admin, op) % U64
  {
    k := LastLife(env, l, steps, l', admin);
    D.RunPrefix(Executor(env), l, steps, l', k);
    CountsFromZero(env, steps[k].post, steps[k + 1..], l', admin, InitialTokens(steps[k].item, admin).value, op);
  }

  lemma CountsFromZero(env: Env, l: Accounts, steps: seq<Step>, l': Accounts, admin: Address,
                       tokens: seq<FeeEntry<Address>>, op: Signed.OperationType)
    requires Run(env, l, steps, l') && Ours(env, admin) && Kept(env, steps, admin)
    requires DataAt(l, admin) == CommissionData(Commission.InitialAdmin(tokens))
    ensures NonceIn(l', admin, op) == Count(steps, admin, op) % U64
  {
    ZeroNonces(l, admin, tokens, op);
    NonceAtEnd(env, l, steps, l', admin, op);
    D.AfterIsModular(0, Count(steps, admin, op));
  }

  lemma ZeroNonces(l: Accounts, admin: Address, tokens: seq<FeeEntry<Address>>, op: Signed.OperationType)
    requires DataAt(l, admin) == CommissionData(Commission.InitialAdmin(tokens))
    ensures Live(l, admin) && NonceIn(l, admin, op) == 0
  {
  }

  // ---- Sizes ----

  predicate FitsAt(env: Env, l: Accounts, key: Address) {
    Ours(env, key) && Live(l, key) ==> AdminSize(DataAt(l, key).commission) <= MaxAdminSize(env.tokenSize)
  }

  ghost predicate AdminsFit(env: Env, l: Accounts) {
    forall key :: FitsAt(env, l, key)
  }

  // What is stored has passed the size check just before.
  lemma StoredAdminWasMeasured(env: Env, l: Accounts, ix: Commission.Instruction)
    ensures var ops := Commission.Ops(env, l, ix);
            |ops| > 0 && (Last(ops).Store? ==>
              |ops| > 1 && Last(ops).data.CommissionData?
                  && ops[|ops| - 2] == Check(Commission.SizeError(env, Last(ops).data.commission)))
  {
  }

  lemma StepKeepsFit(env: Env, s: Step, key: Address)
    requires Valid(env, s) && FitsAt(env, s.pre, key)
    ensures FitsAt(env, s.post, key)
  {
    if Ours(env, key) {
      if s.item.ix.CommissionIx? {
        var ops := Ops(env, s.pre, s.item);
        StoresLast(env, s.pre, s.item);
        LastStoreWins(env, AuthOf(env, s.item), s.pre, ops, key);
        StoredAdminWasMeasured(env, s.pre, s.item.ix.commission);
        PlayChecks(env, AuthOf(env, s.item), s.pre, ops, 0);
      } else {
        OnlyCommissionStores(env, s, key);
      }
    }
  }

  /** In every reachable state every commission admin fits its account. */
  lemma {:induction false} AdminsAlwaysFit(env: Env, l: Accounts, steps: seq<Step>, l': Accounts)
    requires Run(env, l, steps, l') && AdminsFit(env, l)
    ensures AdminsFit(env, l')
    decreases |steps|
  {
    if steps != [] {
      forall key ensures FitsAt(env, steps[0].post, key) {
        assert FitsAt(env, l, key);
        StepKeepsFit(env, steps[0], key);
      }
      AdminsAlwaysFit(env, steps[0].post, steps[1..], l');
    }
  }
}
