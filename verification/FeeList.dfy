/** The ordered fee list of the commission program: duplicates allowed, the first match wins. */
module FeeList {
  import opened Wrappers
  import opened ByteStrings

  // `K` is how a mint is named: an address on the ledger, 32 bytes on the wire.
  datatype FeeToken<+K> = Native | FT(mint: K) | NFT(mint: K)

  datatype FeeEntry<+K> = FeeEntry(token: FeeToken<K>, amount: u64)

  function PriceOf<K(==)>(list: seq<FeeEntry<K>>, token: FeeToken<K>): Option<u64> {
    if list == [] then None
    else if list[0].token == token then Some(list[0].amount)
    else PriceOf(list[1..], token)
  }

  function RemoveFirst<K(==)>(list: seq<FeeEntry<K>>, entry: FeeEntry<K>): seq<FeeEntry<K>> {
    if list == [] then []
    else if list[0] == entry then list[1..]
    else [list[0]] + RemoveFirst(list[1..], entry)
  }

  function Reprice<K(==)>(list: seq<FeeEntry<K>>, entry: FeeEntry<K>): seq<FeeEntry<K>> {
    if list == [] then []
    else if list[0].token == entry.token then [entry] + list[1..]
    else [list[0]] + Reprice(list[1..], entry)
  }

  lemma {:induction false} PriceOfPast<K>(list: seq<FeeEntry<K>>, token: FeeToken<K>, n: nat)
    requires n <= |list| && forall i :: 0 <= i < n ==> list[i].token != token
    ensures PriceOf(list, token) == PriceOf(list[n..], token)
  {
    if n > 0 {
      PriceOfPast(list[1..], token, n - 1);
      assert list[1..][n - 1..] == list[n..];
    }
  }

  lemma {:induction false} RemoveFirstPast<K>(list: seq<FeeEntry<K>>, entry: FeeEntry<K>, n: nat)
    requires n <= |list| && forall i :: 0 <= i < n ==> list[i] != entry
    ensures RemoveFirst(list, entry) == list[..n] + RemoveFirst(list[n..], entry)
  {
    if n > 0 {
      RemoveFirstPast(list[1..], entry, n - 1);
      assert list[1..][n - 1..] == list[n..];
      assert list[..n] == [list[0]] + list[1..][..n - 1];
    }
  }

  lemma {:induction false} RepricePast<K>(list: seq<FeeEntry<K>>, entry: FeeEntry<K>, n: nat)
    requires n <= |list| && forall i :: 0 <= i < n ==> list[i].token != entry.token
    ensures Reprice(list, entry) == list[..n] + Reprice(list[n..], entry)
  {
    if n > 0 {
      RepricePast(list[1..], entry, n - 1);
      assert list[1..][n - 1..] == list[n..];
      assert list[..n] == [list[0]] + list[1..][..n - 1];
    }
  }

  /** `check_token_is_acceptable`. */
  method CheckTokenIsAcceptable<K(==)>(list: seq<FeeEntry<K>>, token: FeeToken<K>) returns (found: Option<FeeEntry<K>>)
    ensures found == match PriceOf(list, token)
                     case None => None
                     case Some(price) => Some(FeeEntry(token, price))
  {
    for i := 0 to |list|
      invariant forall j :: 0 <= j < i ==> list[j].token != token
    {
      if list[i].token == token {
        PriceOfPast(list, token, i);
        return Some(list[i]);
      }
    }
    PriceOfPast(list, token, |list|);
    return None;
  }

  /** The loop of `process_remove_token`. */
  method RemoveToken<K(==)>(list: seq<FeeEntry<K>>, entry: FeeEntry<K>) returns (tokens: seq<FeeEntry<K>>)
    ensures tokens == RemoveFirst(list, entry)
  {
    tokens := list;
    for i := 0 to |list|
      invariant tokens == list
      invariant forall j :: 0 <= j < i ==> list[j] != entry
    {
      if tokens[i] == entry {
        RemoveFirstPast(list, entry, i);
        assert list[i..][1..] == list[i + 1..];
        tokens := tokens[..i] + tokens[i + 1..];
        return;
      }
    }
    RemoveFirstPast(list, entry, |list|);
  }

  /** The loop of `process_update_token`. */
  method UpdateToken<K(==)>(list: seq<FeeEntry<K>>, entry: FeeEntry<K>) returns (tokens: seq<FeeEntry<K>>)
    ensures tokens == Reprice(list, entry)
  {
    tokens := list;
    for i := 0 to |list|
      invariant tokens == list
      invariant forall j :: 0 <= j < i ==> list[j].token != entry.token
    {
      if tokens[i].token == entry.token {
        RepricePast(list, entry, i);
        assert list[i..][1..] == list[i + 1..];
        assert list[i..][0].(amount := entry.amount) == entry;
        tokens := tokens[i := tokens[i].(amount := entry.amount)];
        return;
      }
    }
    RepricePast(list, entry, |list|);
  }

  /** The price of a token is that of its first entry. */
  lemma {:induction false} PriceIsFirst<K>(list: seq<FeeEntry<K>>, token: FeeToken<K>) returns (i: nat)
    ensures i <= |list| && forall j :: 0 <= j < i ==> list[j].token != token
    ensures if i < |list| then list[i].token == token && PriceOf(list, token) == Some(list[i].amount)
            else PriceOf(list, token) == None
  {
    i := 0;
    if list != [] && list[0].token != token {
      var later := PriceIsFirst(list[1..], token);
      i := later + 1;
    }
  }

  /** Removing takes out the first equal entry and leaves all others in their order. */
  lemma {:induction false} RemovesFirstEqual<K>(list: seq<FeeEntry<K>>, entry: FeeEntry<K>) returns (i: nat)
    ensures i <= |list| && forall j :: 0 <= j < i ==> list[j] != entry
    ensures if i < |list| then list[i] == entry && RemoveFirst(list, entry) == list[..i] + list[i + 1..]
            else RemoveFirst(list, entry) == list
  {
    i := 0;
    if list != [] && list[0] != entry {
      var later := RemovesFirstEqual(list[1..], entry);
      i := later + 1;
      assert list == [list[0]] + list[1..];
      if i < |list| {
        assert list[..i] == [list[0]] + list[1..][..later];
        assert list[i + 1..] == list[1..][later + 1..];
      }
    }
  }

  /** Updating changes the price of the token's first entry, and nothing else. */
  lemma {:induction false} RepricesFirst<K>(list: seq<FeeEntry<K>>, entry: FeeEntry<K>) returns (i: nat)
    ensures i <= |list| && forall j :: 0 <= j < i ==> list[j].token != entry.token
    ensures if i < |list| then
              list[i].token == entry.token
              && Reprice(list, entry) == list[i := FeeEntry(list[i].token, entry.amount)]
            else Reprice(list, entry) == list
  {
    i := 0;
    if list != [] && list[0].token != entry.token {
      var later := RepricesFirst(list[1..], entry);
      i := later + 1;
      assert list == [list[0]] + list[1..];
    } else if list != [] {
      assert list[0 := entry] == [entry] + list[1..];
    }
  }

  /** The queue of prices a single token has in the list. */
  function Queue<K(==)>(list: seq<FeeEntry<K>>, token: FeeToken<K>): seq<u64> {
    if list == [] then []
    else (if list[0].token == token then [list[0].amount] else []) + Queue(list[1..], token)
  }

  function WithoutFirst(queue: seq<u64>, amount: u64): seq<u64> {
    if queue == [] then []
    else if queue[0] == amount then queue[1..]
    else [queue[0]] + WithoutFirst(queue[1..], amount)
  }

  /** Adding enqueues the price for its own token and leaves every other queue alone. */
  lemma {:induction false} AddEnqueues<K>(list: seq<FeeEntry<K>>, entry: FeeEntry<K>, token: FeeToken<K>)
    ensures Queue(list + [entry], token) == Queue(list, token) + (if entry.token == token then [entry.amount] else [])
  {
    if list != [] {
      AddEnqueues(list[1..], entry, token);
      assert (list + [entry])[1..] == list[1..] + [entry];
    }
  }

  /** Updating rewrites the head of its own token's queue, if there is one, and no other queue. */
  lemma {:induction false} UpdateRewritesHead<K>(list: seq<FeeEntry<K>>, entry: FeeEntry<K>, token: FeeToken<K>)
    ensures var before, after := Queue(list, token), Queue(Reprice(list, entry), token);
            if entry.token == token && before != [] then after == before[0 := entry.amount] else after == before
  {
    if list != [] && list[0].token != entry.token {
      UpdateRewritesHead(list[1..], entry, token);
      assert Reprice(list, entry)[1..] == Reprice(list[1..], entry);
    }
  }

  /** Removing deletes the first equal price from its own token's queue, and touches no other queue. */
  lemma {:induction false} RemoveDequeues<K>(list: seq<FeeEntry<K>>, entry: FeeEntry<K>, token: FeeToken<K>)
    ensures var before, after := Queue(list, token), Queue(RemoveFirst(list, entry), token);
            after == if entry.token == token then WithoutFirst(before, entry.amount) else before
  {
    if list != [] && list[0] != entry {
      RemoveDequeues(list[1..], entry, token);
      var rest := RemoveFirst(list[1..], entry);
      assert ([list[0]] + rest)[1..] == rest;
      var head := if list[0].token == token then [list[0].amount] else [];
      assert Queue([list[0]] + rest, token) == head + Queue(rest, token);
      if head != [] {
        assert Queue(list, token)[1..] == Queue(list[1..], token);
      } else {
        assert Queue(list, token) == Queue(list[1..], token);
      }
    }
  }

  /** A charge reads the head of the token's queue and is refused exactly when it is empty. */
  lemma {:induction false} ChargeReadsHead<K>(list: seq<FeeEntry<K>>, token: FeeToken<K>)
    ensures PriceOf(list, token) == if Queue(list, token) == [] then None else Some(Queue(list, token)[0])
  {
    if list != [] && list[0].token != token {
      ChargeReadsHead(list[1..], token);
    }
  }
}
