/** The stored bytes of a commission admin, rewritten in place (commission/program/src/state.rs). */
module Borsh {
  import opened Wrappers
  import opened ByteStrings
  import opened FeeList

  // `K` is an address on the ledger and 32 bytes on the wire.
  datatype CommissionAdmin<+K> = CommissionAdmin(
    acceptableTokens: seq<FeeEntry<K>>,
    addTokenNonce: u64,
    updateTokenNonce: u64,
    removeTokenNonce: u64,
    withdrawTokenNonce: u64,
    isInitialized: bool)

  type Wire = CommissionAdmin<Bytes32>

  const MAX_TOKENS_COUNT: nat := 10

  // `MAX_ADMIN_SIZE`, which depends on the memory layout of a token.
  function MaxAdminSize(sizeOfToken: nat): nat {
    MAX_TOKENS_COUNT * (sizeOfToken + 32 + 8) + 32 + 8
  }

  function EntrySize<K>(e: FeeEntry<K>): nat {
    if e.token.Native? then 9 else 41
  }

  function EntriesSize<K>(list: seq<FeeEntry<K>>): nat {
    if list == [] then 0 else EntrySize(list[0]) + EntriesSize(list[1..])
  }

  function AdminSize<K>(a: CommissionAdmin<K>): nat {
    4 + EntriesSize(a.acceptableTokens) + 33
  }

  lemma {:induction false} EntriesSizeBound<K>(list: seq<FeeEntry<K>>)
    ensures 9 * |list| <= EntriesSize(list) <= 41 * |list|
  {
    if list != [] {
      EntriesSizeBound(list[1..]);
    }
  }

  /** Ten entries of any kind fit, whatever the compiler makes of the token's layout. */
  lemma TenTokensFit<K>(a: CommissionAdmin<K>, sizeOfToken: nat)
    requires |a.acceptableTokens| <= MAX_TOKENS_COUNT && sizeOfToken >= 33
    ensures AdminSize(a) <= MaxAdminSize(sizeOfToken)
  {
    EntriesSizeBound(a.acceptableTokens);
  }

  function LittleEndian(n: nat, width: nat): (b: Bytes)
    ensures |b| == width
  {
    if width == 0 then [] else [n % 256] + LittleEndian(n / 256, width - 1)
  }

  function FromLittleEndian(b: Bytes): nat {
    if b == [] then 0 else b[0] + 256 * FromLittleEndian(b[1..])
  }

  lemma {:induction false} LittleEndianRoundTrip(n: nat, width: nat)
    requires n < Pow256(width)
    ensures FromLittleEndian(LittleEndian(n, width)) == n
  {
    if width > 0 {
      LittleEndianRoundTrip(n / 256, width - 1);
    }
  }

  function EncodeEntry(e: FeeEntry<Bytes32>): (b: Bytes)
    ensures |b| == EntrySize(e)
  {
    (match e.token case Native => [0] case FT(mint) => [1] + mint case NFT(mint) => [2] + mint)
    + LittleEndian(e.amount, 8)
  }

  function EncodeEntries(list: seq<FeeEntry<Bytes32>>): (b: Bytes)
    ensures |b| == EntriesSize(list)
  {
    if list == [] then [] else EncodeEntry(list[0]) + EncodeEntries(list[1..])
  }

  function EncodeTail(a: Wire): (b: Bytes)
    ensures |b| == 33
  {
    LittleEndian(a.addTokenNonce, 8) + LittleEndian(a.updateTokenNonce, 8) + LittleEndian(a.removeTokenNonce, 8)
    + LittleEndian(a.withdrawTokenNonce, 8) + [if a.isInitialized then 1 else 0]
  }

  function Encode(a: Wire): (b: Bytes)
    ensures |b| == AdminSize(a)
  {
    LittleEndian(|a.acceptableTokens|, 4) + EncodeEntries(a.acceptableTokens) + EncodeTail(a)
  }

  // A decoder consumes a prefix and returns what is left.
  type Parsed<T> = Option<(T, Bytes)>

  function DecodeNumber(b: Bytes, width: nat): Parsed<nat> {
    if |b| < width then None else Some((FromLittleEndian(b[..width]), b[width..]))
  }

  function DecodeU64(b: Bytes): Parsed<u64> {
    match DecodeNumber(b, 8)
    case None => None
    case Some((n, rest)) => if n < U64 then Some((n, rest)) else None
  }

  function DecodeEntry(b: Bytes): Parsed<FeeEntry<Bytes32>> {
    if b == [] then None
    else if b[0] == 0 then
      match DecodeU64(b[1..])
      case None => None
      case Some((amount, rest)) => Some((FeeEntry(Native, amount), rest))
    else if b[0] > 2 || |b| < 33 then None
    else
      match DecodeU64(b[33..])
      case None => None
      case Some((amount, rest)) => Some((FeeEntry(if b[0] == 1 then FT(b[1..33]) else NFT(b[1..33]), amount), rest))
  }

  function DecodeEntries(b: Bytes, count: nat): Parsed<seq<FeeEntry<Bytes32>>> {
    if count == 0 then Some(([], b))
    else
      match DecodeEntry(b)
      case None => None
      case Some((entry, rest)) =>
        match DecodeEntries(rest, count - 1)
        case None => None
        case Some((entries, rest')) => Some(([entry] + entries, rest'))
  }

  function DecodeTail(tokens: seq<FeeEntry<Bytes32>>, b: Bytes): Parsed<Wire> {
    match DecodeU64(b)
    case None => None
    case Some((add, b1)) =>
      match DecodeU64(b1)
      case None => None
      case Some((update, b2)) =>
        match DecodeU64(b2)
        case None => None
        case Some((remove, b3)) =>
          match DecodeU64(b3)
          case None => None
          case Some((withdraw, b4)) =>
            if b4 == [] || b4[0] > 1 then None
            else Some((CommissionAdmin(tokens, add, update, remove, withdraw, b4[0] == 1), b4[1..]))
  }

  function Decode(b: Bytes): Parsed<Wire> {
    match DecodeNumber(b, 4)
    case None => None
    case Some((count, rest)) =>
      match DecodeEntries(rest, count)
      case None => None
      case Some((tokens, rest')) => DecodeTail(tokens, rest')
  }

  lemma U64RoundTrip(n: u64, rest: Bytes)
    ensures DecodeU64(LittleEndian(n, 8) + rest) == Some((n, rest))
  {
    var b := LittleEndian(n, 8) + rest;
    assert b[..8] == LittleEndian(n, 8) && b[8..] == rest;
    assert Pow256(8) == U64;
    LittleEndianRoundTrip(n, 8);
  }

  lemma ConcatAssociates(a: Bytes, b: Bytes, c: Bytes)
    ensures a + b + c == a + (b + c)
  {
  }

  lemma KeyedRoundTrip(tag: byte, mint: Bytes32, tail: Bytes)
    ensures var b := [tag] + mint + tail; b[0] == tag && b[1..33] == mint && b[33..] == tail
  {
  }

  lemma EntryRoundTrip(e: FeeEntry<Bytes32>, rest: Bytes)
    ensures DecodeEntry(EncodeEntry(e) + rest) == Some((e, rest))
  {
    U64RoundTrip(e.amount, rest);
    var amount := LittleEndian(e.amount, 8);
    match e.token {
      case Native =>
        ConcatAssociates([0], amount, rest);
        assert ([0] + (amount + rest))[1..] == amount + rest;
      case FT(mint) =>
        ConcatAssociates([1] + mint, amount, rest);
        KeyedRoundTrip(1, mint, amount + rest);
      case NFT(mint) =>
        ConcatAssociates([2] + mint, amount, rest);
        KeyedRoundTrip(2, mint, amount + rest);
    }
  }

  lemma {:induction false} EntriesRoundTrip(list: seq<FeeEntry<Bytes32>>, rest: Bytes)
    ensures DecodeEntries(EncodeEntries(list) + rest, |list|) == Some((list, rest))
  {
    if list == [] {
      assert EncodeEntries(list) + rest == rest;
    } else {
      var tail := EncodeEntries(list[1..]) + rest;
      EntriesRoundTrip(list[1..], rest);
      EntryRoundTrip(list[0], tail);
      ConcatAssociates(EncodeEntry(list[0]), EncodeEntries(list[1..]), rest);
      assert [list[0]] + list[1..] == list;
    }
  }

  lemma FiveParts(a: Bytes, b: Bytes, c: Bytes, d: Bytes, e: Bytes, rest: Bytes)
    ensures a + b + c + d + e + rest == a + (b + (c + (d + (e + rest))))
  {
  }

  lemma TailRoundTrip(a: Wire, rest: Bytes)
    ensures DecodeTail(a.acceptableTokens, EncodeTail(a) + rest) == Some((a, rest))
  {
    var b4 := [if a.isInitialized then 1 else 0] + rest;
    var b3 := LittleEndian(a.withdrawTokenNonce, 8) + b4;
    var b2 := LittleEndian(a.removeTokenNonce, 8) + b3;
    var b1 := LittleEndian(a.updateTokenNonce, 8) + b2;
    U64RoundTrip(a.addTokenNonce, b1);
    U64RoundTrip(a.updateTokenNonce, b2);
    U64RoundTrip(a.removeTokenNonce, b3);
    U64RoundTrip(a.withdrawTokenNonce, b4);
    FiveParts(LittleEndian(a.addTokenNonce, 8), LittleEndian(a.updateTokenNonce, 8),
              LittleEndian(a.removeTokenNonce, 8), LittleEndian(a.withdrawTokenNonce, 8),
              [if a.isInitialized then 1 else 0], rest);
    assert b4[0] == (if a.isInitialized then 1 else 0) && b4[1..] == rest;
  }

  /** Decoding reads back what was encoded, whatever bytes follow. */
  lemma AdminRoundTrip(a: Wire, rest: Bytes)
    requires |a.acceptableTokens| < Pow256(4)
    ensures Decode(Encode(a) + rest) == Some((a, rest))
  {
    var n := |a.acceptableTokens|;
    var tail := EncodeTail(a) + rest;
    var body := EncodeEntries(a.acceptableTokens) + tail;
    var b := Encode(a) + rest;
    assert b == LittleEndian(n, 4) + body;
    assert b[..4] == LittleEndian(n, 4) && b[4..] == body;
    LittleEndianRoundTrip(n, 4);
    EntriesRoundTrip(a.acceptableTokens, tail);
    TailRoundTrip(a, rest);
  }

  /** The last byte of a stored number is the most significant one. */
  lemma {:induction false} LastByteCountsMost(low: Bytes, last: byte)
    ensures FromLittleEndian(low + [last]) == FromLittleEndian(low) + last * Pow256(|low|)
  {
    if low == [] {
      assert low + [last] == [last];
    } else {
      assert (low + [last])[1..] == low[1..] + [last];
      LastByteCountsMost(low[1..], last);
    }
  }

  // The tag of a token's kind, its mint if it has one, its price.
  predicate Spells(b: Bytes, e: FeeEntry<Bytes32>) {
    match e.token
    case Native => b == [0] + LittleEndian(e.amount, 8)
    case FT(mint) => b == [1] + mint + LittleEndian(e.amount, 8)
    case NFT(mint) => b == [2] + mint + LittleEndian(e.amount, 8)
  }

  lemma SliceBehind(a: Bytes, b: Bytes, lo: nat, hi: nat)
    requires lo <= hi <= |b|
    ensures (a + b)[|a| + lo..|a| + hi] == b[lo..hi]
  {
  }

  lemma {:induction false} EntryAt(list: seq<FeeEntry<Bytes32>>, i: nat) returns (at: nat)
    requires i < |list|
    ensures at == EntriesSize(list[..i]) && at + EntrySize(list[i]) <= |EncodeEntries(list)|
    ensures Spells(EncodeEntries(list)[at..at + EntrySize(list[i])], list[i])
    ensures EncodeEntries(list)[..at] == EncodeEntries(list[..i])
  {
    var first, rest := EncodeEntry(list[0]), EncodeEntries(list[1..]);
    if i == 0 {
      at := 0;
      assert (first + rest)[..|first|] == first;
      assert list[..0] == [];
    } else {
      var later := EntryAt(list[1..], i - 1);
      at := |first| + later;
      assert list[..i] == [list[0]] + list[1..][..i - 1];
      SliceBehind(first, rest, later, later + EntrySize(list[i]));
      assert (first + rest)[..at] == first + rest[..later];
    }
  }

  /** The stored admin: a count, the entries, the nonces for adding, updating, removing and withdrawing, a flag. */
  lemma Layout(a: Wire)
    ensures var b, n := Encode(a), |Encode(a)|;
            n >= 37
            && b[..4] == LittleEndian(|a.acceptableTokens|, 4)
            && b[n - 33..n - 25] == LittleEndian(a.addTokenNonce, 8)
            && b[n - 25..n - 17] == LittleEndian(a.updateTokenNonce, 8)
            && b[n - 17..n - 9] == LittleEndian(a.removeTokenNonce, 8)
            && b[n - 9..n - 1] == LittleEndian(a.withdrawTokenNonce, 8)
            && (b[n - 1] == if a.isInitialized then 1 else 0)
  {
    TailLayout(a);
    TailSlice(a, 0, 8);
    TailSlice(a, 8, 16);
    TailSlice(a, 16, 24);
    TailSlice(a, 24, 32);
    TailSlice(a, 32, 33);
    CountLayout(a);
  }

  lemma TailSlice(a: Wire, lo: nat, hi: nat)
    requires lo <= hi <= 33
    ensures var b, n := Encode(a), |Encode(a)|;
            n >= 37 && b[n - 33 + lo..n - 33 + hi] == EncodeTail(a)[lo..hi]
            && (lo < hi ==> b[n - 33 + lo] == EncodeTail(a)[lo])
  {
    var head := LittleEndian(|a.acceptableTokens|, 4) + EncodeEntries(a.acceptableTokens);
    SliceBehind(head, EncodeTail(a), lo, hi);
  }

  lemma CountLayout(a: Wire)
    ensures Encode(a)[..4] == LittleEndian(|a.acceptableTokens|, 4)
  {
    var count := LittleEndian(|a.acceptableTokens|, 4);
    ConcatAssociates(count, EncodeEntries(a.acceptableTokens), EncodeTail(a));
  }

  /** Each entry stands behind those before it: 9 bytes, or 41 with a mint. */
  lemma EntryLayout(a: Wire, i: nat)
    requires i < |a.acceptableTokens|
    ensures var e := a.acceptableTokens[i];
            var at, size := 4 + |EncodeEntries(a.acceptableTokens[..i])|, if e.token.Native? then 9 else 41;
            at + size <= |Encode(a)| - 33 && Spells(Encode(a)[at..at + size], e)
  {
    var count, entries := LittleEndian(|a.acceptableTokens|, 4), EncodeEntries(a.acceptableTokens);
    var at := EntryAt(a.acceptableTokens, i);
    var size := EntrySize(a.acceptableTokens[i]);
    ConcatAssociates(count, entries, EncodeTail(a));
    SliceBehind(count, entries + EncodeTail(a), at, at + size);
    assert (entries + EncodeTail(a))[at..at + size] == entries[at..at + size];
  }

  lemma TailLayout(a: Wire)
    ensures var t := EncodeTail(a);
            t[..8] == LittleEndian(a.addTokenNonce, 8) && t[8..16] == LittleEndian(a.updateTokenNonce, 8)
            && t[16..24] == LittleEndian(a.removeTokenNonce, 8) && t[24..32] == LittleEndian(a.withdrawTokenNonce, 8)
            && (t[32] == if a.isInitialized then 1 else 0)
  {
    assert EncodeTail(a)[8..16] == LittleEndian(a.updateTokenNonce, 8);
    assert EncodeTail(a)[16..24] == LittleEndian(a.removeTokenNonce, 8);
    assert EncodeTail(a)[24..32] == LittleEndian(a.withdrawTokenNonce, 8);
  }

  /** `serialize` into the account's own buffer: the new encoding overwrites a prefix of the old bytes,
      and the next `deserialize` sees only the new state. It fails exactly when the buffer is too short,
      and then as much of the encoding as fits has been written. */
  method Store(buffer: array<byte>, a: Wire) returns (stored: bool)
    requires buffer.Length < Pow256(4)
    modifies buffer
    ensures stored <==> AdminSize(a) <= buffer.Length
    ensures stored ==> buffer[..] == Encode(a) + old(buffer[AdminSize(a)..])
    ensures stored ==> Decode(buffer[..]) == Some((a, old(buffer[AdminSize(a)..])))
    ensures !stored ==> buffer[..] == Encode(a)[..buffer.Length]
  {
    var bytes := Encode(a);
    for i := 0 to |bytes|
      invariant i <= buffer.Length && buffer[..i] == bytes[..i]
      invariant forall k :: i <= k < buffer.Length ==> buffer[k] == old(buffer[k])
    {
      if i == buffer.Length {
        return false;
      }
      buffer[i] := bytes[i];
    }
    assert buffer[|bytes|..] == old(buffer[|bytes|..]);
    assert buffer[..] == buffer[..|bytes|] + buffer[|bytes|..];
    EntriesSizeBound(a.acceptableTokens);
    AdminRoundTrip(a, buffer[|bytes|..]);
    stored := true;
  }

  // A freshly created, zeroed account reads as an admin that is not initialised.
  lemma ZeroedAdmin(size: nat)
    requires size >= 37
    ensures Decode(Zeros(size)) == Some((CommissionAdmin([], 0, 0, 0, 0, false), Zeros(size - 37)))
  {
    var a: Wire := CommissionAdmin([], 0, 0, 0, 0, false);
    ZeroDigits(4);
    ZeroDigits(8);
    assert Encode(a) + Zeros(size - 37) == Zeros(size);
    AdminRoundTrip(a, Zeros(size - 37));
  }

  lemma {:induction false} ZeroDigits(width: nat)
    ensures LittleEndian(0, width) == Zeros(width)
  {
    if width > 0 {
      ZeroDigits(width - 1);
    }
  }
}
