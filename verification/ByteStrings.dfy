/** Byte strings, machine words and the 32-byte big-endian form of an amount (lib/src/merkle.rs). */
module ByteStrings {

  type byte = i: int | 0 <= i < 256
  type Bytes = seq<byte>
  type Bytes32 = b: Bytes | |b| == 32 witness seq(32, _ => 0)

  const U64: nat := 0x1_0000_0000_0000_0000
  type u64 = i: int | 0 <= i < 0x1_0000_0000_0000_0000

  // The release profile of the workspace leaves overflow checks off, so `+=` and `-=` wrap.
  function WrapAdd(a: int, b: int): u64 {
    (a + b) % U64
  }

  function WrapSub(a: int, b: int): u64 {
    (a - b) % U64
  }

  lemma InRangeDoesNotWrap(n: nat)
    requires n < U64
    ensures n % U64 == n
  {
  }

  // The network name "Solana" as bytes.
  const SOLANA: Bytes := [83, 111, 108, 97, 110, 97]

  function Zeros(n: nat): (b: Bytes)
    ensures |b| == n
  {
    seq(n, _ => 0)
  }

  /** The last `width` base-256 digits of `n`, most significant first. */
  function BigEndian(n: nat, width: nat): (b: Bytes)
    ensures |b| == width
  {
    if width == 0 then [] else BigEndian(n / 256, width - 1) + [n % 256]
  }

  function FromBigEndian(b: Bytes): nat {
    if b == [] then 0 else 256 * FromBigEndian(b[..|b| - 1]) + b[|b| - 1]
  }

  function Pow256(width: nat): nat {
    if width == 0 then 1 else 256 * Pow256(width - 1)
  }

  /** The form every signed content carries its amounts and nonces in. */
  function AmountBytes(amount: u64): Bytes32 {
    BigEndian(amount, 32)
  }

  lemma {:induction false} BigEndianRoundTrip(n: nat, width: nat)
    requires n < Pow256(width)
    ensures FromBigEndian(BigEndian(n, width)) == n
  {
    if width > 0 {
      BigEndianRoundTrip(n / 256, width - 1);
      assert BigEndian(n, width)[..width - 1] == BigEndian(n / 256, width - 1);
    }
  }

  lemma {:induction false} BigEndianPads(n: nat, width: nat, extra: nat)
    requires n < Pow256(width)
    ensures BigEndian(n, extra + width) == Zeros(extra) + BigEndian(n, width)
    decreases extra + width
  {
    if width > 0 {
      BigEndianPads(n / 256, width - 1, extra);
    } else if extra > 0 {
      BigEndianPads(0, 0, extra - 1);
    }
  }

  lemma {:induction false} Pow256Grows(width: nat, more: nat)
    ensures Pow256(width) <= Pow256(width + more)
  {
    if more > 0 {
      Pow256Grows(width, more - 1);
    }
  }

  /** Decoding the 32 bytes gives the amount back: no two amounts share a form. */
  lemma AmountBytesRoundTrip(amount: u64)
    ensures FromBigEndian(AmountBytes(amount)) == amount
  {
    assert Pow256(8) == U64;
    Pow256Grows(8, 24);
    BigEndianRoundTrip(amount, 32);
  }

  lemma AmountBytesForm(amount: u64)
    ensures AmountBytes(amount) == Zeros(24) + BigEndian(amount, 8)
  {
    assert Pow256(8) == U64;
    BigEndianPads(amount, 8, 24);
  }

  lemma AmountBytesInjective(a: u64, b: u64)
    requires AmountBytes(a) == AmountBytes(b)
    ensures a == b
  {
    AmountBytesRoundTrip(a);
    AmountBytesRoundTrip(b);
  }

  /** The copying loop of lib/src/merkle.rs: eight bytes, last first, into a zeroed 32-byte array. */
  method ComputeAmountBytes(amount: u64) returns (result: Bytes32)
    ensures result == Zeros(24) + BigEndian(amount, 8)
    ensures result == AmountBytes(amount)
  {
    var buffer := new byte[32](_ => 0);
    var bytes := BigEndian(amount, 8);
    for i := 0 to 8
      invariant forall k :: 0 <= k < 32 - i ==> buffer[k] == 0
      invariant forall k :: 32 - i <= k < 32 ==> buffer[k] == bytes[k - 24]
    {
      buffer[31 - i] := bytes[7 - i];
    }
    result := buffer[..];
    assert result == Zeros(24) + bytes;
    AmountBytesForm(amount);
  }

  /** Lexicographic comparison of byte arrays, as derived for `keccak::Hash`. */
  predicate LexGreaterEq(a: Bytes, b: Bytes) {
    if b == [] then true
    else if a == [] then false
    else if a[0] != b[0] then a[0] > b[0]
    else LexGreaterEq(a[1..], b[1..])
  }

  lemma {:induction false} LexTotal(a: Bytes, b: Bytes)
    ensures LexGreaterEq(a, b) || LexGreaterEq(b, a)
  {
    if a != [] && b != [] && a[0] == b[0] {
      LexTotal(a[1..], b[1..]);
    }
  }

  lemma {:induction false} LexAntisymmetric(a: Bytes, b: Bytes)
    requires LexGreaterEq(a, b) && LexGreaterEq(b, a)
    ensures a == b
  {
    if a != [] && b != [] {
      LexAntisymmetric(a[1..], b[1..]);
      assert a == [a[0]] + a[1..] && b == [b[0]] + b[1..];
    }
  }

  lemma {:induction false} FromBigEndianBound(b: Bytes)
    ensures FromBigEndian(b) < Pow256(|b|)
  {
    if b != [] {
      FromBigEndianBound(b[..|b| - 1]);
    }
  }

  /** The first byte is the most significant one. */
  lemma {:induction false} FirstByteCountsMost(first: byte, rest: Bytes)
    ensures FromBigEndian([first] + rest) == first * Pow256(|rest|) + FromBigEndian(rest)
  {
    var b := [first] + rest;
    if rest == [] {
      assert b[..0] == [];
    } else {
      var short := rest[..|rest| - 1];
      assert b[..|b| - 1] == [first] + short;
      FirstByteCountsMost(first, short);
    }
  }

  lemma LargerDigitWins(x: nat, y: nat, unit: nat, low: nat, low': nat)
    requires x > y && low' < unit
    ensures x * unit + low > y * unit + low'
  {
    assert x * unit >= (y + 1) * unit;
  }

  /** For strings of one length the order is that of the numbers they spell. */
  lemma {:induction false} LexIsNumeric(a: Bytes, b: Bytes)
    requires |a| == |b|
    ensures LexGreaterEq(a, b) <==> FromBigEndian(a) >= FromBigEndian(b)
  {
    if a != [] {
      var unit := Pow256(|a| - 1);
      assert a == [a[0]] + a[1..] && b == [b[0]] + b[1..];
      FirstByteCountsMost(a[0], a[1..]);
      FirstByteCountsMost(b[0], b[1..]);
      FromBigEndianBound(a[1..]);
      FromBigEndianBound(b[1..]);
      if a[0] > b[0] {
        LargerDigitWins(a[0], b[0], unit, FromBigEndian(a[1..]), FromBigEndian(b[1..]));
      } else if b[0] > a[0] {
        LargerDigitWins(b[0], a[0], unit, FromBigEndian(b[1..]), FromBigEndian(a[1..]));
      } else {
        LexIsNumeric(a[1..], b[1..]);
      }
    }
  }
}
