/** What `trim_matches(char::from(0))` leaves of a padded string. */
module Trimming {
  import opened ByteStrings
  import Bridge

  // A string without zero bytes at its ends, and what is stored for it: the same with zeros around.
  ghost predicate Trimmed(stored: Bytes, t: Bytes) {
    (t != [] ==> t[0] != 0 && t[|t| - 1] != 0)
    && exists i: nat, j: nat :: Padded(stored, i, t, j)
  }

  predicate Padded(stored: Bytes, i: nat, t: Bytes, j: nat) {
    stored == Zeros(i) + t + Zeros(j)
  }

  lemma {:induction false} TrimStartPads(b: Bytes) returns (i: nat)
    ensures b == Zeros(i) + Bridge.TrimStart(b)
    ensures Bridge.TrimStart(b) != [] ==> Bridge.TrimStart(b)[0] != 0
  {
    i := 0;
    if b != [] && b[0] == 0 {
      var later := TrimStartPads(b[1..]);
      i := later + 1;
      assert b == [0] + b[1..] && Zeros(i) == [0] + Zeros(later);
    }
  }

  lemma {:induction false} TrimEndPads(b: Bytes) returns (j: nat)
    ensures b == Bridge.TrimEnd(b) + Zeros(j)
    ensures Bridge.TrimEnd(b) != [] ==> Bridge.TrimEnd(b)[|Bridge.TrimEnd(b)| - 1] != 0 && Bridge.TrimEnd(b)[0] == b[0]
  {
    j := 0;
    if b != [] && b[|b| - 1] == 0 {
      var earlier := TrimEndPads(b[..|b| - 1]);
      j := earlier + 1;
      assert b == b[..|b| - 1] + [0] && Zeros(j) == Zeros(earlier) + [0];
    }
  }

  lemma TrimTrims(b: Bytes)
    ensures Trimmed(b, Bridge.Trim(b))
  {
    var i := TrimStartPads(b);
    var j := TrimEndPads(Bridge.TrimStart(b));
    assert Zeros(i) + Bridge.Trim(b) + Zeros(j) == Zeros(i) + (Bridge.Trim(b) + Zeros(j));
    assert Padded(b, i, Bridge.Trim(b), j);
  }

  // Whatever is not zero in the stored bytes is in the string, and starts and ends it.
  lemma TrimmedBounds(b: Bytes, i: nat, t: Bytes, j: nat)
    requires Padded(b, i, t, j) && (t != [] ==> t[0] != 0 && t[|t| - 1] != 0)
    ensures |b| == i + |t| + j && t == b[i..i + |t|]
    ensures t == [] <==> forall k :: 0 <= k < |b| ==> b[k] == 0
    ensures t != [] ==> b[i] != 0 && b[i + |t| - 1] != 0 && forall k :: 0 <= k < i || i + |t| <= k < |b| ==> b[k] == 0
  {
    if t != [] {
      assert b[i] == t[0];
    }
  }

  /** There is only one such string. */
  lemma TrimmedIsUnique(b: Bytes, t: Bytes, u: Bytes)
    requires Trimmed(b, t) && Trimmed(b, u)
    ensures t == u
  {
    var i: nat, j: nat :| Padded(b, i, t, j);
    var i': nat, j': nat :| Padded(b, i', u, j');
    TrimmedBounds(b, i, t, j);
    TrimmedBounds(b, i', u, j');
    if t != [] {
      assert i == i';
      assert i + |t| == i' + |u|;
    }
  }

  // That string.
  ghost function Bare(stored: Bytes): (t: Bytes)
    ensures Trimmed(stored, t)
  {
    TrimTrims(stored);
    var t :| Trimmed(stored, t);
    t
  }

  lemma TrimIsBare(b: Bytes)
    ensures Bridge.Trim(b) == Bare(b)
  {
    TrimTrims(b);
    TrimmedIsUnique(b, Bridge.Trim(b), Bare(b));
  }
}
