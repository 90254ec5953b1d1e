/** The content signed for a program upgrade (upgrade/program/src/merkle.rs). */
module UpgradeContent {
  import opened ByteStrings
  import opened Merkle

  datatype Content = Content(nonce: u64, contract: Bytes32, buffer: Bytes32)

  function Encode(c: Content): Bytes {
    SOLANA + AmountBytes(c.nonce) + c.contract + c.buffer
  }

  method HashContent(h: HashFunction, c: Content) returns (hash: Bytes32)
    ensures hash == h(Encode(c))
  {
    var data := SOLANA;
    var nonce := ComputeAmountBytes(c.nonce);
    data := data + nonce;
    data := data + c.contract;
    data := data + c.buffer;
    hash := h(data);
  }

  /** Too long to be mistaken for the 64 bytes of an inner Merkle node. */
  lemma ContentIsLong(c: Content)
    ensures |Encode(c)| == 102
  {
  }

  /** Network name, nonce, contract, buffer. */
  lemma Layout(c: Content)
    ensures var b := Encode(c);
            |b| == 102 && b[..6] == SOLANA && b[6..38] == Zeros(24) + BigEndian(c.nonce, 8)
            && b[38..70] == c.contract && b[70..] == c.buffer
  {
    AmountBytesForm(c.nonce);
    assert Encode(c)[6..38] == AmountBytes(c.nonce);
  }

  lemma ContentDecodes(c: Content, d: Content)
    requires Encode(c) == Encode(d)
    ensures c == d
  {
    var b := Encode(c);
    assert b[6..38] == AmountBytes(c.nonce) && b[6..38] == AmountBytes(d.nonce);
    assert b[38..70] == c.contract && b[38..70] == d.contract;
    assert b[70..] == c.buffer && b[70..] == d.buffer;
    AmountBytesInjective(c.nonce, d.nonce);
  }
}
