/** The content signed for a commission operation (commission/program/src/merkle.rs, state.rs). */
module CommissionContent {
  import opened Wrappers
  import opened ByteStrings
  import opened Merkle
  import opened FeeList

  datatype OperationType = AddToken | RemoveToken | UpdateToken | WithdrawToken

  function Tag(op: OperationType): byte {
    match op
    case AddToken => 0
    case RemoveToken => 1
    case UpdateToken => 2
    case WithdrawToken => 3
  }

  datatype Content = Content(
    nonce: u64,
    receiver: Option<Bytes32>,
    contract: Bytes32,
    operation: OperationType,
    token: FeeToken<Bytes32>,
    amount: u64)
  {
    // The handlers name a receiver exactly when they withdraw.
    predicate Formed() {
      receiver.Some? <==> operation == WithdrawToken
    }
  }

  function TokenBytes(t: FeeToken<Bytes32>): Bytes {
    if t.Native? then [] else t.mint
  }

  function ReceiverBytes(r: Option<Bytes32>): Bytes {
    if r.Some? then r.value else []
  }

  function Encode(c: Content): Bytes {
    AmountBytes(c.nonce) + ReceiverBytes(c.receiver) + c.contract + SOLANA + [Tag(c.operation)]
    + TokenBytes(c.token) + AmountBytes(c.amount)
  }

  method HashContent(h: HashFunction, c: Content) returns (hash: Bytes32)
    ensures hash == h(Encode(c))
  {
    var data: Bytes := ComputeAmountBytes(c.nonce);
    if c.receiver.Some? { data := data + c.receiver.value; }
    data := data + c.contract;
    data := data + SOLANA;
    data := data + [Tag(c.operation)];
    match c.token {
      case Native =>
      case FT(mint) => data := data + mint;
      case NFT(mint) => data := data + mint;
    }
    var amount := ComputeAmountBytes(c.amount);
    data := data + amount;
    assert data == Encode(c);
    hash := h(data);
  }

  /** Too long to be mistaken for the 64 bytes of an inner Merkle node. */
  lemma ContentIsLong(c: Content)
    ensures |Encode(c)| == 103 + |ReceiverBytes(c.receiver)| + |TokenBytes(c.token)|
  {
  }

  // Fungible and non-fungible fee tokens of one mint are written alike.
  predicate SameToken(s: FeeToken<Bytes32>, t: FeeToken<Bytes32>) {
    (s.Native? <==> t.Native?) && (!s.Native? ==> s.mint == t.mint)
  }

  predicate SameMeaning(c: Content, d: Content) {
    c.nonce == d.nonce && c.receiver == d.receiver && c.operation == d.operation
    && SameToken(c.token, d.token) && c.amount == d.amount
  }

  /** A program id that reads as the network name followed by the tag of a list edit. */
  predicate Ambiguous(contract: Bytes32) {
    contract[..6] == SOLANA && contract[6] <= 2
  }

  // The four fixed-width layouts, by the presence of a receiver and of a mint.
  lemma Fields(c: Content)
    ensures var b, r := Encode(c), |ReceiverBytes(c.receiver)|;
      && |b| == 103 + r + |TokenBytes(c.token)|
      && b[..32] == AmountBytes(c.nonce)
      && b[32..32 + r] == ReceiverBytes(c.receiver)
      && b[32 + r..64 + r] == c.contract
      && b[64 + r..70 + r] == SOLANA
      && b[70 + r] == Tag(c.operation)
      && b[71 + r..|b| - 32] == TokenBytes(c.token)
      && b[|b| - 32..] == AmountBytes(c.amount)
  {
    var b, r := Encode(c), |ReceiverBytes(c.receiver)|;
    assert b[32..32 + r] == ReceiverBytes(c.receiver);
    assert b[|b| - 32..] == AmountBytes(c.amount);
    assert b[71 + r..|b| - 32] == TokenBytes(c.token);
  }

  /** Nonce, receiver of a withdrawal, program id, network name, kind of operation, mint if any, amount. */
  lemma Layout(c: Content)
    ensures var b, r, m := Encode(c), if c.receiver.Some? then 32 else 0, if c.token.Native? then 0 else 32;
      && |b| == 103 + r + m
      && b[..32] == Zeros(24) + BigEndian(c.nonce, 8)
      && (c.receiver.Some? ==> b[32..64] == c.receiver.value)
      && b[32 + r..64 + r] == c.contract
      && b[64 + r..70 + r] == SOLANA
      && (b[70 + r] == 0 <==> c.operation == AddToken)
      && (b[70 + r] == 1 <==> c.operation == RemoveToken)
      && (b[70 + r] == 2 <==> c.operation == UpdateToken)
      && (b[70 + r] == 3 <==> c.operation == WithdrawToken)
      && (!c.token.Native? ==> b[71 + r..103 + r] == c.token.mint)
      && b[71 + r + m..] == Zeros(24) + BigEndian(c.amount, 8)
  {
    Fields(c);
    AmountBytesForm(c.nonce);
    AmountBytesForm(c.amount);
  }

  // The two 135-byte layouts differ where one has the network name and the other the program id.
  lemma LayoutsSeparate(c: Content, d: Content)
    requires Encode(c) == Encode(d) && c.contract == d.contract
    requires c.Formed() && d.Formed() && c.receiver.None? && d.receiver.Some?
    ensures Ambiguous(c.contract)
  {
    Fields(c);
    Fields(d);
    var b := Encode(c);
    assert b[64..96][..6] == b[64..70];
    assert b[64..96][6] == b[70];
  }

  lemma SameLayoutDecodes(c: Content, d: Content)
    requires Encode(c) == Encode(d) && c.receiver.Some? == d.receiver.Some?
    ensures SameMeaning(c, d)
  {
    Fields(c);
    Fields(d);
    AmountBytesInjective(c.nonce, d.nonce);
    AmountBytesInjective(c.amount, d.amount);
  }

  /** For an unambiguous program id equal bytes mean the same operation. */
  lemma ContentDecodes(c: Content, d: Content)
    requires c.Formed() && d.Formed() && c.contract == d.contract && !Ambiguous(c.contract)
    requires Encode(c) == Encode(d)
    ensures SameMeaning(c, d)
  {
    if c.receiver.None? && d.receiver.Some? {
      LayoutsSeparate(c, d);
    } else if c.receiver.Some? && d.receiver.None? {
      LayoutsSeparate(d, c);
    } else {
      SameLayoutDecodes(c, d);
    }
  }

  // A list edit and a withdrawal with the same bytes, for an ambiguous program id.
  function ClashingEdit(contract: Bytes32): (c: Content)
    requires Ambiguous(contract)
    ensures c.Formed() && c.contract == contract
  {
    var op := if contract[6] == 0 then AddToken else if contract[6] == 1 then RemoveToken else UpdateToken;
    Content(0, None, contract, op, FT(contract[7..] + SOLANA + [3]), 0)
  }

  function ClashingWithdrawal(contract: Bytes32): (c: Content)
    ensures c.Formed() && c.contract == contract
  {
    Content(0, Some(contract), contract, WithdrawToken, Native, 0)
  }

  lemma Reassociate(z: Bytes, p: Bytes, s: Bytes, t: Bytes, rest: Bytes, u: Bytes)
    ensures z + [] + p + s + t + (rest + s + u) + z == z + p + (s + t + rest) + s + u + [] + z
  {
  }

  lemma ClashingContents(contract: Bytes32)
    requires Ambiguous(contract)
    ensures Encode(ClashingEdit(contract)) == Encode(ClashingWithdrawal(contract))
    ensures !SameMeaning(ClashingEdit(contract), ClashingWithdrawal(contract))
  {
    var tag := [Tag(ClashingEdit(contract).operation)];
    assert SOLANA + tag + contract[7..] == contract;
    Reassociate(AmountBytes(0), contract, SOLANA, tag, contract[7..], [3]);
  }

  /** Exactly when the signed bytes determine the operation: all four kinds, every nonce, token and receiver. */
  lemma EncodingInjectiveIff(contract: Bytes32)
    ensures (forall c: Content, d: Content ::
               c.Formed() && d.Formed() && c.contract == contract && d.contract == contract && Encode(c) == Encode(d)
               ==> SameMeaning(c, d))
            <==> !Ambiguous(contract)
  {
    if Ambiguous(contract) {
      ClashingContents(contract);
    } else {
      forall c: Content, d: Content | c.Formed() && d.Formed() && c.contract == contract && d.contract == contract
                                      && Encode(c) == Encode(d)
        ensures SameMeaning(c, d)
      {
        ContentDecodes(c, d);
      }
    }
  }
}
