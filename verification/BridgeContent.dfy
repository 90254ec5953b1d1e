/** The content signed for a bridge withdrawal (bridge/program/src/merkle.rs). */
module BridgeContent {
  import opened Wrappers
  import opened ByteStrings
  import opened Merkle

  datatype TransferData = TransferData(
    addressTo: Option<Bytes32>,
    tokenIdTo: Option<Bytes32>,
    amount: Option<u64>,
    name: Option<Bytes>,
    symbol: Option<Bytes>,
    uri: Option<Bytes>,
    decimals: Option<byte>)

  function NativeTransfer(amount: u64): TransferData {
    TransferData(None, None, Some(amount), None, None, None, None)
  }

  function FtTransfer(mint: Bytes32, amount: u64, name: Bytes, symbol: Bytes, uri: Bytes,
                      decimals: byte): TransferData {
    TransferData(Some(mint), None, Some(amount), Some(name), Some(symbol), Some(uri), Some(decimals))
  }

  function NftTransfer(mint: Bytes32, collection: Option<Bytes32>, name: Bytes, symbol: Bytes,
                       uri: Bytes): TransferData {
    TransferData(collection, Some(mint), None, Some(name), Some(symbol), Some(uri), None)
  }

  datatype Content = Content(data: TransferData, origin: Bytes32, receiver: Bytes32, programId: Bytes32)

  function OrEmpty(b: Option<Bytes>): Bytes {
    if b.Some? then b.value else []
  }

  function Operation(d: TransferData): Bytes {
    OrEmpty(d.addressTo) + OrEmpty(d.name) + OrEmpty(d.tokenIdTo) + OrEmpty(d.uri)
    + (if d.amount.Some? then AmountBytes(d.amount.value) else [])
    + OrEmpty(d.symbol) + (if d.decimals.Some? then [d.decimals.value] else [])
  }

  function Encode(c: Content): Bytes {
    Operation(c.data) + c.origin + SOLANA + c.receiver + c.programId
  }

  method AppendIfSome(data: Bytes, field: Option<Bytes>) returns (extended: Bytes)
    ensures extended == data + OrEmpty(field)
  {
    extended := data;
    if field.Some? {
      extended := extended + field.value;
    }
  }

  /** `get_operation`: the optional fields appended in the order the signer agreed on. */
  method GetOperation(d: TransferData) returns (data: Bytes)
    ensures data == Operation(d)
  {
    data := [];
    data := AppendIfSome(data, d.addressTo);
    data := AppendIfSome(data, d.name);
    data := AppendIfSome(data, d.tokenIdTo);
    data := AppendIfSome(data, d.uri);
    if d.amount.Some? {
      var amount := ComputeAmountBytes(d.amount.value);
      data := data + amount;
    }
    data := AppendIfSome(data, d.symbol);
    if d.decimals.Some? {
      data := data + [d.decimals.value];
    }
  }

  method HashContent(h: HashFunction, c: Content) returns (hash: Bytes32)
    ensures hash == h(Encode(c))
  {
    var data := GetOperation(c.data);
    data := data + c.origin;
    data := data + SOLANA;
    data := data + c.receiver;
    data := data + c.programId;
    hash := h(data);
  }

  /** Too long to be mistaken for the 64 bytes of an inner Merkle node. */
  lemma ContentIsLong(c: Content)
    ensures |Encode(c)| == |Operation(c.data)| + 102
  {
  }

  /** The fixed-width tail is parsed from the end, whatever the transfer kind. */
  lemma TailDecodes(c: Content, d: Content)
    requires Encode(c) == Encode(d)
    ensures c.origin == d.origin && c.receiver == d.receiver && c.programId == d.programId
    ensures Operation(c.data) == Operation(d.data)
  {
    ContentIsLong(c);
    ContentIsLong(d);
    var b, n := Encode(c), |Operation(c.data)|;
    assert b[..n] == Operation(c.data) && b[..n] == Operation(d.data);
    assert b[n..n + 32] == c.origin && b[n..n + 32] == d.origin;
    assert b[n + 38..n + 70] == c.receiver && b[n + 38..n + 70] == d.receiver;
    assert b[n + 70..] == c.programId && b[n + 70..] == d.programId;
  }

  // ---- The layouts, kind by kind ----

  // Every content ends with origin, network name, receiver and program id.
  predicate EndsWith(b: Bytes, origin: Bytes32, receiver: Bytes32, programId: Bytes32) {
    |b| >= 102
    && b[|b| - 102..|b| - 70] == origin
    && b[|b| - 70..|b| - 64] == SOLANA
    && b[|b| - 64..|b| - 32] == receiver
    && b[|b| - 32..] == programId
  }

  lemma TailLayout(c: Content)
    ensures EndsWith(Encode(c), c.origin, c.receiver, c.programId)
    ensures Encode(c)[..|Encode(c)| - 102] == Operation(c.data)
  {
    var b := Encode(c);
    assert b[|b| - 102..|b| - 70] == c.origin;
    assert b[|b| - 70..|b| - 64] == SOLANA;
    assert b[|b| - 64..|b| - 32] == c.receiver;
  }

  /** A fungible withdrawal: mint, name, uri, amount, symbol, decimals. */
  lemma FtLayout(mint: Bytes32, amount: u64, name: Bytes, symbol: Bytes, uri: Bytes, decimals: byte,
                 origin: Bytes32, receiver: Bytes32, programId: Bytes32)
    ensures var transfer := FtTransfer(mint, amount, name, symbol, uri, decimals);
            var b := Encode(Content(transfer, origin, receiver, programId));
            var n, u, s := |name|, |uri|, |symbol|;
            |b| == 65 + n + u + s + 102
            && b[..32] == mint
            && b[32..32 + n] == name
            && b[32 + n..32 + n + u] == uri
            && b[32 + n + u..64 + n + u] == Zeros(24) + BigEndian(amount, 8)
            && b[64 + n + u..64 + n + u + s] == symbol
            && b[64 + n + u + s] == decimals
            && EndsWith(b, origin, receiver, programId)
  {
    var c := Content(FtTransfer(mint, amount, name, symbol, uri, decimals), origin, receiver, programId);
    TailLayout(c);
    FtOperation(mint, amount, name, symbol, uri, decimals);
    var b, o := Encode(c), Operation(c.data);
    assert b[..|o|] == o;
    AmountBytesForm(amount);
  }

  lemma FtOperation(mint: Bytes32, amount: u64, name: Bytes, symbol: Bytes, uri: Bytes, decimals: byte)
    ensures Operation(FtTransfer(mint, amount, name, symbol, uri, decimals))
            == mint + name + uri + AmountBytes(amount) + symbol + [decimals]
  {
    assert mint + name + [] == mint + name;
  }

  /** A non-fungible withdrawal: the collection if there is one, name, mint, uri, symbol. */
  lemma NftLayout(mint: Bytes32, collection: Option<Bytes32>, name: Bytes, symbol: Bytes, uri: Bytes,
                  origin: Bytes32, receiver: Bytes32, programId: Bytes32)
    ensures var b := Encode(Content(NftTransfer(mint, collection, name, symbol, uri), origin, receiver, programId));
            var c, n, u, s := if collection.Some? then 32 else 0, |name|, |uri|, |symbol|;
            |b| == c + n + 32 + u + s + 102
            && (collection.Some? ==> b[..32] == collection.value)
            && b[c..c + n] == name
            && b[c + n..c + n + 32] == mint
            && b[c + n + 32..c + n + 32 + u] == uri
            && b[c + n + 32 + u..c + n + 32 + u + s] == symbol
            && EndsWith(b, origin, receiver, programId)
  {
    var content := Content(NftTransfer(mint, collection, name, symbol, uri), origin, receiver, programId);
    TailLayout(content);
    var b, o := Encode(content), Operation(content.data);
    var head := if collection.Some? then collection.value else [];
    assert o == head + name + mint + uri + symbol;
    assert b[..|o|] == o;
  }

  /** A native withdrawal: the amount alone. */
  lemma NativeLayout(amount: u64, origin: Bytes32, receiver: Bytes32, programId: Bytes32)
    ensures var b := Encode(Content(NativeTransfer(amount), origin, receiver, programId));
            |b| == 134 && b[..32] == Zeros(24) + BigEndian(amount, 8) && EndsWith(b, origin, receiver, programId)
  {
    var c := Content(NativeTransfer(amount), origin, receiver, programId);
    TailLayout(c);
    assert Operation(c.data) == AmountBytes(amount);
    AmountBytesForm(amount);
  }

  // What a mint's metadata account and mint account say; metadata is immutable, so a function of the mint.
  datatype Description = Description(name: Bytes, symbol: Bytes, uri: Bytes, decimals: byte)

  /** Equal fungible contents move the same amount of the same mint. */
  lemma FtContentDecodes(about: Bytes32 -> Description, mint: Bytes32, amount: u64, mint': Bytes32, amount': u64,
                         c: Content, d: Content)
    requires c.data == FtTransfer(mint, amount, about(mint).name, about(mint).symbol, about(mint).uri,
                                  about(mint).decimals)
    requires d.data == FtTransfer(mint', amount', about(mint').name, about(mint').symbol, about(mint').uri,
                                  about(mint').decimals)
    requires Encode(c) == Encode(d)
    ensures mint == mint' && amount == amount'
    ensures c == d
  {
    TailDecodes(c, d);
    var b := Operation(c.data);
    assert b[..32] == mint && b[..32] == mint';
    var at := 32 + |about(mint).name| + |about(mint).uri|;
    assert b[at..at + 32] == AmountBytes(amount) && b[at..at + 32] == AmountBytes(amount');
    AmountBytesInjective(amount, amount');
  }

  /** Equal contents of NFTs with a collection name the same token of the same collection:
      the name and symbol come from the collection, the uri from the token. */
  lemma NftContentDecodes(about: Bytes32 -> Description, mint: Bytes32, collection: Bytes32,
                          mint': Bytes32, collection': Bytes32, c: Content, d: Content)
    requires c.data == NftTransfer(mint, Some(collection), about(collection).name, about(collection).symbol,
                                   about(mint).uri)
    requires d.data == NftTransfer(mint', Some(collection'), about(collection').name, about(collection').symbol,
                                   about(mint').uri)
    requires Encode(c) == Encode(d)
    ensures mint == mint' && collection == collection'
    ensures c == d
  {
    TailDecodes(c, d);
    var b := Operation(c.data);
    assert b[..32] == collection && b[..32] == collection';
    var at := 32 + |about(collection).name|;
    assert b[at..at + 32] == mint && b[at..at + 32] == mint';
  }

  /** Equal native contents move the same amount. */
  lemma NativeContentDecodes(amount: u64, amount': u64, c: Content, d: Content)
    requires c.data == NativeTransfer(amount) && d.data == NativeTransfer(amount')
    requires Encode(c) == Encode(d)
    ensures amount == amount' && c == d
  {
    TailDecodes(c, d);
    assert Operation(c.data) == AmountBytes(amount) && Operation(d.data) == AmountBytes(amount');
    AmountBytesInjective(amount, amount');
  }
}
