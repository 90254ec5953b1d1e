/** Commission content names the program but not the admin: when one signature serves two admins. */
module TwinAdmins {
  import opened Wrappers
  import opened ByteStrings
  import opened FeeList
  import opened Borsh
  import opened Chain
  import opened Ledger
  import opened Programs
  import opened Steps
  import opened Nonces
  import D = Driver
  import Commission
  import Signed = CommissionContent

  // The bytes an operation needs signed, given the ledger.
  function BytesFor(env: Env, l: Accounts, ix: Commission.Instruction): Bytes
    requires ix.EditToken? || ix.Withdraw?
  {
    var a := ReadCommission(l, ix.admin);
    if a.None? then [] else Signed.Encode(Commission.ContentOf(env, a.value, ix))
  }

  // The same operation and proof, brought to another admin.
  function At(ix: Commission.Instruction, admin: Address, bridgeAdmin: Address): (other: Commission.Instruction)
    requires ix.EditToken? || ix.Withdraw?
    ensures (other.EditToken? <==> ix.EditToken?) && (other.Withdraw? <==> ix.Withdraw?)
    ensures other.admin == admin && other.bridgeAdmin == bridgeAdmin
    ensures other.proof == ix.proof && other.entry == ix.entry
    ensures if ix.EditToken? then other.edit == ix.edit else other.receiver == ix.receiver
  {
    match ix
    case EditToken(edit, _, _, proof, entry) => Commission.EditToken(edit, admin, bridgeAdmin, proof, entry)
    case Withdraw(_, _, receiver, token, vault, mint, proof, entry, amount) =>
      Commission.Withdraw(admin, bridgeAdmin, receiver, token, vault, mint, proof, entry, amount)
  }

  // What of the other admin's state decides whether it accepts the same content and proof.
  predicate Twin(env: Env, l: Accounts, ix: Commission.Instruction, l': Accounts, admin: Address, bridgeAdmin: Address)
    requires ix.EditToken? || ix.Withdraw?
  {
    var a, b, a', b' := ReadCommission(l, ix.admin), ReadBridge(l, ix.bridgeAdmin),
                        ReadCommission(l', admin), ReadBridge(l', bridgeAdmin);
    a.Some? && b.Some? && a'.Some? && b'.Some?
    && admin == CommissionKey(env.commission, bridgeAdmin)
    && a'.value.isInitialized && b'.value.isInitialized
    && b'.value.publicKey == b.value.publicKey
    && var op := Commission.SignedOperation(ix); Commission.NonceOf(a'.value, op) == Commission.NonceOf(a.value, op)
  }

  lemma SameBytesIffSameNonce(env: Env, a: FeeAdmin, a': FeeAdmin, ix: Commission.Instruction,
                              ix': Commission.Instruction)
    requires (ix.EditToken? || ix.Withdraw?) && ix' == At(ix, ix'.admin, ix'.bridgeAdmin)
    ensures Signed.Encode(Commission.ContentOf(env, a, ix)) == Signed.Encode(Commission.ContentOf(env, a', ix'))
            <==> (var op := Commission.SignedOperation(ix); Commission.NonceOf(a, op) == Commission.NonceOf(a', op))
  {
    var c, d := Commission.ContentOf(env, a, ix), Commission.ContentOf(env, a', ix');
    Signed.Fields(c);
    Signed.Fields(d);
    if Signed.Encode(c) == Signed.Encode(d) {
      AmountBytesInjective(c.nonce, d.nonce);
    }
  }

  /** Content and proof accepted at one admin pass at another exactly when the other is initialised under a bridge
      admin with the same stored key, and its nonce of that kind is the same: the content names only the program. */
  lemma ContentPassesElsewhereIff(env: Env, l: Accounts, ix: Commission.Instruction, l': Accounts, admin: Address,
                                  bridgeAdmin: Address)
    requires (ix.EditToken? || ix.Withdraw?) && Commission.SignedError(env, l, ix) == None
    ensures var ix' := At(ix, admin, bridgeAdmin);
            (Commission.SignedError(env, l', ix') == None && BytesFor(env, l', ix') == BytesFor(env, l, ix))
            <==> Twin(env, l, ix, l', admin, bridgeAdmin)
  {
    var ix' := At(ix, admin, bridgeAdmin);
    var a, a' := ReadCommission(l, ix.admin), ReadCommission(l', admin);
    Signed.ContentIsLong(Commission.ContentOf(env, a.value, ix));
    if a'.Some? {
      SameBytesIffSameNonce(env, a.value, a'.value, ix, ix');
    }
  }

  // Two commission admins, of two bridge admins with one key, both new.
  function FirstBridge(env: Env): Address {
    BridgeKey(env, Zeros(32))
  }

  function SecondBridge(env: Env): Address {
    BridgeKey(env, seq(32, _ => 1))
  }

  function TwinLedger(env: Env, key: Bytes): Accounts {
    var bridge := Account(env.rent(BRIDGE_ADMIN_SIZE), env.bridge, BridgeData(BridgeAdmin(key, env.commission, true)));
    var fees := Account(env.rent(0), env.commission, CommissionData(Commission.InitialAdmin([])));
    map[FirstBridge(env) := bridge, SecondBridge(env) := bridge,
        CommissionKey(env.commission, FirstBridge(env)) := fees,
        CommissionKey(env.commission, SecondBridge(env)) := fees]
  }

  function AddAt(env: Env, bridge: Address, proof: Proof, entry: FeeEntry<Address>): Commission.Instruction {
    Commission.EditToken(Commission.Add, CommissionKey(env.commission, bridge), bridge, proof, entry)
  }

  lemma TwinsAreDistinct(env: Env)
    ensures var a, b := FirstBridge(env), SecondBridge(env);
            a != b && CommissionKey(env.commission, a) != CommissionKey(env.commission, b)
            && CommissionKey(env.commission, a) != b && CommissionKey(env.commission, b) != a
            && CommissionKey(env.commission, a) != a && CommissionKey(env.commission, b) != b
  {
    var a, b := FirstBridge(env), SecondBridge(env);
    assert Zeros(32)[0] == 0;
    assert a.seeds[0].bytes[0] != b.seeds[0].bytes[0];
    if CommissionKey(env.commission, a) == CommissionKey(env.commission, b) {
      CommissionKeyInjective(env.commission, a, env.commission, b);
    }
    assert |a.seeds| == 1 && |b.seeds| == 1;
    assert |CommissionKey(env.commission, a).seeds| == 2 && |CommissionKey(env.commission, b).seeds| == 2;
  }

  // Adding one token to a new admin, once the signature stands.
  lemma AddTakesEffect(env: Env, l: Accounts, bridge: Address, proof: Proof, entry: FeeEntry<Address>)
    requires Commission.SignedError(env, l, AddAt(env, bridge, proof, entry)) == None
    requires var admin := CommissionKey(env.commission, bridge);
             DataAt(l, admin) == CommissionData(Commission.InitialAdmin([])) && Get(l, admin).owner == env.commission
    ensures var ix := AddAt(env, bridge, proof, entry);
            Exec(env, l, Item({}, None, CommissionIx(ix)))
            == Success(WithData(l, ix.admin, CommissionData(Commission.After(Commission.InitialAdmin([]), ix))))
  {
    var ix, item := AddAt(env, bridge, proof, entry), Item({}, None, CommissionIx(AddAt(env, bridge, proof, entry)));
    var next := Commission.After(Commission.InitialAdmin([]), ix);
    assert next.acceptableTokens == [entry];
    EntriesSizeBound([entry]);
    var ops := Commission.EditScript(env, ix, Success(next));
    assert Play(env, AuthOf(env, item), l, ops, 1) == Success(WithData(l, ix.admin, CommissionData(next)));
    assert Play(env, AuthOf(env, item), l, ops, 0) == Play(env, AuthOf(env, item), l, ops, 1);
  }

  // The edit at the first admin leaves the second as it was, and passes there.
  lemma SecondAdminAccepts(env: Env, key: Bytes, proof: Proof, entry: FeeEntry<Address>, l1: Accounts)
    requires var ix := AddAt(env, FirstBridge(env), proof, entry);
             Commission.SignedError(env, TwinLedger(env, key), ix) == None
             && l1 == WithData(TwinLedger(env, key), ix.admin,
                               CommissionData(Commission.After(Commission.InitialAdmin([]), ix)))
    ensures var l, ix1 := TwinLedger(env, key), AddAt(env, FirstBridge(env), proof, entry);
            var ix2 := AddAt(env, SecondBridge(env), proof, entry);
            Commission.SignedError(env, l1, ix2) == None && BytesFor(env, l1, ix2) == BytesFor(env, l, ix1)
            && DataAt(l1, ix2.admin) == CommissionData(Commission.InitialAdmin([]))
            && Get(l1, ix2.admin).owner == env.commission
  {
    var l, ix1 := TwinLedger(env, key), AddAt(env, FirstBridge(env), proof, entry);
    var ix2 := AddAt(env, SecondBridge(env), proof, entry);
    TwinsAreDistinct(env);
    assert ix2 == At(ix1, ix2.admin, ix2.bridgeAdmin);
    ContentPassesElsewhereIff(env, l, ix1, l1, ix2.admin, ix2.bridgeAdmin);
  }

  /** The witness: one signed edit takes effect twice, at two admins of one key, in a run of two steps. */
  lemma OneContentTwoAdmins(env: Env, key: Bytes, proof: Proof, entry: FeeEntry<Address>)
    returns (steps: seq<Step>, l': Accounts)
    requires var ix := AddAt(env, FirstBridge(env), proof, entry);
             var content := Signed.Encode(Commission.ContentOf(env, Commission.InitialAdmin([]), ix));
             ProofError(env, content, proof, key) == None
    ensures Run(env, TwinLedger(env, key), steps, l') && |steps| == 2
    ensures steps[0].item == Item({}, None, CommissionIx(AddAt(env, FirstBridge(env), proof, entry)))
    ensures steps[1].item == Item({}, None, CommissionIx(AddAt(env, SecondBridge(env), proof, entry)))
    ensures steps[0].item != steps[1].item && SignedBytes(env, steps[0]) == SignedBytes(env, steps[1])
  {
    var l, ix1 := TwinLedger(env, key), AddAt(env, FirstBridge(env), proof, entry);
    var ix2 := AddAt(env, SecondBridge(env), proof, entry);
    TwinsAreDistinct(env);
    var i1, i2 := Item({}, None, CommissionIx(ix1)), Item({}, None, CommissionIx(ix2));
    AddTakesEffect(env, l, FirstBridge(env), proof, entry);
    var l1 := Exec(env, l, i1).value;
    SecondAdminAccepts(env, key, proof, entry, l1);
    AddTakesEffect(env, l1, SecondBridge(env), proof, entry);
    l' := Exec(env, l1, i2).value;
    TwoStepRun(env, l, i1, l1, i2, l');
    steps := [D.Step(i1, l, l1), D.Step(i2, l1, l')];
  }
}
