/** The commission admins of the ledger, as the bytes of their accounts. */
module Storage {
  import opened Wrappers
  import opened ByteStrings
  import opened FeeList
  import opened Chain
  import opened Ledger
  import opened Programs
  import opened Steps
  import Borsh
  import Commission
  import Nonces

  function WireEntries(env: Env, list: seq<FeeEntry<Address>>): (wire: seq<FeeEntry<Bytes32>>)
    ensures |wire| == |list| && Borsh.EntriesSize(wire) == Borsh.EntriesSize(list)
  {
    if list == [] then []
    else [FeeEntry(Commission.OnWire(env, list[0].token), list[0].amount)] + WireEntries(env, list[1..])
  }

  function OnWire(env: Env, a: FeeAdmin): Borsh.Wire {
    Borsh.CommissionAdmin(WireEntries(env, a.acceptableTokens), a.addTokenNonce, a.updateTokenNonce, a.removeTokenNonce,
                          a.withdrawTokenNonce, a.isInitialized)
  }

  // What writing the admin leaves in a buffer that held `before`.
  function Overwritten(env: Env, a: FeeAdmin, before: Bytes): Bytes
    requires Borsh.AdminSize(a) <= |before|
  {
    Borsh.Encode(OnWire(env, a)) + before[Borsh.AdminSize(a)..]
  }

  /** In every reachable state every commission admin fits its account, and reading the account back gives that
      admin and no other, whatever older and possibly longer list its bytes held before. */
  lemma ReachableAdminsReadBack(env: Env, l: Accounts, steps: seq<Step>, l': Accounts, key: Address, before: Bytes)
    requires Run(env, l, steps, l') && Nonces.AdminsFit(env, l) && Ours(env, key) && Nonces.Live(l', key)
    requires |before| == Borsh.MaxAdminSize(env.tokenSize) < Pow256(4)
    ensures var a := DataAt(l', key).commission;
            Borsh.AdminSize(a) <= |before|
            && |Overwritten(env, a, before)| == |before|
            && Borsh.Decode(Overwritten(env, a, before)) == Some((OnWire(env, a), before[Borsh.AdminSize(a)..]))
  {
    Nonces.AdminsAlwaysFit(env, l, steps, l');
    assert Nonces.FitsAt(env, l', key);
    var a := DataAt(l', key).commission;
    Borsh.EntriesSizeBound(a.acceptableTokens);
    Borsh.AdminRoundTrip(OnWire(env, a), before[Borsh.AdminSize(a)..]);
  }
}
