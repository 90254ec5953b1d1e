/** What the signers of each accepted payout, list edit and fee withdrawal agreed to, field by field. */
module Terms {
  import opened Wrappers
  import opened ByteStrings
  import opened BridgeContent
  import opened FeeList
  import opened Chain
  import opened Ledger
  import opened Gauges
  import opened Programs
  import opened Steps
  import opened Trimming
  import Bridge
  import BridgeOutcomes
  import Commission
  import CommissionOutcomes
  import D = Driver
  import Journal
  import Signed = CommissionContent
  import TokenOutcomes

  // ---- Payouts ----

  // The record that a withdrawal leaves at the address of its origin.
  predicate Leaves(env: Env, s: Step, w: Withdraw) {
    Journal.IsWithdrawal(s.item) && |w.origin| == 32
    && DataAt(s.post, Found(env, env.bridge, [Raw(w.origin)])) == WithdrawData(w)
    && s.item.ix.bridge.origin == w.origin
  }

  lemma WithdrawalLeaves(env: Env, s: Step) returns (w: Withdraw)
    requires Valid(env, s) && Journal.IsWithdrawal(s.item)
    ensures Leaves(env, s, w) && w == Journal.RecordOf(s.item)
  {
    w := Journal.RecordOf(s.item);
    Journal.WithdrawalNamesItsRecord(env, s);
    Journal.StepJournal(env, s, Journal.RecordKeyOf(s.item), w);
  }

  /** A native payout: what the record says was paid, and to whom, is what the key stored at the time had signed. */
  lemma NativeTerms(env: Env, s: Step) returns (w: Withdraw)
    requires Valid(env, s) && s.item.ix.BridgeIx? && s.item.ix.bridge.WithdrawNative?
    ensures Leaves(env, s, w) && w.mint == None && DataAt(s.pre, s.item.ix.bridge.admin).BridgeData?
    ensures var content := Content(NativeTransfer(w.amount), w.origin, env.bytes(w.receiver), env.bytes(env.bridge));
            var key := DataAt(s.pre, s.item.ix.bridge.admin).bridge.publicKey;
            ProofError(env, Encode(content), s.item.ix.bridge.proof, key) == None
  {
    w := WithdrawalLeaves(env, s);
    BridgeOutcomes.WithdrawNativeOutcome(env, s.pre, s.item.signers, s.item.prior, s.item.ix.bridge);
  }

  // The ledger in which the content of a token withdrawal was read: the mint exists in it.
  lemma LedgerRead(env: Env, s: Step) returns (m: Accounts)
    requires Valid(env, s) && s.item.ix.BridgeIx? && s.item.ix.bridge.WithdrawToken?
    ensures var ix := s.item.ix.bridge;
            DataAt(s.pre, ix.admin).BridgeData? && ix.metadata == MetadataKey(env, ix.mint)
            && TokenOutcomes.Authorising(env, m, s.item.signers, ix, DataAt(s.pre, ix.admin).bridge.publicKey)
               == Success(s.post)
            && AllEvolve(m, s.post)
  {
    var ix, auth := s.item.ix.bridge, AuthOf(env, s.item);
    var p := Bridge.PartsOf(env, s.pre, ix);
    var ops := Bridge.WithdrawTokenScript(env, ix, p);
    TokenOutcomes.WithdrawTokenOutcome(env, s.pre, s.item.signers, s.item.prior, ix);
    TokenOutcomes.EarlyAgrees(env, s.pre, ix);
    PlayCheck(env, auth, s.pre, ops, 0);
    if p.creates {
      m := TokenOutcomes.Minting(env, s.pre, s.item.signers, ix, p.meta).value;
      TokenOutcomes.MintingPlays(env, auth, s.pre, ix, p);
      PlayEvolves(env, auth, m, ops, 4);
    } else {
      m := s.pre;
      PlayEvolves(env, auth, m, ops, 0);
    }
  }

  /** A fungible payout: the amount and receiver on the record, of the mint as its metadata and decimals now describe
      it, zero bytes at the ends aside, is what the key stored at the time had signed. */
  lemma FungibleTerms(env: Env, s: Step) returns (w: Withdraw, name: Bytes, symbol: Bytes, uri: Bytes)
    requires Valid(env, s) && s.item.ix.BridgeIx? && s.item.ix.bridge.WithdrawToken? && !s.item.ix.bridge.nonFungible
    ensures Leaves(env, s, w) && w.mint.Some? && DataAt(s.pre, s.item.ix.bridge.admin).BridgeData?
    ensures DataAt(s.post, w.mint.value).MintData? && DataAt(s.post, MetadataKey(env, w.mint.value)).MetadataData?
    ensures var stored := DataAt(s.post, MetadataKey(env, w.mint.value)).metadata;
            Trimmed(stored.name, name) && Trimmed(stored.symbol, symbol) && Trimmed(stored.uri, uri)
    ensures var decimals := DataAt(s.post, w.mint.value).decimals;
            var transfer := FtTransfer(env.bytes(w.mint.value), w.amount, name, symbol, uri, decimals);
            var content := Content(transfer, w.origin, env.bytes(w.receiver), env.bytes(env.bridge));
            var key := DataAt(s.pre, s.item.ix.bridge.admin).bridge.publicKey;
            ProofError(env, Encode(content), s.item.ix.bridge.proof, key) == None
  {
    w := WithdrawalLeaves(env, s);
    var ix := s.item.ix.bridge;
    var m := LedgerRead(env, s);
    assert Evolves(DataAt(m, ix.mint), DataAt(s.post, ix.mint));
    assert Evolves(DataAt(m, ix.metadata), DataAt(s.post, ix.metadata));
    var stored := DataAt(m, ix.metadata).metadata;
    name, symbol, uri := Bare(stored.name), Bare(stored.symbol), Bare(stored.uri);
  }

  /** A non-fungible payout: the token on the record, by its collection's name and symbol if it has a collection, else
      by its own, and the receiver on the record are what the key stored at the time had signed. */
  lemma NftTerms(env: Env, s: Step) returns (w: Withdraw, name: Bytes, symbol: Bytes, uri: Bytes)
    requires Valid(env, s) && s.item.ix.BridgeIx? && s.item.ix.bridge.WithdrawToken? && s.item.ix.bridge.nonFungible
    ensures Leaves(env, s, w) && w.mint.Some? && w.amount == 1 && DataAt(s.pre, s.item.ix.bridge.admin).BridgeData?
    ensures DataAt(s.post, MetadataKey(env, w.mint.value)).MetadataData?
    ensures var own := DataAt(s.post, MetadataKey(env, w.mint.value)).metadata;
            Trimmed(own.uri, uri)
            && match own.collection
               case None => Trimmed(own.name, name) && Trimmed(own.symbol, symbol)
               case Some(collection) =>
                 var whole := DataAt(s.post, MetadataKey(env, collection));
                 whole.MetadataData? && Trimmed(whole.metadata.name, name) && Trimmed(whole.metadata.symbol, symbol)
    ensures var own := DataAt(s.post, MetadataKey(env, w.mint.value)).metadata;
            var collection := if own.collection.Some? then Some(env.bytes(own.collection.value)) else None;
            var transfer := NftTransfer(env.bytes(w.mint.value), collection, name, symbol, uri);
            var content := Content(transfer, w.origin, env.bytes(w.receiver), env.bytes(env.bridge));
            var key := DataAt(s.pre, s.item.ix.bridge.admin).bridge.publicKey;
            ProofError(env, Encode(content), s.item.ix.bridge.proof, key) == None
  {
    w := WithdrawalLeaves(env, s);
    var ix := s.item.ix.bridge;
    var m := LedgerRead(env, s);
    assert Evolves(DataAt(m, ix.metadata), DataAt(s.post, ix.metadata));
    var own := DataAt(m, ix.metadata).metadata;
    var named := own;
    if own.collection.Some? {
      assert Evolves(DataAt(m, ix.collectionMetadata.value), DataAt(s.post, ix.collectionMetadata.value));
      named := DataAt(m, ix.collectionMetadata.value).metadata;
    }
    name, symbol, uri := Bare(named.name), Bare(named.symbol), Bare(own.uri);
  }

  // ---- Fee lists and fees ----

  // An accepted operation on a fee admin: what was stored in it, and the bridge admin whose key has signed.
  predicate Accepts(env: Env, s: Step, admin: Address, bridgeAdmin: Address) {
    Valid(env, s) && s.item.ix.CommissionIx? && DataAt(s.pre, admin).CommissionData?
    && DataAt(s.pre, bridgeAdmin).BridgeData?
  }

  /** A fee withdrawal: the receiver, token and amount named in it are what the bridge admin's key had signed, under the
      nonce for withdrawals, which moves on; the list stays. */
  lemma FeeWithdrawalTerms(env: Env, s: Step)
    requires Valid(env, s) && s.item.ix.CommissionIx? && s.item.ix.commission.Withdraw?
    ensures Accepts(env, s, s.item.ix.commission.admin, s.item.ix.commission.bridgeAdmin)
    ensures var ix := s.item.ix.commission; var a := DataAt(s.pre, ix.admin).commission;
            var token := match ix.entry.token
                         case Native => Native
                         case FT(mint) => FT(env.bytes(mint))
                         case NFT(mint) => NFT(env.bytes(mint));
            var content := Signed.Content(a.withdrawTokenNonce, Some(env.bytes(ix.receiver)), env.bytes(env.commission),
                                          Signed.WithdrawToken, token, ix.entry.amount);
            var key := DataAt(s.pre, ix.bridgeAdmin).bridge.publicKey;
            ProofError(env, Signed.Encode(content), ix.proof, key) == None
            && DataAt(s.post, ix.admin) == CommissionData(a.(withdrawTokenNonce := D.Successor(a.withdrawTokenNonce)))
  {
    CommissionOutcomes.WithdrawFeesOutcome(env, s.pre, s.item.signers, s.item.prior, s.item.ix.commission);
  }

  predicate Edits(item: Item, edit: Commission.Edit) {
    item.ix.CommissionIx? && item.ix.commission.EditToken? && item.ix.commission.edit == edit
  }

  lemma EditAccepted(env: Env, s: Step)
    requires Valid(env, s) && s.item.ix.CommissionIx? && s.item.ix.commission.EditToken?
    ensures var ix := s.item.ix.commission;
            Accepts(env, s, ix.admin, ix.bridgeAdmin)
            && var a, key := DataAt(s.pre, ix.admin).commission, DataAt(s.pre, ix.bridgeAdmin).bridge.publicKey;
               var content := CommissionOutcomes.EditContent(env, a, ix.edit, ix.entry);
               ProofError(env, Signed.Encode(content), ix.proof, key) == None
               && CommissionOutcomes.WrittenBack(env, s.pre, ix.admin,
                                                 CommissionOutcomes.AfterEdit(a, ix.edit, ix.entry)) == Success(s.post)
  {
    var ix := s.item.ix.commission;
    CommissionOutcomes.EditTokenOutcome(env, s.pre, s.item.signers, s.item.prior, ix.edit, ix.admin, ix.bridgeAdmin,
                                        ix.proof, ix.entry);
  }

  /** Adding: signed under the nonce for additions, for this token and price, which go to the end of the list. */
  lemma AdditionTerms(env: Env, s: Step)
    requires Valid(env, s) && Edits(s.item, Commission.Add)
    ensures Accepts(env, s, s.item.ix.commission.admin, s.item.ix.commission.bridgeAdmin)
    ensures var ix := s.item.ix.commission; var a := DataAt(s.pre, ix.admin).commission;
            var token := match ix.entry.token
                         case Native => Native
                         case FT(mint) => FT(env.bytes(mint))
                         case NFT(mint) => NFT(env.bytes(mint));
            var content := Signed.Content(a.addTokenNonce, None, env.bytes(env.commission), Signed.AddToken, token,
                                          ix.entry.amount);
            var key := DataAt(s.pre, ix.bridgeAdmin).bridge.publicKey;
            ProofError(env, Signed.Encode(content), ix.proof, key) == None
            && DataAt(s.post, ix.admin) == CommissionData(a.(addTokenNonce := D.Successor(a.addTokenNonce),
                                                             acceptableTokens := a.acceptableTokens + [ix.entry]))
  {
    EditAccepted(env, s);
  }

  /** Removing: signed under the nonce for removals, for this token and price; the first equal entry goes, if any. */
  lemma RemovalTerms(env: Env, s: Step) returns (i: nat)
    requires Valid(env, s) && Edits(s.item, Commission.Remove)
    ensures Accepts(env, s, s.item.ix.commission.admin, s.item.ix.commission.bridgeAdmin)
    ensures var ix := s.item.ix.commission; var a := DataAt(s.pre, ix.admin).commission;
            var token := match ix.entry.token
                         case Native => Native
                         case FT(mint) => FT(env.bytes(mint))
                         case NFT(mint) => NFT(env.bytes(mint));
            var content := Signed.Content(a.removeTokenNonce, None, env.bytes(env.commission), Signed.RemoveToken,
                                          token, ix.entry.amount);
            var key := DataAt(s.pre, ix.bridgeAdmin).bridge.publicKey;
            ProofError(env, Signed.Encode(content), ix.proof, key) == None
    ensures var ix := s.item.ix.commission; var a := DataAt(s.pre, ix.admin).commission;
            var list := a.acceptableTokens;
            i <= |list| && (forall j :: 0 <= j < i ==> list[j] != ix.entry) && (i < |list| ==> list[i] == ix.entry)
            && DataAt(s.post, ix.admin)
               == CommissionData(a.(removeTokenNonce := D.Successor(a.removeTokenNonce),
                                    acceptableTokens := if i < |list| then list[..i] + list[i + 1..] else list))
  {
    EditAccepted(env, s);
    i := RemovesFirstEqual(DataAt(s.pre, s.item.ix.commission.admin).commission.acceptableTokens,
                           s.item.ix.commission.entry);
  }

  /** Updating: signed under the nonce for updates, for this token and price; the token's first entry gets the price. */
  lemma UpdateTerms(env: Env, s: Step) returns (i: nat)
    requires Valid(env, s) && Edits(s.item, Commission.Update)
    ensures Accepts(env, s, s.item.ix.commission.admin, s.item.ix.commission.bridgeAdmin)
    ensures var ix := s.item.ix.commission; var a := DataAt(s.pre, ix.admin).commission;
            var token := match ix.entry.token
                         case Native => Native
                         case FT(mint) => FT(env.bytes(mint))
                         case NFT(mint) => NFT(env.bytes(mint));
            var content := Signed.Content(a.updateTokenNonce, None, env.bytes(env.commission), Signed.UpdateToken,
                                          token, ix.entry.amount);
            var key := DataAt(s.pre, ix.bridgeAdmin).bridge.publicKey;
            ProofError(env, Signed.Encode(content), ix.proof, key) == None
    ensures var ix := s.item.ix.commission; var a := DataAt(s.pre, ix.admin).commission;
            var list := a.acceptableTokens;
            i <= |list| && (forall j :: 0 <= j < i ==> list[j].token != ix.entry.token)
            && (i < |list| ==> list[i].token == ix.entry.token)
            && DataAt(s.post, ix.admin)
               == CommissionData(a.(updateTokenNonce := D.Successor(a.updateTokenNonce),
                                    acceptableTokens := if i < |list| then list[i := ix.entry] else list))
  {
    EditAccepted(env, s);
    i := RepricesFirst(DataAt(s.pre, s.item.ix.commission.admin).commission.acceptableTokens,
                       s.item.ix.commission.entry);
  }
}
