/** The commission handlers, step by step as commission/program/src/processor.rs runs them, each proved to do to
    the ledger exactly what its script says. */
module CommissionProcessor {
  import opened Wrappers
  import opened ByteStrings
  import opened FeeList
  import opened Borsh
  import opened Chain
  import opened Ledger
  import opened Worlds
  import opened Commission
  import Signed = CommissionContent

  method LoadAdmin(w: World, ix: Instruction) returns (r: Outcome<FeeAdmin>)
    ensures match Commission.AdminError(w.env, w.accounts, ix)
            case Some(e) => r == Failure(e)
            case None =>
              ReadCommission(w.accounts, ix.admin).Some? && r == Success(ReadCommission(w.accounts, ix.admin).value)
  {
    if CommissionKey(w.env.commission, ix.bridgeAdmin) != ix.admin {
      return Failure(WrongAdmin);
    }
    var read := ReadCommission(w.accounts, ix.admin);
    if read.None? {
      return Failure(Runtime);
    }
    if !read.value.isInitialized {
      return Failure(NotInitialized);
    }
    return Success(read.value);
  }

  // `serialize` fails when the admin has outgrown its account. `ops` ends with the size check and the store.
  method WriteAdmin(w: World, auth: Auth, key: Address, admin: FeeAdmin, ghost ops: seq<Op>) returns (status: Status)
    requires |ops| >= 2 && ops[|ops| - 2] == Check(SizeError(w.env, admin))
             && ops[|ops| - 1] == Store(key, CommissionData(admin))
    modifies w
    ensures RefinesPart(w.env, auth, ops, old(w.accounts), |ops| - 2, status, w.accounts, |ops|)
  {
    if AdminSize(admin) > MaxAdminSize(w.env.tokenSize) {
      return Err(Runtime);
    }
    PlayLast(w.env, auth, w.accounts, ops);
    status := w.Serialize(auth, key, CommissionData(admin));
  }

  /** `process_init_admin`. */
  method ProcessInitAdmin(w: World, auth: Auth, ix: Instruction) returns (status: Status)
    requires ix.InitializeAdmin? && auth.program == w.env.commission
    modifies w
    ensures Refines(Play(w.env, auth, old(w.accounts), InitializeAdminScript(w.env, ix), 0), status, w.accounts)
  {
    ghost var ops, l0 := InitializeAdminScript(w.env, ix), w.accounts;
    if CommissionKey(w.env.commission, ix.bridgeAdmin) != ix.admin {
      return Err(WrongAdmin);
    }
    assert Play(w.env, auth, l0, ops, 0) == Play(w.env, auth, l0, ops, 1);
    :- w.CreateAccount(auth, ix.payer, ix.admin, MaxAdminSize(w.env.tokenSize), w.env.commission,
                       AdminSeeds(ix.bridgeAdmin));
    assert Play(w.env, auth, l0, ops, 1) == Play(w.env, auth, w.accounts, ops, 2);
    var admin := ReadCommission(w.accounts, ix.admin).value;
    if admin.isInitialized {
      return Err(AlreadyInUse);
    }
    var tokens := CopyTokens(ix.tokens);
    admin := admin.(acceptableTokens := tokens, isInitialized := true);
    status := WriteAdmin(w, auth, ix.admin, admin, ops);
  }

  method CopyTokens<K>(tokens: seq<FeeEntry<K>>) returns (pushed: seq<FeeEntry<K>>)
    ensures pushed == tokens
  {
    pushed := [];
    for i := 0 to |tokens|
      invariant pushed == tokens[..i]
    {
      pushed := pushed + [tokens[i]];
    }
  }

  /** `process_charge_commission`. */
  method ProcessChargeCommission(w: World, auth: Auth, ix: Instruction) returns (status: Status)
    requires ix.ChargeCommission? && auth.program == w.env.commission
    modifies w
    ensures Refines(Play(w.env, auth, old(w.accounts), ChargeScript(w.env, ix, Price(w.env, old(w.accounts), ix)), 0),
                    status, w.accounts)
  {
    var loaded := LoadAdmin(w, ix);
    if loaded.Failure? {
      return Err(loaded.error);
    }
    var found := CheckTokenIsAcceptable(loaded.value.acceptableTokens, ix.token);
    if found.None? {
      return Err(NotAcceptable);
    }
    status := CollectFee(w, auth, ix, found.value);
  }

  method CollectFee(w: World, auth: Auth, ix: Instruction, fee: FeeEntry<Address>) returns (status: Status)
    requires ix.ChargeCommission? && auth.program == w.env.commission && fee.token == ix.token
    modifies w
    ensures Refines(Play(w.env, auth, old(w.accounts), ChargeScript(w.env, ix, Success(fee.amount)), 0), status,
                    w.accounts)
  {
    ghost var ops, l0 := ChargeScript(w.env, ix, Success(fee.amount)), w.accounts;
    match fee.token {
      case Native =>
        status := w.TransferLamports(auth, ix.owner, ix.admin, fee.amount, AdminSeeds(ix.bridgeAdmin));
      case FT(mint) =>
        if ix.vault != AssociatedKey(w.env, ix.admin, mint) {
          return Err(WrongTokenAccount);
        }
        assert Play(w.env, auth, l0, ops, 0) == Play(w.env, auth, l0, ops, 1);
        :- w.EnsureAssociatedAccount(auth, ix.owner, ix.admin, ix.mintAccount, ix.vault);
        assert Play(w.env, auth, l0, ops, 1) == Play(w.env, auth, w.accounts, ops, 2);
        status := w.TransferTokens(auth, ix.ownerToken, ix.vault, ix.owner, fee.amount, AdminSeeds(ix.bridgeAdmin));
      case NFT(_) =>
        return Err(NotSupported);
    }
  }

  // The two accounts every signed operation reads: the fee list and whose key signs for it.
  datatype Admins = Admins(commission: FeeAdmin, bridge: BridgeAdmin)

  method LoadAdmins(w: World, ix: Instruction) returns (r: Outcome<Admins>)
    requires ix.EditToken? || ix.Withdraw?
    ensures match r
            case Failure(e) => SignedError(w.env, w.accounts, ix) == Some(e)
            case Success(a) =>
              ReadCommission(w.accounts, ix.admin) == Some(a.commission)
              && SignedError(w.env, w.accounts, ix)
                 == ProofError(w.env, Signed.Encode(ContentOf(w.env, a.commission, ix)), ix.proof, a.bridge.publicKey)
  {
    var loaded := LoadAdmin(w, ix);
    if loaded.Failure? {
      return Failure(loaded.error);
    }
    var read := ReadBridge(w.accounts, ix.bridgeAdmin);
    if read.None? {
      return Failure(Runtime);
    }
    if !read.value.isInitialized {
      return Failure(NotInitialized);
    }
    return Success(Admins(loaded.value, read.value));
  }

  method VerifyContent(env: Env, content: Signed.Content, proof: Proof, key: Bytes) returns (status: Status)
    ensures status == StatusOf(ProofError(env, Signed.Encode(content), proof, key))
  {
    var hash := Signed.HashContent(env.keccak, content);
    status := VerifyProof(env, hash, proof, key);
  }

  /** `process_add_token`. */
  method ProcessAddToken(w: World, auth: Auth, ix: Instruction) returns (status: Status)
    requires ix.EditToken? && ix.edit == Add && auth.program == w.env.commission
    modifies w
    ensures Refines(Play(w.env, auth, old(w.accounts), EditScript(w.env, ix, Next(w.env, old(w.accounts), ix)), 0),
                    status, w.accounts)
  {
    var loaded := LoadAdmins(w, ix);
    if loaded.Failure? {
      return Err(loaded.error);
    }
    var admin := loaded.value.commission;
    var content := Signed.Content(admin.addTokenNonce, None, w.env.bytes(w.env.commission), Signed.AddToken,
                                  OnWire(w.env, ix.entry.token), ix.entry.amount);
    :- VerifyContent(w.env, content, ix.proof, loaded.value.bridge.publicKey);
    admin := admin.(addTokenNonce := WrapAdd(admin.addTokenNonce, 1));
    admin := admin.(acceptableTokens := admin.acceptableTokens + [ix.entry]);
    status := WriteAdmin(w, auth, ix.admin, admin, EditScript(w.env, ix, Success(admin)));
  }

  /** `process_remove_token`. */
  method ProcessRemoveToken(w: World, auth: Auth, ix: Instruction) returns (status: Status)
    requires ix.EditToken? && ix.edit == Remove && auth.program == w.env.commission
    modifies w
    ensures Refines(Play(w.env, auth, old(w.accounts), EditScript(w.env, ix, Next(w.env, old(w.accounts), ix)), 0),
                    status, w.accounts)
  {
    var loaded := LoadAdmins(w, ix);
    if loaded.Failure? {
      return Err(loaded.error);
    }
    var admin := loaded.value.commission;
    var content := Signed.Content(admin.removeTokenNonce, None, w.env.bytes(w.env.commission), Signed.RemoveToken,
                                  OnWire(w.env, ix.entry.token), ix.entry.amount);
    :- VerifyContent(w.env, content, ix.proof, loaded.value.bridge.publicKey);
    var tokens := RemoveToken(admin.acceptableTokens, ix.entry);
    admin := admin.(acceptableTokens := tokens);
    admin := admin.(removeTokenNonce := WrapAdd(admin.removeTokenNonce, 1));
    status := WriteAdmin(w, auth, ix.admin, admin, EditScript(w.env, ix, Success(admin)));
  }

  /** `process_update_token`. */
  method ProcessUpdateToken(w: World, auth: Auth, ix: Instruction) returns (status: Status)
    requires ix.EditToken? && ix.edit == Update && auth.program == w.env.commission
    modifies w
    ensures Refines(Play(w.env, auth, old(w.accounts), EditScript(w.env, ix, Next(w.env, old(w.accounts), ix)), 0),
                    status, w.accounts)
  {
    var loaded := LoadAdmins(w, ix);
    if loaded.Failure? {
      return Err(loaded.error);
    }
    var admin := loaded.value.commission;
    var content := Signed.Content(admin.updateTokenNonce, None, w.env.bytes(w.env.commission), Signed.UpdateToken,
                                  OnWire(w.env, ix.entry.token), ix.entry.amount);
    :- VerifyContent(w.env, content, ix.proof, loaded.value.bridge.publicKey);
    var tokens := UpdateToken(admin.acceptableTokens, ix.entry);
    admin := admin.(acceptableTokens := tokens);
    admin := admin.(updateTokenNonce := WrapAdd(admin.updateTokenNonce, 1));
    status := WriteAdmin(w, auth, ix.admin, admin, EditScript(w.env, ix, Success(admin)));
  }

  // The payment of a fee withdrawal; `ops` is its script.
  method PayFees(w: World, auth: Auth, ix: Instruction, ghost next: FeeAdmin) returns (status: Status)
    requires ix.Withdraw? && auth.program == w.env.commission
    modifies w
    ensures var ops := WithdrawScript(w.env, ix, Success(next));
            if ix.entry.token.NFT? then status == Err(NotSupported)
            else |ops| >= 2 && RefinesPart(w.env, auth, ops, old(w.accounts), 0, status, w.accounts, |ops| - 2)
  {
    ghost var ops, l0 := WithdrawScript(w.env, ix, Success(next)), w.accounts;
    match ix.entry.token {
      case Native =>
        status := w.TransferLamports(auth, ix.admin, ix.receiver, ix.withdrawAmount, AdminSeeds(ix.bridgeAdmin));
      case FT(mint) =>
        if ix.vault != AssociatedKey(w.env, ix.admin, mint) {
          return Err(WrongTokenAccount);
        }
        if ix.receiverToken != AssociatedKey(w.env, ix.receiver, mint) {
          return Err(WrongTokenAccount);
        }
        assert Play(w.env, auth, l0, ops, 0) == Play(w.env, auth, l0, ops, 1);
        :- w.EnsureAssociatedAccount(auth, ix.receiver, ix.receiver, ix.mintAccount, ix.receiverToken);
        assert Play(w.env, auth, l0, ops, 1) == Play(w.env, auth, w.accounts, ops, 2);
        status := w.TransferTokens(auth, ix.vault, ix.receiverToken, ix.admin, ix.withdrawAmount,
                                   AdminSeeds(ix.bridgeAdmin));
      case NFT(_) =>
        return Err(NotSupported);
    }
  }

  /** `process_withdraw`. */
  method ProcessWithdraw(w: World, auth: Auth, ix: Instruction) returns (status: Status)
    requires ix.Withdraw? && auth.program == w.env.commission
    modifies w
    ensures Refines(Play(w.env, auth, old(w.accounts), WithdrawScript(w.env, ix, Next(w.env, old(w.accounts), ix)),
                         0), status, w.accounts)
  {
    var loaded := LoadAdmins(w, ix);
    if loaded.Failure? {
      return Err(loaded.error);
    }
    var admin := loaded.value.commission;
    var content := Signed.Content(admin.withdrawTokenNonce, Some(w.env.bytes(ix.receiver)),
                                  w.env.bytes(w.env.commission),
                                  Signed.WithdrawToken, OnWire(w.env, ix.entry.token), ix.entry.amount);
    :- VerifyContent(w.env, content, ix.proof, loaded.value.bridge.publicKey);
    :- PayFees(w, auth, ix, After(admin, ix));
    admin := admin.(withdrawTokenNonce := WrapAdd(admin.withdrawTokenNonce, 1));
    status := WriteAdmin(w, auth, ix.admin, admin, WithdrawScript(w.env, ix, Success(admin)));
  }

  /** `process_instruction`. */
  method Process(w: World, auth: Auth, ix: Instruction) returns (status: Status)
    requires auth.program == w.env.commission
    modifies w
    ensures Refines(Play(w.env, auth, old(w.accounts), Commission.Ops(w.env, old(w.accounts), ix), 0), status,
                    w.accounts)
  {
    match ix {
      case InitializeAdmin(_, _, _, _) => status := ProcessInitAdmin(w, auth, ix);
      case ChargeCommission(_, _, _, _, _, _, _, _, _) => status := ProcessChargeCommission(w, auth, ix);
      case EditToken(Add, _, _, _, _) => status := ProcessAddToken(w, auth, ix);
      case EditToken(Remove, _, _, _, _) => status := ProcessRemoveToken(w, auth, ix);
      case EditToken(Update, _, _, _, _) => status := ProcessUpdateToken(w, auth, ix);
      case Withdraw(_, _, _, _, _, _, _, _, _) => status := ProcessWithdraw(w, auth, ix);
    }
  }
}
