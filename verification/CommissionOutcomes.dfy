/** What each commission instruction comes to: its refusals in the order they are made, and the ledger it leaves. */
module CommissionOutcomes {
  import opened Wrappers
  import opened ByteStrings
  import opened FeeList
  import opened Borsh
  import opened Chain
  import opened Ledger
  import opened Programs
  import Bridge
  import BridgeOutcomes
  import Commission
  import D = Driver
  import Signed = CommissionContent

  // ---- Refusals ----

  // The fee admin has to be the one derived from the bridge admin, and initialised; new accounts are zeroed.
  function AdminRefusal(env: Env, l: Accounts, admin: Address, bridgeAdmin: Address): (refused: Option<Error>)
    ensures refused == None
            <==> admin == Pda(env.commission, [Raw(COMMISSION_ADMIN_SEED), Of(bridgeAdmin)])
                 && DataAt(l, admin).CommissionData? && DataAt(l, admin).commission.isInitialized
    ensures refused == Some(WrongAdmin)
            <==> admin != Pda(env.commission, [Raw(COMMISSION_ADMIN_SEED), Of(bridgeAdmin)])
    ensures refused in {None, Some(WrongAdmin), Some(NotInitialized), Some(Runtime)}
  {
    if admin != Pda(env.commission, [Raw(COMMISSION_ADMIN_SEED), Of(bridgeAdmin)]) then Some(WrongAdmin)
    else
      match DataAt(l, admin)
      case CommissionData(a) => if a.isInitialized then None else Some(NotInitialized)
      case Blank(size) => if size < 4 + 4 * 8 + 1 then Some(Runtime) else Some(NotInitialized)
      case _ => Some(Runtime)
  }

  // So has the bridge admin, whose key signs.
  function SignerRefusal(env: Env, l: Accounts, admin: Address, bridgeAdmin: Address): (refused: Option<Error>)
    ensures refused == None
            <==> AdminRefusal(env, l, admin, bridgeAdmin) == None
                 && DataAt(l, bridgeAdmin).BridgeData? && DataAt(l, bridgeAdmin).bridge.isInitialized
    ensures refused in {None, Some(WrongAdmin), Some(NotInitialized), Some(Runtime)}
  {
    var refused := AdminRefusal(env, l, admin, bridgeAdmin);
    if refused.Some? then refused
    else
      match DataAt(l, bridgeAdmin)
      case BridgeData(b) => if b.isInitialized then None else Some(NotInitialized)
      case Blank(size) => if size < 64 + 32 + 1 then Some(Runtime) else Some(NotInitialized)
      case _ => Some(Runtime)
  }

  // Room for ten tokens, as the source reckons it.
  function Room(env: Env): nat {
    10 * (env.tokenSize + 32 + 8) + 32 + 8
  }

  // Count, entries, four nonces and a flag.
  predicate Fits(env: Env, a: FeeAdmin) {
    4 + EntriesSize(a.acceptableTokens) + 4 * 8 + 1 <= Room(env)
  }

  // The admin is written back by its owner, if it fits.
  function WrittenBack(env: Env, l: Accounts, admin: Address, next: FeeAdmin): Outcome<Accounts> {
    if !Fits(env, next) || Get(l, admin).owner != env.commission then Failure(Runtime)
    else Success(l[admin := Get(l, admin).(data := CommissionData(next))])
  }

  // ---- Instructions ----

  /** A new fee admin: at the address derived from its bridge admin, with the given list and all nonces zero. */
  lemma InitializeAdminOutcome(env: Env, l: Accounts, signers: set<Address>, prior: Option<Bridge.Prior>,
                               admin: Address, bridgeAdmin: Address, payer: Address, tokens: seq<FeeEntry<Address>>)
    requires Outsiders(env, signers)
    ensures Exec(env, l, Item(signers, prior,
                              CommissionIx(Commission.InitializeAdmin(admin, bridgeAdmin, payer, tokens))))
            == var a, funds := CommissionAdmin(tokens, 0, 0, 0, 0, true), Get(l, payer);
               var cost := env.rent(10 * (env.tokenSize + 32 + 8) + 32 + 8);
               if admin != Pda(env.commission, [Raw(COMMISSION_ADMIN_SEED), Of(bridgeAdmin)]) then Failure(WrongAdmin)
               else if payer !in signers || !CanSpend(env, l, payer, cost) || Occupied(l, admin) || !Fits(env, a) then
                 Failure(Runtime)
               else
                 Success(l[payer := funds.(lamports := funds.lamports - cost)]
                          [admin := Account(cost, env.commission, CommissionData(a))])
  {
    var ix, auth := Commission.InitializeAdmin(admin, bridgeAdmin, payer, tokens), Auth(env.commission, signers);
    var ops := Commission.InitializeAdminScript(env, ix);
    PlayCheck(env, auth, l, ops, 0);
    if admin == CommissionKey(env.commission, bridgeAdmin) {
      CreationPlays(env, auth, l, ix);
    }
  }

  lemma CreationPlays(env: Env, auth: Auth, l: Accounts, ix: Commission.Instruction)
    requires ix.InitializeAdmin? && auth.program == env.commission && Outsiders(env, auth.signers)
    requires ix.admin == CommissionKey(env.commission, ix.bridgeAdmin)
    ensures Play(env, auth, l, Commission.InitializeAdminScript(env, ix), 1)
            == var a, funds := CommissionAdmin(ix.tokens, 0, 0, 0, 0, true), Get(l, ix.payer);
               var cost := env.rent(Room(env));
               if ix.payer !in auth.signers || !CanSpend(env, l, ix.payer, cost) || Occupied(l, ix.admin)
                  || !Fits(env, a) then Failure(Runtime)
               else
                 Success(l[ix.payer := funds.(lamports := funds.lamports - cost)]
                          [ix.admin := Account(cost, env.commission, CommissionData(a))])
  {
    var ops := Commission.InitializeAdminScript(env, ix);
    PlayNext(env, auth, l, ops, 1);
    BridgeOutcomes.CreatedWritten(env, l, ix.payer, ix.admin, Room(env), env.commission, ops[3].data);
    var created := Apply(env, auth, l, ops[1]);
    if created.Success? {
      PlayCheck(env, auth, created.value, ops, 2);
      PlayLast(env, auth, created.value, ops);
    }
  }

  // The fee admin may sign for itself, and so may anyone who signed the transaction.
  function ChargeToken(env: Env, l: Accounts, signers: set<Address>, ix: Commission.Instruction, mint: Address,
                       price: u64): Outcome<Accounts>
    requires ix.ChargeCommission?
  {
    if ix.vault != Found(env, env.associatedProgram, [Of(ix.admin), Of(env.tokenProgram), Of(mint)]) then
      Failure(WrongTokenAccount)
    else
      var vaulted := BridgeOutcomes.WithTokenAccount(env, l, signers, ix.owner, ix.admin, ix.mintAccount, ix.vault);
      if vaulted.Failure? then vaulted
      else if ix.owner !in signers && ix.owner != ix.admin then Failure(Runtime)
      else Moved(vaulted.value, ix.ownerToken, ix.vault, ix.owner, price)
  }

  lemma TokenChargePlays(env: Env, auth: Auth, l: Accounts, ix: Commission.Instruction, mint: Address, price: u64)
    requires ix.ChargeCommission? && ix.token == FT(mint) && auth.program == env.commission
    requires ix.admin == CommissionKey(env.commission, ix.bridgeAdmin)
    ensures Play(env, auth, l, Commission.ChargeScript(env, ix, Success(price)), 0)
            == ChargeToken(env, l, auth.signers, ix, mint, price)
  {
    var ops := Commission.ChargeScript(env, ix, Success(price));
    PlayCheck(env, auth, l, ops, 0);
    PlayNext(env, auth, l, ops, 1);
    var vaulted := Apply(env, auth, l, ops[1]);
    if vaulted.Success? {
      PlayLast(env, auth, vaulted.value, ops);
    }
  }

  /** A charge moves the price of the token's first entry from its owner to the fee admin, or to its vault. */
  lemma ChargeCommissionOutcome(env: Env, l: Accounts, signers: set<Address>, prior: Option<Bridge.Prior>,
                                ix: Commission.Instruction)
    requires ix.ChargeCommission? && Outsiders(env, signers)
    ensures Exec(env, l, Item(signers, prior, CommissionIx(ix)))
            == var refused := AdminRefusal(env, l, ix.admin, ix.bridgeAdmin);
               if refused.Some? then Failure(refused.value)
               else
                 match PriceOf(DataAt(l, ix.admin).commission.acceptableTokens, ix.token)
                 case None => Failure(NotAcceptable)
                 case Some(price) =>
                   match ix.token
                   case Native =>
                     if ix.owner !in signers && ix.owner != ix.admin then Failure(Runtime)
                     else Paid(env, l, ix.owner, ix.admin, price)
                   case FT(mint) => ChargeToken(env, l, signers, ix, mint, price)
                   case NFT(_) => Failure(NotSupported)
  {
    var auth, price := Auth(env.commission, signers), Commission.Price(env, l, ix);
    if price.Success? && ix.token.FT? {
      TokenChargePlays(env, auth, l, ix, ix.token.mint, price.value);
    } else {
      PlayLast(env, auth, l, Commission.ChargeScript(env, ix, price));
    }
  }

  // How a token is named in what is signed.
  function Named(env: Env, token: FeeToken<Address>): FeeToken<Bytes32> {
    match token
    case Native => Native
    case FT(mint) => FT(env.bytes(mint))
    case NFT(mint) => NFT(env.bytes(mint))
  }

  // The content that has to be signed for an edit, and the admin it leaves.
  function EditContent(env: Env, a: FeeAdmin, edit: Commission.Edit, entry: FeeEntry<Address>): Signed.Content {
    var program, token := env.bytes(env.commission), Named(env, entry.token);
    match edit
    case Add => Signed.Content(a.addTokenNonce, None, program, Signed.AddToken, token, entry.amount)
    case Remove => Signed.Content(a.removeTokenNonce, None, program, Signed.RemoveToken, token, entry.amount)
    case Update => Signed.Content(a.updateTokenNonce, None, program, Signed.UpdateToken, token, entry.amount)
  }

  function AfterEdit(a: FeeAdmin, edit: Commission.Edit, entry: FeeEntry<Address>): FeeAdmin {
    var list := a.acceptableTokens;
    match edit
    case Add => a.(addTokenNonce := D.Successor(a.addTokenNonce), acceptableTokens := list + [entry])
    case Remove => a.(removeTokenNonce := D.Successor(a.removeTokenNonce), acceptableTokens := RemoveFirst(list, entry))
    case Update => a.(updateTokenNonce := D.Successor(a.updateTokenNonce), acceptableTokens := Reprice(list, entry))
  }

  lemma EditContentAgrees(env: Env, a: FeeAdmin, ix: Commission.Instruction)
    requires ix.EditToken?
    ensures Commission.ContentOf(env, a, ix) == EditContent(env, a, ix.edit, ix.entry)
    ensures Commission.After(a, ix) == AfterEdit(a, ix.edit, ix.entry)
  {
  }

  lemma SignerRefusalAgrees(env: Env, l: Accounts, ix: Commission.Instruction)
    requires ix.EditToken? || ix.Withdraw?
    ensures var refused := SignerRefusal(env, l, ix.admin, ix.bridgeAdmin);
            Commission.SignedError(env, l, ix)
            == if refused.Some? then refused
               else
                 ProofError(env, Signed.Encode(Commission.ContentOf(env, DataAt(l, ix.admin).commission, ix)), ix.proof,
                            DataAt(l, ix.bridgeAdmin).bridge.publicKey)
  {
  }

  lemma WrittenBackPlays(env: Env, auth: Auth, l: Accounts, ops: seq<Op>, i: nat, admin: Address, next: FeeAdmin)
    requires i + 2 == |ops| && auth.program == env.commission && DataAt(l, admin).CommissionData?
    requires ops[i] == Check(Commission.SizeError(env, next)) && ops[i + 1] == Store(admin, CommissionData(next))
    ensures Play(env, auth, l, ops, i) == WrittenBack(env, l, admin, next)
  {
    PlayCheck(env, auth, l, ops, i);
    PlayLast(env, auth, l, ops);
  }

  /** A list edit: signed with the nonce of its kind for this entry; the list and that nonce change, nothing else. */
  lemma EditTokenOutcome(env: Env, l: Accounts, signers: set<Address>, prior: Option<Bridge.Prior>,
                         edit: Commission.Edit, admin: Address, bridgeAdmin: Address, proof: Proof,
                         entry: FeeEntry<Address>)
    requires Outsiders(env, signers)
    ensures Exec(env, l, Item(signers, prior,
                              CommissionIx(Commission.EditToken(edit, admin, bridgeAdmin, proof, entry))))
            == var refused := SignerRefusal(env, l, admin, bridgeAdmin);
               if refused.Some? then Failure(refused.value)
               else
                 var a, key := DataAt(l, admin).commission, DataAt(l, bridgeAdmin).bridge.publicKey;
                 var unsigned := ProofError(env, Signed.Encode(EditContent(env, a, edit, entry)), proof, key);
                 if unsigned.Some? then Failure(unsigned.value)
                 else WrittenBack(env, l, admin, AfterEdit(a, edit, entry))
  {
    var ix, auth := Commission.EditToken(edit, admin, bridgeAdmin, proof, entry), Auth(env.commission, signers);
    var next := Commission.Next(env, l, ix);
    var ops := Commission.EditScript(env, ix, next);
    SignerRefusalAgrees(env, l, ix);
    if next.Success? {
      EditContentAgrees(env, DataAt(l, admin).commission, ix);
      WrittenBackPlays(env, auth, l, ops, 0, admin, next.value);
    } else {
      PlayCheck(env, auth, l, ops, 0);
      if SignerRefusal(env, l, admin, bridgeAdmin) == None {
        EditContentAgrees(env, DataAt(l, admin).commission, ix);
      }
    }
  }

  // Out of the fee admin's lamports or its vault, to the receiver or the receiver's own token account.
  function FeesPaid(env: Env, l: Accounts, signers: set<Address>, ix: Commission.Instruction): Outcome<Accounts>
    requires ix.Withdraw?
  {
    match ix.entry.token
    case Native => Paid(env, l, ix.admin, ix.receiver, ix.withdrawAmount)
    case FT(mint) =>
      if ix.vault != Found(env, env.associatedProgram, [Of(ix.admin), Of(env.tokenProgram), Of(mint)])
         || ix.receiverToken != Found(env, env.associatedProgram, [Of(ix.receiver), Of(env.tokenProgram), Of(mint)])
      then Failure(WrongTokenAccount)
      else
        var opening := BridgeOutcomes.WithTokenAccount(env, l, signers, ix.receiver, ix.receiver, ix.mintAccount,
                                                       ix.receiverToken);
        if opening.Failure? then opening
        else Moved(opening.value, ix.vault, ix.receiverToken, ix.admin, ix.withdrawAmount)
    case NFT(_) => Failure(NotSupported)
  }

  lemma WithdrawContentAgrees(env: Env, a: FeeAdmin, ix: Commission.Instruction)
    requires ix.Withdraw?
    ensures Commission.ContentOf(env, a, ix)
            == Signed.Content(a.withdrawTokenNonce, Some(env.bytes(ix.receiver)), env.bytes(env.commission),
                              Signed.WithdrawToken, Named(env, ix.entry.token), ix.entry.amount)
    ensures Commission.After(a, ix) == a.(withdrawTokenNonce := D.Successor(a.withdrawTokenNonce))
  {
  }

  lemma PaymentKeepsAdmin(env: Env, l: Accounts, signers: set<Address>, ix: Commission.Instruction)
    requires ix.Withdraw? && DataAt(l, ix.admin).CommissionData? && FeesPaid(env, l, signers, ix).Success?
    ensures DataAt(FeesPaid(env, l, signers, ix).value, ix.admin) == DataAt(l, ix.admin)
  {
  }

  lemma NativeWithdrawalPlays(env: Env, auth: Auth, l: Accounts, ix: Commission.Instruction, next: FeeAdmin)
    requires ix.Withdraw? && ix.entry.token.Native? && auth.program == env.commission
    requires ix.admin == CommissionKey(env.commission, ix.bridgeAdmin) && DataAt(l, ix.admin).CommissionData?
    ensures var paid := FeesPaid(env, l, auth.signers, ix);
            Play(env, auth, l, Commission.WithdrawScript(env, ix, Success(next)), 0)
            == if paid.Failure? then paid else WrittenBack(env, paid.value, ix.admin, next)
  {
    var ops, paid := Commission.WithdrawScript(env, ix, Success(next)), FeesPaid(env, l, auth.signers, ix);
    PlayNext(env, auth, l, ops, 0);
    if paid.Success? {
      PaymentKeepsAdmin(env, l, auth.signers, ix);
      WrittenBackPlays(env, auth, paid.value, ops, 1, ix.admin, next);
    }
  }

  lemma TokenWithdrawalPlays(env: Env, auth: Auth, l: Accounts, ix: Commission.Instruction, next: FeeAdmin)
    requires ix.Withdraw? && ix.entry.token.FT? && auth.program == env.commission
    requires ix.admin == CommissionKey(env.commission, ix.bridgeAdmin) && DataAt(l, ix.admin).CommissionData?
    ensures var paid := FeesPaid(env, l, auth.signers, ix);
            Play(env, auth, l, Commission.WithdrawScript(env, ix, Success(next)), 0)
            == if paid.Failure? then paid else WrittenBack(env, paid.value, ix.admin, next)
  {
    var ops, paid := Commission.WithdrawScript(env, ix, Success(next)), FeesPaid(env, l, auth.signers, ix);
    PlayCheck(env, auth, l, ops, 0);
    PlayNext(env, auth, l, ops, 1);
    var opening := Apply(env, auth, l, ops[1]);
    if opening.Success? {
      PlayNext(env, auth, opening.value, ops, 2);
    }
    if paid.Success? {
      PaymentKeepsAdmin(env, l, auth.signers, ix);
      WrittenBackPlays(env, auth, paid.value, ops, 3, ix.admin, next);
    }
  }

  /** A fee withdrawal: signed for this receiver, token and amount with the withdrawal nonce; the receiver is paid, and
      the nonce moves on. */
  lemma WithdrawFeesOutcome(env: Env, l: Accounts, signers: set<Address>, prior: Option<Bridge.Prior>,
                            ix: Commission.Instruction)
    requires ix.Withdraw? && Outsiders(env, signers)
    ensures Exec(env, l, Item(signers, prior, CommissionIx(ix)))
            == var refused := SignerRefusal(env, l, ix.admin, ix.bridgeAdmin);
               if refused.Some? then Failure(refused.value)
               else
                 var a, key := DataAt(l, ix.admin).commission, DataAt(l, ix.bridgeAdmin).bridge.publicKey;
                 var content := Signed.Content(a.withdrawTokenNonce, Some(env.bytes(ix.receiver)),
                                               env.bytes(env.commission), Signed.WithdrawToken,
                                               Named(env, ix.entry.token), ix.entry.amount);
                 var unsigned := ProofError(env, Signed.Encode(content), ix.proof, key);
                 if unsigned.Some? then Failure(unsigned.value)
                 else
                   var paid := FeesPaid(env, l, signers, ix);
                   if paid.Failure? then paid
                   else
                     WrittenBack(env, paid.value, ix.admin, a.(withdrawTokenNonce := D.Successor(a.withdrawTokenNonce)))
  {
    var auth, next := Auth(env.commission, signers), Commission.Next(env, l, ix);
    SignerRefusalAgrees(env, l, ix);
    if SignerRefusal(env, l, ix.admin, ix.bridgeAdmin) == None {
      WithdrawContentAgrees(env, DataAt(l, ix.admin).commission, ix);
    }
    if next.Failure? || ix.entry.token.NFT? {
      PlayLast(env, auth, l, Commission.WithdrawScript(env, ix, next));
    } else if ix.entry.token.Native? {
      NativeWithdrawalPlays(env, auth, l, ix, next.value);
    } else {
      TokenWithdrawalPlays(env, auth, l, ix, next.value);
    }
  }
}
