/** The ledger as the programs see it: one mutable object, and the runtime calls they make on it. */
module Worlds {
  import opened Wrappers
  import opened ByteStrings
  import opened Merkle
  import opened Chain
  import opened Ledger

  function StatusOf(error: Option<Error>): Status {
    match error
    case None => Ok
    case Some(e) => Err(e)
  }

  // What a call reports and leaves behind is what the specification says; a failed call promises no state,
  // since its whole transaction is undone.
  predicate Refines(spec: Outcome<Accounts>, status: Status, now: Accounts) {
    match spec
    case Success(l) => status == Ok && now == l
    case Failure(e) => status == Err(e)
  }

  // Part of a script: the operations from `i` up to `j`.
  predicate RefinesPart(env: Env, auth: Auth, ops: seq<Op>, before: Accounts, i: nat, status: Status, now: Accounts,
                        j: nat)
    requires i <= |ops| && j <= |ops|
  {
    Play(env, auth, before, ops, i) == match status case Ok => Play(env, auth, now, ops, j) case Err(e) => Failure(e)
  }

  /** `verify_ecdsa_signature`. */
  method VerifyEcdsaSignature(env: Env, hash: Bytes, signature: Bytes, recoveryId: byte, target: Bytes)
    returns (status: Status)
    ensures status == StatusOf(SignatureError(env, hash, signature, recoveryId, target))
  {
    var recovered := env.recover(hash, recoveryId, signature);
    if recovered.None? {
      return Err(InvalidSignature);
    }
    if recovered.value != target {
      return Err(WrongSignature);
    }
    return Ok;
  }

  // Folds a content's hash along the path and verifies the signature of the root.
  method VerifyProof(env: Env, hash: Bytes32, proof: Proof, target: Bytes) returns (status: Status)
    ensures status == StatusOf(SignatureError(env, Fold(env.keccak, hash, proof.path), proof.signature,
                                              proof.recoveryId, target))
  {
    var root := GetMerkleRoot(env.keccak, hash, proof.path);
    status := VerifyEcdsaSignature(env, root, proof.signature, proof.recoveryId, target);
  }

  class World {
    const env: Env
    var accounts: Accounts

    constructor (env: Env, accounts: Accounts)
      ensures this.env == env && this.accounts == accounts
    {
      this.env := env;
      this.accounts := accounts;
    }

    method SetLamports(key: Address, lamports: nat)
      modifies this
      ensures accounts == old(accounts)[key := Get(old(accounts), key).(lamports := lamports)]
    {
      accounts := accounts[key := Get(accounts, key).(lamports := lamports)];
    }

    method SetData(key: Address, data: Data)
      modifies this
      ensures accounts == WithData(old(accounts), key, data)
    {
      accounts := accounts[key := Get(accounts, key).(data := data)];
    }

    // The payer funds an account nobody has used.
    method Fund(payer: Address, key: Address, size: nat, owner: Address, data: Data) returns (status: Status)
      modifies this
      ensures Refines(Created(env, old(accounts), payer, key, size, owner, data), status, accounts)
    {
      var cost := env.rent(size);
      if payer == key || !CanSpend(env, accounts, payer, cost) || Occupied(accounts, key) {
        return Err(Runtime);
      }
      SetLamports(payer, Get(accounts, payer).lamports - cost);
      accounts := accounts[key := Account(cost, owner, data)];
      return Ok;
    }

    /** `call_create_account`. */
    method CreateAccount(auth: Auth, payer: Address, key: Address, size: nat, owner: Address,
                         seeds: seq<Seed>) returns (status: Status)
      modifies this
      ensures Refines(Apply(env, auth, old(accounts), Create(payer, key, size, owner, seeds)), status, accounts)
    {
      if payer !in Signers(auth, seeds) || key !in Signers(auth, seeds) {
        return Err(Runtime);
      }
      status := Fund(payer, key, size, owner, Blank(size));
    }

    // The same, except that lamports already at the address count towards its rent.
    method Open(payer: Address, key: Address, size: nat, owner: Address, data: Data) returns (status: Status)
      modifies this
      ensures Refines(Opened(env, old(accounts), payer, key, size, owner, data), status, accounts)
    {
      var held := Get(accounts, key).lamports;
      var cost := if held < env.rent(size) then env.rent(size) - held else 0;
      if payer == key || !CanSpend(env, accounts, payer, cost) || !NoData(accounts, key) {
        return Err(Runtime);
      }
      SetLamports(payer, Get(accounts, payer).lamports - cost);
      accounts := accounts[key := Account(held + cost, owner, data)];
      return Ok;
    }

    /** `call_create_associated_account`. */
    method CreateAssociatedAccount(auth: Auth, payer: Address, wallet: Address, mint: Address, key: Address)
      returns (status: Status)
      requires NoData(accounts, key)
      modifies this
      ensures Refines(Apply(env, auth, old(accounts), EnsureAssociated(payer, wallet, mint, key)), status, accounts)
    {
      if payer !in auth.signers || key != AssociatedKey(env, wallet, mint) || !DataAt(accounts, mint).MintData? {
        return Err(Runtime);
      }
      status := Open(payer, key, TOKEN_SIZE, env.tokenProgram, TokenData(mint, wallet, 0));
    }

    // The account is created only if it has no data.
    method EnsureAssociatedAccount(auth: Auth, payer: Address, wallet: Address, mint: Address, key: Address)
      returns (status: Status)
      modifies this
      ensures Refines(Apply(env, auth, old(accounts), EnsureAssociated(payer, wallet, mint, key)), status, accounts)
    {
      if !NoData(accounts, key) {
        return Ok;
      }
      status := CreateAssociatedAccount(auth, payer, wallet, mint, key);
    }

    /** The system program's transfer. */
    method TransferLamports(auth: Auth, payer: Address, to: Address, lamports: u64, seeds: seq<Seed>)
      returns (status: Status)
      modifies this
      ensures Refines(Apply(env, auth, old(accounts), Pay(payer, to, lamports, seeds)), status, accounts)
    {
      if payer !in Signers(auth, seeds) || !CanSpend(env, accounts, payer, lamports) {
        return Err(Runtime);
      }
      if payer == to {
        return Ok;
      }
      if Get(accounts, to).lamports + lamports >= U64 {
        return Err(Runtime);
      }
      SetLamports(payer, Get(accounts, payer).lamports - lamports);
      SetLamports(to, Get(accounts, to).lamports + lamports);
      return Ok;
    }

    /** A program debits its own account and credits another, in place and in machine words. */
    method PayOut(auth: Auth, admin: Address, to: Address, lamports: u64) returns (status: Status)
      modifies this
      ensures Refines(Apply(env, auth, old(accounts), Payout(admin, to, lamports)), status, accounts)
    {
      if Get(accounts, admin).owner != auth.program {
        return Err(Runtime);
      }
      SetLamports(admin, WrapSub(Get(accounts, admin).lamports, lamports));
      SetLamports(to, WrapAdd(Get(accounts, to).lamports, lamports));
      return Ok;
    }

    method InitializeMint(auth: Auth, mint: Address, authority: Address, decimals: byte) returns (status: Status)
      modifies this
      ensures Refines(Apply(env, auth, old(accounts), InitMint(mint, authority, decimals)), status, accounts)
    {
      if Get(accounts, mint).owner != env.tokenProgram || DataAt(accounts, mint) != Blank(MINT_SIZE) {
        return Err(Runtime);
      }
      SetData(mint, MintData(Some(authority), 0, decimals));
      return Ok;
    }

    method CreateMetadataAccount(auth: Auth, key: Address, mint: Address, authority: Address, payer: Address,
                                 metadata: Metadata, seeds: seq<Seed>) returns (status: Status)
      modifies this
      ensures Refines(Apply(env, auth, old(accounts), CreateMetadata(key, mint, authority, payer, metadata, seeds)),
                      status, accounts)
    {
      if authority !in Signers(auth, seeds) || payer !in Signers(auth, seeds) || key != MetadataKey(env, mint)
         || !DataAt(accounts, mint).MintData? || DataAt(accounts, mint).authority != Some(authority)
      {
        return Err(Runtime);
      }
      status := Fund(payer, key, METADATA_SIZE, env.metadataProgram, MetadataData(metadata));
    }

    /** `call_mint_to`. */
    method MintTokens(auth: Auth, mint: Address, key: Address, authority: Address, amount: u64,
                      seeds: seq<Seed>) returns (status: Status)
      modifies this
      ensures Refines(Apply(env, auth, old(accounts), MintTo(mint, key, authority, amount, seeds)), status, accounts)
    {
      var m, t := DataAt(accounts, mint), DataAt(accounts, key);
      if authority !in Signers(auth, seeds)
         || !m.MintData? || !t.TokenData? || t.mint != mint || m.authority != Some(authority)
         || m.supply + amount >= U64 || t.amount + amount >= U64
      {
        return Err(Runtime);
      }
      SetData(mint, m.(supply := m.supply + amount));
      SetData(key, t.(amount := t.amount + amount));
      return Ok;
    }

    /** `call_burn_token`. */
    method BurnTokens(auth: Auth, key: Address, mint: Address, authority: Address, amount: u64) returns (status: Status)
      modifies this
      ensures Refines(Apply(env, auth, old(accounts), Burn(key, mint, authority, amount)), status, accounts)
    {
      var m, t := DataAt(accounts, mint), DataAt(accounts, key);
      if authority !in auth.signers || !m.MintData? || !t.TokenData? || t.mint != mint || t.holder != authority
         || t.amount < amount || m.supply < amount
      {
        return Err(Runtime);
      }
      SetData(mint, m.(supply := m.supply - amount));
      SetData(key, t.(amount := t.amount - amount));
      return Ok;
    }

    /** `call_transfer_token`, `call_transfer_ft`. */
    method TransferTokens(auth: Auth, from: Address, to: Address, authority: Address, amount: u64,
                          seeds: seq<Seed>) returns (status: Status)
      modifies this
      ensures Refines(Apply(env, auth, old(accounts), Move(from, to, authority, amount, seeds)), status, accounts)
    {
      var f, t := DataAt(accounts, from), DataAt(accounts, to);
      if authority !in Signers(auth, seeds)
         || !f.TokenData? || !t.TokenData? || f.mint != t.mint || f.holder != authority
         || f.amount < amount
      {
        return Err(Runtime);
      }
      if from == to {
        return Ok;
      }
      if t.amount + amount >= U64 {
        return Err(Runtime);
      }
      SetData(from, f.(amount := f.amount - amount));
      SetData(to, t.(amount := t.amount + amount));
      return Ok;
    }

    /** The upgradeable loader's upgrade. */
    method UpgradeProgram(auth: Auth, target: Address, buffer: Address, authority: Address, seeds: seq<Seed>)
      returns (status: Status)
      modifies this
      ensures Refines(Apply(env, auth, old(accounts), Deploy(target, buffer, authority, seeds)), status, accounts)
    {
      var p, b := DataAt(accounts, target), DataAt(accounts, buffer);
      if authority !in Signers(auth, seeds) || !p.ProgramData? || !b.BufferData?
         || p.upgradeAuthority != Some(authority) || b.bufferAuthority != Some(authority)
      {
        return Err(Runtime);
      }
      SetData(target, p.(image := b.code));
      return Ok;
    }

    /** `serialize` into an account: the program's own, still zeroed or of the type it has just read. */
    method Serialize(auth: Auth, key: Address, data: Data) returns (status: Status)
      modifies this
      ensures Refines(Apply(env, auth, old(accounts), Store(key, data)), status, accounts)
    {
      if Get(accounts, key).owner != auth.program {
        return Err(Runtime);
      }
      if !Writable(DataAt(accounts, key), data) {
        return Err(AlreadyInUse);
      }
      SetData(key, data);
      return Ok;
    }

    // The end of a transaction.
    method Sweep()
      modifies this
      ensures accounts == Swept(env, old(accounts))
    {
      accounts := map key | key in accounts && !Dropped(env, accounts, key) :: accounts[key];
    }
  }
}
