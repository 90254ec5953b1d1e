/** What the three programs share: addresses, derivation, the environment, signatures (lib/src/lib.rs, ecdsa.rs). */
module Chain {
  import opened Wrappers
  import opened ByteStrings
  import opened Merkle

  /** A program-derived address is a term, so derivation is deterministic and injective. */
  datatype Address = Base(id: nat) | Pda(program: Address, seeds: seq<Seed>)
  datatype Seed = Raw(bytes: Bytes) | Of(key: Address)

  datatype TokenType = Sol | Fungible | NonFungible

  datatype Error =
    | AlreadyInUse | NotInitialized | WrongAdmin | WrongSeeds | WrongNonce | WrongTokenAccount
    | WrongMetadataAccount | WrongArgsSize | WrongSignature | InvalidSignature | WrongBalance | WrongTokenSeed
    | NoTokenMeta | WrongCommissionProgram | WrongCommissionArguments | WrongCommissionAccount
    | NotAcceptable | NotSupported
    | Runtime // any error raised by the runtime, by a called program or by deserialisation

  type Outcome<T> = Result<T, Error>

  // What a handler returns.
  datatype Status = Ok | Err(error: Error) {
    predicate IsFailure() {
      Err?
    }

    function PropagateFailure(): Status
      requires Err?
    {
      this
    }
  }

  type Rent = n: nat | 0 < n witness 1

  // `size_of::<CommissionToken>()`: a tag and a key at least.
  type TokenSize = n: nat | 33 <= n witness 33

  /** Everything outside the modelled code: hash, key recovery, deployed programs, rent. */
  datatype Env = Env(
    keccak: HashFunction,
    recover: (Bytes, byte, Bytes) -> Option<Bytes>, // hash, recovery id, signature
    bytes: Address -> Bytes32,
    bump: (Address, seq<Seed>) -> byte,
    rent: nat -> Rent,
    tokenSize: TokenSize,
    tagSize: nat, // `size_of::<TokenType>()`
    bridge: Address,
    commission: Address,
    upgrade: Address,
    systemProgram: Address,
    tokenProgram: Address,
    associatedProgram: Address,
    metadataProgram: Address,
    loaderProgram: Address,
    spendsFromData: bool) // does the system program move lamports out of fee admins, which carry data?

  predicate IsOurProgram(env: Env, program: Address) {
    program == env.bridge || program == env.commission || program == env.upgrade
  }

  // The addresses derived from one of the three programs. Nobody else can sign for them.
  predicate Ours(env: Env, key: Address) {
    key.Pda? && IsOurProgram(env, key.program)
  }

  // Signers from outside: wallets, and derived addresses that other programs sign for.
  predicate Outsiders(env: Env, signers: set<Address>) {
    forall key <- signers :: !Ours(env, key)
  }

  const COMMISSION_ADMIN_SEED: Bytes := [99, 111, 109, 109, 105, 115, 115, 105, 111, 110, 95, 97, 100, 109, 105, 110]
  const UPGRADE_ADMIN_SEED: Bytes := [117, 112, 103, 114, 97, 100, 101, 95, 97, 100, 109, 105, 110]
  const METADATA_SEED: Bytes := [109, 101, 116, 97, 100, 97, 116, 97]

  predicate Spelled(b: Bytes, s: string) {
    |b| == |s| && forall i :: 0 <= i < |b| ==> b[i] == s[i] as int
  }

  lemma NamesAreSpelled()
    ensures Spelled(SOLANA, "Solana") && Spelled(COMMISSION_ADMIN_SEED, "commission_admin")
    ensures Spelled(UPGRADE_ADMIN_SEED, "upgrade_admin") && Spelled(METADATA_SEED, "metadata")
  {
  }

  // `find_program_address`: the seeds followed by the canonical bump.
  function FoundSeeds(env: Env, program: Address, seeds: seq<Seed>): seq<Seed> {
    seeds + [Raw([env.bump(program, seeds)])]
  }

  function Found(env: Env, program: Address, seeds: seq<Seed>): Address {
    Pda(program, FoundSeeds(env, program, seeds))
  }

  function BridgeKey(env: Env, seeds: Bytes): Address {
    Pda(env.bridge, [Raw(seeds)])
  }

  // Withdraw records and wrapped mints are both found from one 32-byte seed.
  function OneSeedKey(env: Env, seed: Bytes): Address {
    Found(env, env.bridge, [Raw(seed)])
  }

  function CommissionKey(program: Address, bridgeAdmin: Address): Address {
    Pda(program, [Raw(COMMISSION_ADMIN_SEED), Of(bridgeAdmin)])
  }

  function UpgradeKey(env: Env, contract: Address): Address {
    Pda(env.upgrade, [Raw(UPGRADE_ADMIN_SEED), Of(contract)])
  }

  function AssociatedKey(env: Env, wallet: Address, mint: Address): Address {
    Found(env, env.associatedProgram, [Of(wallet), Of(env.tokenProgram), Of(mint)])
  }

  function MetadataKey(env: Env, mint: Address): Address {
    Found(env, env.metadataProgram, [Raw(METADATA_SEED), Of(env.metadataProgram), Of(mint)])
  }

  lemma AssociatedKeyInjective(env: Env, wallet: Address, mint: Address, wallet': Address, mint': Address)
    requires AssociatedKey(env, wallet, mint) == AssociatedKey(env, wallet', mint')
    ensures wallet == wallet' && mint == mint'
  {
    var s, s' := AssociatedKey(env, wallet, mint).seeds, AssociatedKey(env, wallet', mint').seeds;
    assert s[0] == s'[0] && s[2] == s'[2];
  }

  lemma UpgradeKeyInjective(env: Env, contract: Address, contract': Address)
    requires UpgradeKey(env, contract) == UpgradeKey(env, contract')
    ensures contract == contract'
  {
    assert UpgradeKey(env, contract).seeds[1] == UpgradeKey(env, contract').seeds[1];
  }

  lemma CommissionKeyInjective(program: Address, admin: Address, program': Address, admin': Address)
    requires CommissionKey(program, admin) == CommissionKey(program', admin')
    ensures program == program' && admin == admin'
  {
    assert CommissionKey(program, admin).seeds[1] == CommissionKey(program', admin').seeds[1];
  }

  /** `verify_ecdsa_signature`: None when the signature is accepted. */
  function SignatureError(env: Env, hash: Bytes, signature: Bytes, recoveryId: byte, target: Bytes): Option<Error> {
    match env.recover(hash, recoveryId, signature)
    case None => Some(InvalidSignature)
    case Some(key) => if key == target then None else Some(WrongSignature)
  }

  /** A signature is accepted exactly when it recovers to the target key, and each failure has its own error. */
  lemma SignatureVerdict(env: Env, hash: Bytes, signature: Bytes, recoveryId: byte, target: Bytes)
    ensures var e, key := SignatureError(env, hash, signature, recoveryId, target),
                          env.recover(hash, recoveryId, signature);
            (e == None <==> key == Some(target))
            && (e == Some(InvalidSignature) <==> key == None)
            && (e == Some(WrongSignature) <==> key.Some? && key.value != target)
  {
  }

  // A signature over the root reached from a content's hash.
  datatype Proof = Proof(signature: Bytes, recoveryId: byte, path: seq<Bytes32>)

  function ProofError(env: Env, content: Bytes, proof: Proof, target: Bytes): Option<Error> {
    SignatureError(env, Fold(env.keccak, env.keccak(content), proof.path), proof.signature, proof.recoveryId, target)
  }

  /** What a verified proof is worth: whoever signed the root of a tree of contents signed this content. */
  lemma {:induction false} ProvedContentIsSigned(env: Env, content: Bytes, proof: Proof, target: Bytes, t: Tree)
    requires ProofError(env, content, proof, target) == None
    requires Fold(env.keccak, env.keccak(content), proof.path) == Root(env.keccak, t)
    requires |content| != 64 && LeavesNotNodeSized(t)
    ensures env.recover(Root(env.keccak, t), proof.recoveryId, proof.signature) == Some(target)
    ensures content in Leaves(t) || Collides(env.keccak, FindCollision(env.keccak, t, content, proof.path))
  {
    FoldedContentIsLeaf(env.keccak, t, content, proof.path);
  }

  /** And its partner: with the sibling path of a leaf, the leaf's content is accepted exactly when the target key
      signed the root of its tree. */
  lemma {:induction false} SignedLeafIsProved(env: Env, t: Tree, position: seq<bool>, content: Bytes,
      signature: Bytes, recoveryId: byte, target: Bytes)
    requires HasLeafAt(t, position, content)
    ensures ProofError(env, content, Proof(signature, recoveryId, SiblingPath(env.keccak, t, position)), target) == None
            <==> env.recover(Root(env.keccak, t), recoveryId, signature) == Some(target)
  {
    SiblingPathFolds(env.keccak, t, position, content);
  }
}
