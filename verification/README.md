# Bridge, commission and upgrade programs: a verified model

Three on-chain programs share one ledger. The **bridge** takes deposits of native currency, fungible and
non-fungible tokens, and pays withdrawals that an off-chain signer has approved by signing the Merkle root of a tree
of contents. The **commission** program keeps an ordered fee list, charges for deposits and lets the signer edit the
list and withdraw fees. The **upgrade** program replaces program code on the signer's word. This project models
what the programs do to the ledger and proves what they are for: every payout was signed and happens once, tokens and
lamports are conserved and accounted for, every deposit follows its own charge and exactly which charges pay, no
signed content is accepted twice by one admin and exactly when another admin accepts it too, keys, contracts, nonces
and fee lists have an unbroken provenance back to initialisation.

## How it is built

1. **Bytes and signatures.** `ByteStrings`, `Merkle`, `BridgeContent`, `CommissionContent`, `UpgradeContent`, `Borsh`,
   `FeeList`: the loops of the source as methods over arrays and sequences, each proved equal to a recursive
   specification, and round trips, soundness and injectivity proved about the specification. Keccak is any function
   to 32 bytes: where security of the hash is needed, a theorem exhibits two colliding inputs instead of excluding
   them. Public-key recovery (SEC 1 version 2.0, section 4.1.6) is any function.
2. **Ledger.** `Chain` has addresses (a derived address is a term of program and seeds), derivations and signature
   checks; `Ledger` has accounts and the runtime operations (`Op`, `Apply`) with the rule that a derived address
   signs only through its own program. Machine words wrap where the source uses `+=` and `-=`.
3. **Programs.** `Bridge`, `Commission`, `Upgrade` say which operations each instruction asks for, given the ledger
   before it; `Programs` adds everything outside them: any other program, signed for by wallets or by derived addresses
   of its own, performs any one runtime operation per step. `World` is the mutable ledger object with one method per
   runtime call; `BridgeProcessor`, `CommissionProcessor`, `UpgradeProcessor` are the handlers, statement by statement
   as in the source with the same early returns, proved to leave the ledger, or to fail with the error, that the
   specification says. `Bank` executes transactions with a snapshot and is proved to implement `Driver`'s atomic
   batches, each ending with the runtime's sweep of accounts without lamports; every history of transactions is a run
   of successful steps. `BridgeOutcomes`, `TokenOutcomes`, `CommissionOutcomes` and `UpgradeOutcomes` write out, apart
   from both, what each instruction comes to on any ledger: the refusals with their errors in the order they are made,
   the content that has to be signed, and every account as it is left; the two are proved equal. `Terms` says of every
   accepted payout, list edit and fee withdrawal what its signers agreed to, field by field, and the layout lemmas of
   the content modules at which place of the signed bytes each field stands.
4. **Theorems over all runs.** `Journal`, `Payouts`, `Occupancy`, `Payability`, `Vaults`, `Circulation`,
   `WrappedMints`, `NativeFlow`, `Treasury`, `Solvency`, `Fees`, `DepositFees`, `FeeQueues`, `Nonces`, `TwinAdmins`,
   `Storage`, `Keys`, `RepeatedRotations`, `UpgradeSafety`, `Ownership`, `Authorisation`. A run starts in any ledger
   and mixes all programs and all admins with whatever outsiders do: payments, mints and burns, accounts and mints at
   derived addresses of other programs, their own account data (even data laid out like an admin's or a record's),
   debits of accounts they own, and upgrades through the loader. Theorems about program state are therefore about the
   addresses derived from the three programs.

## Where the code falls short of the obvious property

- The commission encoding concatenates without lengths. Two different operations share bytes exactly when the program
  id begins with the network name followed by a byte of at most 2 (`CommissionContent.EncodingInjectiveIff`); fungible
  and non-fungible fee tokens of one mint are always written alike.
- A charge raises what the fee admin holds, in all its accounts together, by the listed price exactly when somebody
  other than the fee admin pays or the price is zero: the handler supplies the admin's own seeds to every transfer
  (`DepositFees.DepositPaidItsFeeIff`). `DepositFees.DepositWithoutFee` is a transaction, for any price, whose deposit
  takes effect and whose charge moves nothing.
- Commission content names the program but not the admin. What one admin has accepted passes at another exactly when
  the other is initialised under a bridge admin with the same stored key and has the same nonce of that kind
  (`TwinAdmins.ContentPassesElsewhereIff`); `TwinAdmins.OneContentTwoAdmins` is a run in which it does.
- Rotation messages carry no nonce. At any later point of a run a rotation that took effect would take effect again
  exactly when the stored key is again the one it replaced (`RepeatedRotations.RotationRepeatsIff`);
  `RepeatedRotations.RotationTwice` is a run in which it does.
- A record is created at an address derived from the origin, and creation fails at an address that holds anything.
  A withdrawal that is otherwise ready, native or of tokens, takes effect exactly when nothing occupies that address
  (`Payability.NativePayableIff`, `Payability.TokenPayableIff`). Anyone with lamports to spare can occupy it
  (`Payability.AnyoneOccupies`), and then no continuation ever pays the origin (`Payability.DustBlocksOrigin`,
  `Occupancy.OccupiedOriginsAreNeverPaid`).
- A native withdrawal may take all that an admin holds, and the runtime drops an account without lamports when the
  transaction ends. A bridge or fee admin ends a step without lamports exactly when the step is a native withdrawal
  of all it holds (`Solvency.EmptiedIff`). Anyone may then initialise the address with a key of their own
  (`Solvency.DrainedAdminIsTakenOver`); without such a withdrawal in between no address is initialised twice
  (`Solvency.InitialisedAgainWasDrained`). The theorems on keys, nonces and fee lists say of each life of an account
  what the code promises of the address.
- Nonces are 64-bit and wrap. While its account is kept, a nonce is verified again exactly when a multiple of 2^64
  operations of its kind lie between (`Nonces.NonceRepeatsIff`, `UpgradeSafety.NonceRepeatsIff`). The manifests of the crates ask for overflow checks
  (bridge/program/Cargo.toml:33), but profiles count only in the manifest of the workspace, which has none; below
  2^64 operations, and with less than 2^64 lamports in all, the two settings agree.

## Model

| member | source | states |
|---|---|---|
| ByteStrings.ComputeAmountBytes | lib/src/merkle.rs:3-12 | the backwards copying loop yields 24 zero bytes and then the eight big-endian bytes |
| ByteStrings.AmountBytesRoundTrip | lib/src/merkle.rs:3-12 | decoding the 32 bytes gives the amount back, for every u64 |
| ByteStrings.AmountBytesInjective | lib/src/merkle.rs:3-12 | no two amounts share a form, which all three encoders rely on |
| ByteStrings.FirstByteCountsMost | lib/src/merkle.rs:6-6 | the decoding is big-endian: the first byte counts most |
| ByteStrings.LexIsNumeric | lib/src/merkle.rs:17-17 | for strings of one length the comparison of hashes is that of the numbers they spell |
| Merkle.GetMerkleRoot | lib/src/merkle.rs:14-25 | the iterative fold computes the recursive one along any path, whose order and pairs are pinned by `FoldStartsAtLeaf` and `JoinedIsSorted` |
| Merkle.JoinedCommutes | lib/src/merkle.rs:17-21 | sorted-pair combination does not depend on which side is the sibling |
| Merkle.JoinedIsSorted | lib/src/merkle.rs:17-21 | the two halves that are hashed are the two hashes, the larger number first |
| Merkle.FoldStartsAtLeaf | lib/src/merkle.rs:15-16 | the path is joined from the leaf upwards, its first hash first |
| Merkle.SiblingPathFolds | lib/src/merkle.rs:14-25 | completeness: the sibling path of any leaf of any tree folds to its root |
| Merkle.FoldedContentIsLeaf | lib/src/merkle.rs:14-25 | soundness along any path of any length: a content that folds to the root is a leaf, or two colliding inputs are computed |
| Chain.ProvedContentIsSigned | lib/src/ecdsa.rs:9-25 | an accepted proof means the target key signed the root, and the content is in the signed tree or a collision is at hand |
| Chain.SignedLeafIsProved | lib/src/ecdsa.rs:9-25 | a leaf with its sibling path is accepted if and only if the target key signed the root |
| Chain.SignatureVerdict | lib/src/ecdsa.rs:10-22 | accepted if and only if the signature recovers to the target key; no key and another key have their own errors |
| BridgeContent.GetOperation | bridge/program/src/merkle.rs:102-135 | the conditional appends produce the seven optional fields in the agreed order, given place by place in `FtLayout`, `NftLayout` and `NativeLayout` |
| BridgeContent.HashContent | bridge/program/src/merkle.rs:36-49 | the hash is that of operation, origin, network name, receiver and program id |
| BridgeContent.ContentIsLong | bridge/program/src/merkle.rs:36-49 | every content has at least 102 bytes, so none is an inner node |
| BridgeContent.FtLayout | bridge/program/src/merkle.rs:105-131 | the place of each field of a fungible content: mint, name, uri, amount, symbol, decimals, then origin, network name, receiver, program id |
| BridgeContent.NftLayout | bridge/program/src/merkle.rs:105-131 | the place of each field of a non-fungible content: collection if any, name, mint, uri, symbol, then the same end |
| BridgeContent.NativeLayout | bridge/program/src/merkle.rs:121-123 | a native content is the amount and the same end |
| BridgeContent.TailDecodes | bridge/program/src/merkle.rs:36-49 | equal bytes give equal origin, receiver, program id and operation, across all kinds |
| BridgeContent.FtContentDecodes | bridge/program/src/merkle.rs:65-75 | with metadata a function of the mint, equal fungible bytes give equal mint and amount |
| BridgeContent.NftContentDecodes | bridge/program/src/merkle.rs:77-87 | equal bytes of NFTs in a collection give equal collection and mint |
| BridgeContent.NativeContentDecodes | bridge/program/src/merkle.rs:89-99 | equal native bytes give equal amount |
| CommissionContent.HashContent | commission/program/src/merkle.rs:34-63 | the hash is that of nonce, receiver if any, contract, network name, tag, mint if any and amount |
| CommissionContent.ContentIsLong | commission/program/src/merkle.rs:34-63 | at least 103 bytes, more with a receiver or a mint |
| CommissionContent.Layout | commission/program/src/merkle.rs:34-63 | the place of each field: nonce, receiver if any, program id, network name, 0 to 3 for the kind, mint if any, amount |
| CommissionContent.ContentDecodes | commission/program/src/merkle.rs:34-63 | for an unambiguous program id equal bytes give equal nonce, operation, receiver, amount and mint; the two 135-byte layouts are separated |
| CommissionContent.EncodingInjectiveIff | commission/program/src/merkle.rs:34-63 | the bytes determine the operation if and only if the program id is not ambiguous |
| UpgradeContent.HashContent | upgrade/program/src/merkle.rs:22-29 | the hash is that of network name, nonce, contract and buffer |
| UpgradeContent.Layout | upgrade/program/src/merkle.rs:22-29 | the place of each field: network name, nonce, contract, buffer |
| UpgradeContent.ContentDecodes | upgrade/program/src/merkle.rs:22-29 | the encoding is injective |
| FeeList.CheckTokenIsAcceptable | commission/program/src/processor.rs:480-488 | the search returns the first entry of the token, or none exactly if there is none |
| FeeList.RemoveToken | commission/program/src/processor.rs:261-267 | the loop removes the first equal entry only |
| FeeList.UpdateToken | commission/program/src/processor.rs:313-319 | the loop reprices the first entry of the token only |
| FeeList.PriceIsFirst | commission/program/src/processor.rs:480-488 | the price found is that of the token's first entry, and none if there is no entry |
| FeeList.RemovesFirstEqual | commission/program/src/processor.rs:261-267 | the first equal entry goes, all others stay in their order |
| FeeList.RepricesFirst | commission/program/src/processor.rs:313-319 | the token's first entry gets the price, all others stay as they are |
| FeeList.AddEnqueues | commission/program/src/processor.rs:216-218 | adding enqueues for its own token and leaves other queues alone |
| FeeList.UpdateRewritesHead | commission/program/src/processor.rs:313-319 | updating rewrites the head of its own token's queue and leaves other queues alone |
| FeeList.RemoveDequeues | commission/program/src/processor.rs:261-267 | removing deletes the first equal price of its own token's queue and leaves other queues alone |
| FeeList.ChargeReadsHead | commission/program/src/processor.rs:480-488 | a charge reads the head of the queue and is refused exactly when it is empty |
| Borsh.AdminRoundTrip | commission/program/src/state.rs:44-53 | decoding an encoded admin gives it back, whatever bytes follow |
| Borsh.Layout | commission/program/src/state.rs:44-53 | the place of count, four nonces and flag in the stored bytes |
| Borsh.EntryLayout | commission/program/src/state.rs:29-35 | each entry stands behind those before it, as a tag, its mint if any and its price |
| Borsh.LastByteCountsMost | commission/program/src/state.rs:44-53 | stored numbers are little-endian |
| Borsh.Store | commission/program/src/processor.rs:218-218 | in-place serialisation overwrites a prefix, reads back as the new state over any older bytes, fails exactly if the buffer is too short, and then has written as much as fits |
| Borsh.TenTokensFit | commission/program/src/state.rs:6-6 | ten entries of any kind fit for every token size of at least 33 bytes |
| Borsh.ZeroedAdmin | commission/program/src/processor.rs:86-89 | a new zeroed account reads as an admin that is not initialised |
| Worlds.VerifyEcdsaSignature | lib/src/ecdsa.rs:9-25 | accepted if and only if recovery succeeds with the target key, with a distinct error for each failure |
| Worlds.World.CreateAccount | lib/src/lib.rs:44-74 | payer and new address must sign, the payer pays the rent, an occupied address fails |
| Worlds.World.CreateAssociatedAccount | lib/src/lib.rs:76-101 | opens the wallet's one account for the mint, at its derived address only; lamports already there count towards the rent |
| Worlds.World.PayOut | bridge/program/src/processor.rs:438-440 | in-place debit and credit in machine words, on the program's own account only |
| BridgeProcessor.VerifyCommissionCharged | bridge/program/src/processor.rs:818-846 | accepts exactly the matching charge as the instruction before, with the error of the first failing check |
| BridgeProcessor.ProcessInitAdmin | bridge/program/src/processor.rs:96-135 | creates the admin at the address its seeds derive, with the given key and commission program, or fails with the first error, exactly as `Bridge.InitializeAdminScript` |
| BridgeProcessor.ProcessTransferOwnership | bridge/program/src/processor.rs:137-164 | replaces only the key, after the stored key verified the new key's hash, exactly as `Bridge.TransferOwnershipScript` |
| BridgeProcessor.CheckDeposit | lib/src/instructions/bridge.rs:246-275 | the argument limits and the admin and fee checks, in order, with their errors |
| BridgeProcessor.ProcessDepositNative | bridge/program/src/processor.rs:167-211 | moves the amount from the owner to the admin after all checks, exactly as `Bridge.DepositNativeScript` |
| BridgeProcessor.ProcessDepositToken | bridge/program/src/processor.rs:213-371 | both token deposits, with amount 1 for an NFT: vault opened if missing, burn with a token seed, lock without, exactly as `Bridge.DepositTokenScript` |
| BridgeProcessor.ProcessWithdrawNative | bridge/program/src/processor.rs:373-457 | checks, then record created, then lamports moved, then record written, exactly as `Bridge.WithdrawNativeScript`, whose outcome `BridgeOutcomes.WithdrawNativeOutcome` writes out |
| BridgeProcessor.TryMintTokenWithMeta | bridge/program/src/processor.rs:945-1005 | mint, its authority and metadata created exactly when the mint has no data |
| BridgeProcessor.ReadTransfer | bridge/program/src/processor.rs:686-723 | what must have been signed, read from the mint's and the collection's metadata, as `Terms.FungibleTerms` and `Terms.NftTerms` write out |
| BridgeProcessor.ForeseenTransfer | bridge/program/src/processor.rs:516-534 | what is read back after creating the mint is what the signed metadata said |
| BridgeProcessor.ProcessWithdrawToken | bridge/program/src/processor.rs:459-816 | both token withdrawals, fourteen operations from the checks to the record, with the error of the first that fails, exactly as `Bridge.WithdrawTokenScript` |
| CommissionProcessor.ProcessInitAdmin | commission/program/src/processor.rs:57-99 | creates the admin at the address derived from the bridge admin, holding the given tokens in order and zero nonces, or fails if they do not fit the size the token layout gives |
| CommissionProcessor.ProcessChargeCommission | commission/program/src/processor.rs:102-174 | transfers the first listed price in the given token to the admin or its vault, opened if missing; unlisted and NFT tokens are refused |
| CommissionProcessor.ProcessAddToken | commission/program/src/processor.rs:177-221 | content with the add nonce verified, entry appended, nonce advanced; refused when the list outgrows the account, for every token layout |
| CommissionProcessor.ProcessRemoveToken | commission/program/src/processor.rs:223-273 | content with the remove nonce verified, first equal entry removed, nonce advanced |
| CommissionProcessor.ProcessUpdateToken | commission/program/src/processor.rs:275-325 | content with the update nonce verified, first entry repriced, nonce advanced |
| CommissionProcessor.ProcessWithdraw | commission/program/src/processor.rs:328-425 | content with receiver and withdraw nonce verified, amount paid, nonce advanced, as `CommissionOutcomes.WithdrawFeesOutcome` writes out |
| UpgradeProcessor.ProcessInitAdmin | upgrade/program/src/processor.rs:41-79 | creates the admin at the address its contract derives, storing that contract, the key and nonce 0 |
| UpgradeProcessor.ProcessTransferOwnership | upgrade/program/src/processor.rs:82-107 | the admin's address is derived from the stored contract before the key changes |
| UpgradeProcessor.ProcessUpgrade | upgrade/program/src/processor.rs:109-167 | the code is replaced and the nonce advanced after verification |
| Bank.Execute | bridge/program/src/processor.rs:39-94 | dispatch: an instruction has the effect, or the error, of the handler of the program it names |
| Bank.ProcessTransaction | bridge/program/src/processor.rs:818-826 | instructions in order, each seeing the one before it; the snapshot comes back at the first error |
| Bank.ProcessAll | bridge/program/src/processor.rs:39-94 | any history of transactions, outside programs and their derived signers included, is a run of successful steps |
| Driver.CommitIsAtomic | bridge/program/src/processor.rs:39-94 | a batch takes the ledger where a run of all its items ends, and leaves it as it is if there is no such run |
| Steps.OutsideMay | lib/src/lib.rs:55-61 | any other program, with any signers from outside, does whatever the runtime lets it do |
| BridgeOutcomes.InitializeAdminOutcome | bridge/program/src/processor.rs:96-135 | the outcome written out: WrongSeeds, no funds or an occupied address, else rent paid and the admin as given |
| BridgeOutcomes.TransferOwnershipOutcome | bridge/program/src/processor.rs:137-164 | the outcome written out: the refusals in order, else the key replaced and nothing else |
| BridgeOutcomes.DepositNativeOutcome | bridge/program/src/processor.rs:167-211 | the outcome written out: limits, admin and fee in order, else the amount moved from owner to admin |
| BridgeOutcomes.DepositTokenOutcome | bridge/program/src/processor.rs:213-371 | the outcome written out: the same refusals, then vault, token seed, and the tokens burnt or locked |
| BridgeOutcomes.DepositRefusal | lib/src/instructions/bridge.rs:246-275 | a deposit passes if and only if its arguments are within 100 and 20 bytes and positive, its admin is initialised at its address, and the charge fits |
| BridgeOutcomes.FeeRefusal | bridge/program/src/processor.rs:818-846 | the charge fits if and only if it is by the appointed program, for the fee admin it derives from this admin, of this kind and amount |
| BridgeOutcomes.WithdrawNativeOutcome | bridge/program/src/processor.rs:373-457 | the outcome written out: the refusals in order with the content that has to be signed, else admin, receiver and record as they are left |
| TokenOutcomes.WithdrawTokenOutcome | bridge/program/src/processor.rs:459-816 | the outcome written out in seven stages, from the refusals over mint, content, accounts, shortfall and payment to the record |
| Trimming.TrimmedIsUnique | bridge/program/src/processor.rs:526-528 | a stored string has one form without zero bytes at its ends |
| CommissionOutcomes.InitializeAdminOutcome | commission/program/src/processor.rs:57-99 | the outcome written out, with the room for ten tokens and all nonces zero |
| CommissionOutcomes.ChargeCommissionOutcome | commission/program/src/processor.rs:102-174 | the outcome written out: refusals, then the first listed price moved in lamports or tokens |
| CommissionOutcomes.EditTokenOutcome | commission/program/src/processor.rs:177-325 | the outcome of the three edits written out: refusals with the content that has to be signed, else the list and one nonce changed |
| CommissionOutcomes.WithdrawFeesOutcome | commission/program/src/processor.rs:328-425 | the outcome written out: refusals with the content that has to be signed, else the receiver paid and the nonce moved on |
| UpgradeOutcomes.InitializeAdminOutcome | upgrade/program/src/processor.rs:41-79 | the outcome written out, with the contract, the key and nonce 0 |
| UpgradeOutcomes.TransferOwnershipOutcome | upgrade/program/src/processor.rs:82-107 | the outcome written out: the refusals in order, else the key replaced and nothing else |
| UpgradeOutcomes.UpgradeProgramOutcome | upgrade/program/src/processor.rs:109-167 | the outcome written out: refusals with the content that has to be signed, else the code replaced and the nonce moved on |
| Terms.NativeTerms | bridge/program/src/processor.rs:402-414 | the amount, origin and receiver on a native payout's record are what the stored key had signed |
| Terms.FungibleTerms | bridge/program/src/processor.rs:520-534 | the mint, amount, origin and receiver on a fungible payout's record, and the mint's name, symbol, uri and decimals, are what the stored key had signed |
| Terms.NftTerms | bridge/program/src/processor.rs:686-723 | the mint, origin and receiver on a non-fungible payout's record, with the collection's name and symbol if there is one, are what the stored key had signed |
| Terms.FeeWithdrawalTerms | commission/program/src/processor.rs:360-369 | the receiver, token and amount of a fee withdrawal are what the bridge admin's key had signed, under the withdrawal nonce |
| Terms.AdditionTerms | commission/program/src/processor.rs:205-219 | the entry appended is what the key had signed for addition, under the addition nonce |
| Terms.RemovalTerms | commission/program/src/processor.rs:250-270 | the entry whose first equal goes is what the key had signed for removal, under the removal nonce |
| Terms.UpdateTerms | commission/program/src/processor.rs:302-322 | the entry that reprices the token's first is what the key had signed for update, under the update nonce |
| Ownership.OutsidersOwnNothingOfOurs | lib/src/lib.rs:55-61 | in every reachable state an account at a derived address of the three programs is owned by one of them or a runtime program, so outsiders, who rewrite only what they own, cannot touch it |
| Journal.JournalIsExact | bridge/program/src/processor.rs:602-625 | over every run the records at the program's addresses are those there were plus exactly one per withdrawal, with its kind, mint, amount, origin and receiver |
| Journal.OriginsPaidOnce | bridge/program/src/processor.rs:421-454 | withdrawals of all kinds and admins have pairwise distinct origins |
| Journal.RecordedOriginsAreRefused | bridge/program/src/processor.rs:421-454 | an origin with a record is never paid again |
| Occupancy.OccupiedOriginsAreNeverPaid | bridge/program/src/processor.rs:421-436 | an origin whose record address ever holds a record or a lamport is never paid in any continuation |
| Payability.NativePayableIff | bridge/program/src/processor.rs:373-457 | a native withdrawal takes effect if and only if its checks pass, its receiver signed and can pay the rent, the admin is the bridge's, and nothing occupies the record's address |
| Payability.TokenPayableIff | bridge/program/src/processor.rs:459-816 | a token withdrawal, whatever accounts it has to create, takes effect if and only if its checks pass, its receiver signed and can pay for all creations, the vault or the mint can cover the amount, and nothing occupies the record's address |
| Payability.AnyoneOccupies | lib/src/lib.rs:55-73 | a payment of any amount by any wallet through any other program occupies the record's address of any origin |
| Payability.DustBlocksOrigin | bridge/program/src/processor.rs:421-436 | after it no step of any continuation pays that origin |
| Journal.RecordsAreNeverMints | bridge/program/src/processor.rs:957-980 | records never change, and no address is both a record and a mint over time |
| Payouts.RecordsStateWhatWasPaid | bridge/program/src/processor.rs:438-454 | the record a withdrawal leaves states the kind, mint and amount by which its admin's holdings fell or circulation rose and its receiver's balance grew |
| Vaults.WithdrawalMintsTheShortfall | bridge/program/src/processor.rs:577-595 | circulation rises by the amount, and the supply becomes the larger of itself and circulation |
| Vaults.WithdrawalReachesReceiver | bridge/program/src/processor.rs:588-595 | the whole amount arrives in the receiver's own account for the mint |
| Vaults.ForeignMintPaidFromVault | bridge/program/src/processor.rs:577-595 | for a mint the bridge does not control the supply stays and the vault pays |
| Vaults.DepositLeavesCirculation | bridge/program/src/processor.rs:267-289 | burning and locking both take the amount out of circulation |
| Vaults.DepositLeavesDepositor | bridge/program/src/processor.rs:267-289 | the depositor's account loses the whole amount |
| Vaults.OthersOnlyFillVault | bridge/program/src/processor.rs:588-595 | apart from its holder's own operations nothing takes tokens out of a vault, whatever outside programs and their signers do |
| Circulation.SupplyTracksBalances | bridge/program/src/processor.rs:1008-1085 | over any run the sum of all balances of a mint moves with its supply |
| Circulation.SupplyChangesBy | bridge/program/src/processor.rs:577-586 | every instruction changes the supply of every mint by what can be read off it: shortfall, burnt deposit, outside mint or burn |
| Circulation.SupplyIsAccountedFor | bridge/program/src/processor.rs:267-289 | over any run the supply of any mint is its start plus those changes |
| Circulation.CirculationIsConserved | bridge/program/src/processor.rs:213-371 | circulation outside the vault is initial plus withdrawn minus deposited, plus what other instructions issue or burn, minus gifts, all read off the instructions |
| Circulation.MintingFollowsDemand | bridge/program/src/processor.rs:577-595 | for a controlled mint the supply never exceeds the larger of its start and the peak of circulation |
| Circulation.NftStaysUnique | bridge/program/src/processor.rs:765-783 | if withdrawals never get more than one ahead of deposits, there is at most one NFT |
| WrappedMints.WrappedMintsAreControlled | bridge/program/src/processor.rs:957-1001 | a mint at an address derived from the bridge always has a bridge admin as its authority, while other programs open mints at their own |
| WrappedMints.BurntTokensWereWrapped | bridge/program/src/processor.rs:267-279 | a burning deposit lowers the supply of a mint that only a bridge admin can mint |
| NativeFlow.NativeScript | bridge/program/src/processor.rs:417-440 | despite the rent paid between check and debit, neither debit nor credit wraps, and each account ends exact |
| NativeFlow.LamportsAreConserved | bridge/program/src/processor.rs:438-440 | the total of lamports is constant over every run if it fits a machine word |
| NativeFlow.AdminLamportsAreAccountedFor | bridge/program/src/processor.rs:195-208 | an admin holds what it held plus deposits, charged fees and donations minus payouts and withdrawn fees |
| Treasury.HoldingsAndRecordsBalance | bridge/program/src/processor.rs:438-454 | over any run, the lamports of all bridge admins together plus the amounts of all native records are their start plus deposits and donations |
| NativeFlow.NativeChargeMovesPriceIff | commission/program/src/processor.rs:127-135 | a native charge raises the admin's lamports by the price if and only if someone else pays or the price is zero |
| Fees.CommittedTransactionExecutes | bridge/program/src/processor.rs:818-826 | the steps of a transaction that takes effect are its instructions in order, each seeing the one before it, and the sweep |
| Fees.DepositsArePaidFor | bridge/program/src/processor.rs:818-846 | in a transaction that takes effect the instruction before each deposit is a successful charge for that admin, kind and amount; no deposit comes first |
| Fees.ChargeMovesPriceIff | commission/program/src/processor.rs:136-167 | a token charge raises the vault by the first listed price if and only if it is not paid from that vault or the price is zero |
| Fees.FeeVaultIsAccountedFor | commission/program/src/processor.rs:102-174 | over any run a fee vault gains the price current at each charge, less withdrawals, plus gifts |
| DepositFees.ChargeMovesListedPrice | commission/program/src/processor.rs:125-171 | every charge moves the first listed price into the fee account, token or native, unless source and target are one account, and NFT charges never take effect |
| DepositFees.ChargeEnriches | commission/program/src/processor.rs:127-167 | every charge raises the sum of the fee admin's token accounts for the mint, or its lamports, by the price then listed, or not at all if the fee admin itself is the payer |
| DepositFees.DepositPaidItsFeeIff | bridge/program/src/processor.rs:818-846 | the charge before each deposit raised all that the fee admin holds in its currency by the price then listed if and only if somebody else paid or the price is zero |
| DepositFees.TransactionFees | bridge/program/src/processor.rs:818-846 | over a transaction that takes effect a fee account gains the listed prices of the charges paired with its deposits and of the other charges, plus what other instructions did |
| DepositFees.SelfChargeChangesNothing | commission/program/src/processor.rs:160-166 | every charge paid by the fee admin out of its own vault takes effect and changes nothing |
| DepositFees.DepositWithoutFee | bridge/program/src/processor.rs:193-208 | for every price, a transaction of such a charge and a native deposit takes effect without a fee |
| FeeQueues.ListRefinesQueues | commission/program/src/processor.rs:177-325 | over any run that keeps the account the list refines one queue per token, for arbitrary duplicates |
| FeeQueues.QueuesStartAsGiven | commission/program/src/processor.rs:91-94 | the queues of an admin created within the run start as the prices it was last initialised with |
| FeeQueues.ChargesPayQueueHead | commission/program/src/processor.rs:125-125 | each successful charge of any run pays the head of its token's queue, replayed from the start or from the last initialisation |
| Nonces.StepAdmin | commission/program/src/processor.rs:205-219 | a signed operation writes exactly its successor state, and nothing else, outsiders included, changes a commission admin that is not dropped |
| Nonces.NoncesCountOperations | commission/program/src/processor.rs:216-216 | while the account is kept each of the four nonces counts the successful operations of its own kind |
| Nonces.NoncesStartAtZero | commission/program/src/processor.rs:86-97 | an admin created within the run counts its operations of each kind from zero, since its last initialisation |
| Nonces.NonceRepeatsIff | commission/program/src/processor.rs:269-269 | while the account is kept a nonce is verified again if and only if a multiple of 2^64 operations of its kind lie between |
| Nonces.NoContentAcceptedTwice | commission/program/src/processor.rs:205-217 | no two operations on one admin, of the same or different kinds, verify the same bytes unless the account was dropped in between |
| TwinAdmins.ContentPassesElsewhereIff | commission/program/src/merkle.rs:34-63 | content and proof accepted at one admin pass at another if and only if that is initialised under a bridge admin with the same stored key and has the same nonce of the kind |
| TwinAdmins.OneContentTwoAdmins | commission/program/src/processor.rs:177-221 | a run of two steps in which one signed edit takes effect at two admins |
| Nonces.AdminsAlwaysFit | commission/program/src/processor.rs:270-270 | every reachable commission admin fits its account |
| Storage.ReachableAdminsReadBack | commission/program/src/state.rs:44-53 | every reachable commission admin, written over any older bytes of its account, reads back as itself |
| Keys.InitialisedOnce | bridge/program/src/processor.rs:110-128 | initialisation succeeds at most once per address, in all three programs, unless the account is dropped in between; an upgrade admin never is |
| Solvency.EmptiedIff | bridge/program/src/processor.rs:416-440 | a bridge or fee admin that holds lamports ends a step without any if and only if the step is a native withdrawal of all it holds |
| Solvency.KeptUnlessDrained | bridge/program/src/processor.rs:416-440 | over any run without such a withdrawal the admin's account is kept |
| Solvency.DrainedAdminIsTakenOver | bridge/program/src/processor.rs:110-133 | for every such withdrawal that takes effect there is a run of it, the end of its transaction and an initialisation of the same address with any other key |
| Solvency.InitialisedAgainWasDrained | bridge/program/src/processor.rs:110-128 | if an address is initialised twice, a withdrawal in between took all its admin held |
| Solvency.SweepDropsTheEmpty | lib/src/lib.rs:55-61 | in every reachable state the accounts a sweep drops are exactly those without lamports, since mints, token accounts, records, programs and upgrade admins never run out |
| Keys.RotationIsSigned | bridge/program/src/processor.rs:148-162 | a rotation was verified under the stored key and installs exactly the new one |
| RepeatedRotations.RotationRepeatsIff | bridge/program/src/processor.rs:159-162 | at any later point of any run a rotation that took effect would take effect again if and only if the stored key is the one stored when it did |
| RepeatedRotations.RotationTwice | bridge/program/src/processor.rs:137-164 | a run of three rotations, away, back and away again, the third with the first one's signature |
| Keys.KeysAreLinked | upgrade/program/src/processor.rs:92-105 | while its account is kept, the key of an admin that exists at the start is linked to its later keys by verified rotations; commission program and contract never change |
| Keys.KeysStartAtInitialisation | bridge/program/src/processor.rs:110-133 | an admin created within the run has the key its last initialisation was given, or one verified rotations lead to, and the program or contract given then |
| Keys.KeysHaveProvenance | upgrade/program/src/processor.rs:54-105 | in every state reached from any ledger, the empty one included, every admin key, with what is fixed beside it, goes back to the start or to the account's last initialisation |
| UpgradeSafety.ContractsStayBound | upgrade/program/src/processor.rs:54-77 | in every reachable state the stored contract derives the admin's address |
| UpgradeSafety.UpgradeHitsSignedContract | upgrade/program/src/processor.rs:125-165 | an upgrade replaces the code of the program named in the signed content by the named buffer's, and nothing else |
| UpgradeSafety.OnlyItsUpgradesDeploy | upgrade/program/src/processor.rs:125-161 | a program whose upgrade authority is an upgrade admin changes only by an upgrade that names it, under the admin derived from it; the loader called directly cannot |
| UpgradeSafety.ImagesFollowUpgrades | upgrade/program/src/processor.rs:149-161 | over any run such a program runs the code of the last signed upgrade that named it |
| UpgradeSafety.WalletsUpgradeTheirOwn | upgrade/program/src/processor.rs:135-140 | the condition on the authority is needed: a wallet upgrades its own program through the loader |
| UpgradeSafety.NonceCountsUpgrades | upgrade/program/src/processor.rs:164-165 | the nonce counts upgrades, and key rotations leave it alone |
| UpgradeSafety.NonceStartsAtZero | upgrade/program/src/processor.rs:74-77 | an upgrade admin created within the run counts its upgrades from zero |
| UpgradeSafety.NonceRepeatsIff | upgrade/program/src/processor.rs:164-165 | an upgrade nonce is verified again if and only if a multiple of 2^64 upgrades under the admin, whatever its keys, lie between |
| UpgradeSafety.NoUpgradeAcceptedTwice | upgrade/program/src/processor.rs:144-147 | no upgrade content is accepted twice, across key rotations and admins |
| Authorisation.SignedStepsAreProved | bridge/program/src/processor.rs:402-414 | every payout, list edit, fee withdrawal and upgrade was proved under its admin's current key |
| Authorisation.StepsAreAuthorised | bridge/program/src/processor.rs:520-536 | for every signed step of every run the root was signed by the key then stored, whose provenance goes back to the start or to the last initialisation, and the content is in the signed tree or a collision is at hand |
| Authorisation.SignersAreOurs | bridge/program/src/processor.rs:392-400 | payouts and upgrades always name an admin at a derived address of the three programs |
| Authorisation.NoBridgeContentAcceptedTwice | bridge/program/src/processor.rs:710-725 | no bridge content is accepted twice, by another admin or as another kind |

## Left out

- Keccak and secp256k1 internals: arbitrary functions here; nothing depends on their being injective.
- Address collisions and derivations that land on the curve: derived addresses are terms, so derivation always succeeds and never collides.
- Account data: typed values on the ledger; bytes are modelled for the commission admin only, whose size varies.
- Whose account a commission admin's bridge admin is: the commission handlers read it without an ownership check, as the model does, so the provenance of its key is claimed when it is at a derived address of the three programs.
- `process_create_collection`: its mint is a derived address created without seeds, so under the signer rule it never succeeds.
- Deposits called by another program: the instructions sysvar shows top-level instructions only, and the fee theorem is about those.
- Instruction builders, entrypoints, scripts, error numbers and log output: plumbing.
- Account lists that are too short or hold the wrong helper programs: every account a handler uses is named in the instruction.
- Rent exemption: rent is a fixed positive price per size, paid on creation. That the runtime refuses to leave an account with some lamports but less than its rent is not modelled; that it drops one without lamports at the end of the transaction is.
- The token, associated-token, metadata and system programs beyond the calls made: no closing, freezing, delegation, authority changes or multisignatures; token accounts opened during a run are associated ones, others are there from the start.
- The loader beyond upgrades: deploying, closing and setting authorities; the spill account and the buffer's lamports.
- Outside programs inside one instruction: each of their steps is one runtime operation, and a sequence of steps stands for a longer instruction.
- The native arm of a commission withdrawal: whether the system program moves lamports out of an account with data is a parameter of the environment, and claims are about successful calls.
- The commission `withdraw_amount`: the signed content does not carry it, so no claim is made that the signer chose it.
- NFTs without a collection, and bridge contents of different kinds: the bytes do not decide them in general; only the tail is claimed across kinds.
- Key rotations: what is signed is the hash of a 64-byte key, as long as an inner Merkle node, and no separation is claimed.
- FT and NFT handlers: the pairs in the source differ in amount, fee kind and signed content only, and share one method each here.
- Trimming of metadata: zero bytes are trimmed at both ends of byte strings, without decoding UTF-8.
