# Utility contract: a verified model

This project models `UtilityContract`, a Soroban smart contract. The contract keeps a registry of "utilities": offers that a provider attaches to a reward, a raffle, or an NFT-bound benefit. Every entry point follows the same pattern. It reads persistent storage, runs a fixed sequence of guards that each abort with their own `UtilityError`, and then writes back or leaves storage alone.

The storage has five parts, plus one log:

- the `ADMIN` slot;
- the append-only `U_STORAGE` registry, where the position of an entry is its utility id;
- the claim ledger, keyed by `("claimed", utility_id, user)`;
- the `ELIGIBLE` list of one-entry maps `user -> utility_id`;
- the `TOKEN_U` per-asset index, a list of maps `asset -> Utility`;
- a log of the mint and transfer requests sent to token contracts, which stands in for the foreign token calls.

Files:

- `structs.dfy` (module `Structs`) holds the data types of `structs.rs`:
  - the `#[repr(u32)]` enums, with their codes and decoders;
  - the `Utility`, `Reward` and `Raffle` records. These are datatypes, so equality is structural over every field, as with the derived `PartialEq`/`Eq`;
  - the error enum.

  Every `u64` field has the subset type `U64 = 0 .. 2^64-1`.
- `contract.dfy` (module `Contract`) holds the entry points of `lib.rs`:
  - Entry points that change storage (`setup_config`, `create_utility`, `claim_reward`, `mark_eligible`) are step functions `Store -> Store` or `Store -> Reply`. The class `UtilityContract` implements them as methods that update its fields in place, and each method is proved equal to its step function.
  - Queries and the entry points that never persist (`get_config`, `get_utility`, `join_raffle`, `end_raffle`, `claim_utitlity_on_nft`, `redeem_utility_on_nft`) are functions of the store.
  - `get_token_utility` (a loop with early return) and `check_utility` (a mutable accumulator) are class methods proved against the functions `TokenUtilityOf` and `CheckOutcome`.
- `properties.dfy` (module `Properties`) holds the properties that span several calls:
  - error order;
  - claim idempotence and pool conservation;
  - append-only ids;
  - frame facts over any sequence of invocations.
- `wrappers.dfy` holds `Option`.

An invocation ends in one of three ways: `Ok(value)`, `Fail(UtilityError)` for `panic_with_error!`, or `Abort` for a host panic (`unwrap()` on nothing, the plain `panic!`, or a `u64` overflow). A Soroban panic rolls back every write of the invocation. So each step function returns the old store on every outcome except `Ok`, and each method stages its writes and commits them only at the end. This is why the early `total_amount -=` and the early claim-mark write in `claim_reward` are invisible when a later guard fails.

The model follows the code, not the intended design, in these places:

- `create_utility` validates nothing, because its checks are commented out.
- `end_raffle`, `claim_utitlity_on_nft` and `redeem_utility_on_nft` change only local copies, so on success they store nothing. As a result, a raffle's `ended` flag is only ever the value supplied at creation. `end_raffle` can succeed repeatedly. A Raffle utility created with `ended = false` can never pay out. Redemption never uses up usage.
- `check_utility` answers `UtilityNotFound` for an absent id instead of `false`. It also uses the inverted test `usage_type != Limited`.
- `setup_config` empties the registry on every call, so ids are reused after a reset. Claim-ledger entries survive the reset.
- No entry point writes `TOKEN_U`. Starting from a deployment without that index, every path that reads it aborts.
- The claim ledger is keyed by the full `u64` id, while the registry is indexed by `id as u32`. So `id` and `id + 2^32` pay the same user twice from the same pool.

## Model

| member | source | states |
|---|---|---|
| `Structs.ExpiryTypeCode` | contracts/utility_contract/src/structs.rs:6-10 | ExpiryType codes lie in 0..2 |
| `Structs.ExpiryTypeFromCode` | contracts/utility_contract/src/structs.rs:6-10 | a code decodes to an ExpiryType exactly when it is below 3 (three variants) |
| `Structs.ExpiryTypeCodeRoundTrip` | contracts/utility_contract/src/structs.rs:6-10 | None=0, TimeBased=1, DateBased=2 round-trip in both directions |
| `Structs.UsageTypeCode` | contracts/utility_contract/src/structs.rs:23-26 | UsageType codes lie in 0..1 |
| `Structs.UsageTypeFromCode` | contracts/utility_contract/src/structs.rs:23-26 | exactly codes 0 and 1 decode: a closed two-variant type |
| `Structs.UsageTypeCodeRoundTrip` | contracts/utility_contract/src/structs.rs:23-26 | Unlimited=0 / Limited=1 round-trip in both directions |
| `Structs.SelectionCode` | contracts/utility_contract/src/structs.rs:40-43 | Selection codes lie in 0..1 |
| `Structs.SelectionFromCode` | contracts/utility_contract/src/structs.rs:40-43 | exactly codes 0 and 1 decode: a closed two-variant type |
| `Structs.SelectionCodeRoundTrip` | contracts/utility_contract/src/structs.rs:40-43 | All=0 / Raffle=1 round-trip in both directions |
| `Structs.ReceiptCode` | contracts/utility_contract/src/structs.rs:48-53 | Receipt codes lie in 0..3 |
| `Structs.ReceiptFromCode` | contracts/utility_contract/src/structs.rs:48-53 | exactly codes 0..3 decode, so None and HTSToken stay representable |
| `Structs.ReceiptCodeRoundTrip` | contracts/utility_contract/src/structs.rs:48-53 | the four receipt codes round-trip in both directions |
| `Structs.ErrorCode` | contracts/utility_contract/src/structs.rs:92-107 | error codes lie in 1..14 |
| `Structs.ErrorFromCode` | contracts/utility_contract/src/structs.rs:92-107 | a code decodes to an error exactly when it is in 1..14 |
| `Structs.ErrorCodeInjective` | contracts/utility_contract/src/structs.rs:92-107 | the fourteen error codes are pairwise distinct and decode back to their error |
| `Contract.Slot` | contracts/utility_contract/src/lib.rs:135 | `utility_id as u32` is below 2^32, is the id itself for ids below 2^32, and is smaller than the id otherwise |
| `Contract.SetupConfigStep` | contracts/utility_contract/src/lib.rs:24-39 | stores the admin and an empty registry; the ledger, eligibility list, index and log are unchanged |
| `Contract.GetConfig` | contracts/utility_contract/src/lib.rs:47-54 | the stored admin, or "No Admin Set" when none is stored |
| `Contract.CreateUtilityStep` | contracts/utility_contract/src/lib.rs:61-119 | appends exactly one entry, equal to the input with `provider := sender`; earlier entries and all other storage are unchanged; an absent registry becomes a one-entry registry |
| `Contract.GetUtility` | contracts/utility_contract/src/lib.rs:292-302 | Ok with the entry at `id as u32` exactly when the registry is present and long enough, else `UtilityNotFound` |
| `Contract.JoinRaffle` | contracts/utility_contract/src/lib.rs:121-151 | succeeds iff the entry exists, sender is its provider, `now <= offer_expiry`, selection is Raffle and not ended; `UtilityNotFound` iff there is no registry |
| `Contract.EndRaffle` | contracts/utility_contract/src/lib.rs:153-191 | succeeds iff the entry exists, is not ended, sender is the provider, selection is Raffle and `offer_expiry <= now`; it is a function of the store, so nothing is persisted |
| `Contract.Charged` | contracts/utility_contract/src/lib.rs:210-214 | the pool drops by exactly `amount_per_win` and no other field changes |
| `Contract.ClaimRewardStep` | contracts/utility_contract/src/lib.rs:192-270 | every outcome but Ok leaves storage unchanged (rollback); Ok exactly when `Claimable` holds (admin sender, funded pool, raffle ended if Raffle, pair unclaimed, a token address, MintToken or External) |
| `Contract.MarkEligibleStep` | contracts/utility_contract/src/lib.rs:271-291 | abort when no admin is stored (the `unwrap()`); Ok iff sender is the stored admin, `NotAuthorized` iff an admin is stored and differs; on success exactly one map `user -> id` is appended; otherwise nothing changes |
| `Contract.FirstHolding` | contracts/utility_contract/src/lib.rs:311-315 | the index of the first map holding the asset, or None when no map holds it |
| `Contract.TokenUtilityOf` | contracts/utility_contract/src/lib.rs:304-318 | aborts iff the index key is absent; Ok with a value one of the maps holds for the asset; `UtilityNotFound` only when no map holds it |
| `Contract.BindInstance` | contracts/utility_contract/src/lib.rs:353-361 | usage copied from the template iff the instance is Limited; expiry `template.expiry + now` for TimeBased (abort on u64 overflow), `template.expiry` for DateBased, unchanged for None; no other field changes |
| `Contract.ClaimUtilityOnNft` | contracts/utility_contract/src/lib.rs:320-367 | Ok iff sender = admin = provider, a map of the index holds the asset, and a TimeBased `expiry + now` does not overflow `u64`; `NotAuthorized` iff sender is admin, the entry exists and its provider differs; `UtilityNotFound` iff sender = admin = provider and the index is present but no map holds the asset; no other error |
| `Contract.RedeemUtilityOnNft` | contracts/utility_contract/src/lib.rs:369-402 | `NotAuthorized` iff not owner; for an owner: abort for a missing entry or index, `UtilityNotFound` when no map holds the asset, and with template and instance found `UtilityExpired` when expired, else `UsageExceeded` when the instance is Limited and the template usage is 0, else Ok |
| `Contract.CheckOutcome` | contracts/utility_contract/src/lib.rs:404-439 | false without a registry; `UtilityNotFound` for an absent id; when the index lookup fails, abort for a missing `TOKEN_U` and `UtilityNotFound` when no map holds the asset; with template and instance found, the answer is `Usable`: not (expiry type None and instance expiry < now) and not (template usage type != Limited and instance usage = 0) |
| `Contract.UtilityContract.constructor` | contracts/utility_contract/src/lib.rs:12-20 | a fresh deployment stores nothing but the given per-asset index |
| `Contract.UtilityContract.SetupConfig` | contracts/utility_contract/src/lib.rs:24-39 | returns the admin, and the new storage is `SetupConfigStep` of the old |
| `Contract.UtilityContract.CreateUtility` | contracts/utility_contract/src/lib.rs:61-119 | the new storage is `CreateUtilityStep` of the old |
| `Contract.UtilityContract.ClaimReward` | contracts/utility_contract/src/lib.rs:192-270 | outcome and new storage are `ClaimRewardStep` of the old storage, with the pool decrement and claim mark staged until commit |
| `Contract.UtilityContract.MarkEligible` | contracts/utility_contract/src/lib.rs:271-291 | outcome and new storage are `MarkEligibleStep` of the old |
| `Contract.UtilityContract.GetTokenUtility` | contracts/utility_contract/src/lib.rs:304-318 | the scan with early return answers `TokenUtilityOf` (the first map holding the asset wins) |
| `Contract.UtilityContract.CheckUtility` | contracts/utility_contract/src/lib.rs:404-439 | the accumulator version answers `CheckOutcome` |
| `Properties.TokenIndexNeverWritten` | contracts/utility_contract/src/lib.rs:304-309 | no sequence of invocations changes the `TOKEN_U` index |
| `Properties.NftPathsNeverSucceed` | contracts/utility_contract/src/lib.rs:320-439 | from a deployment without the index, `claim_utitlity_on_nft` and `redeem_utility_on_nft` never succeed and `check_utility` never answers true |
| `Properties.ClaimLedgerOnlyGrows` | contracts/utility_contract/src/lib.rs:222-234 | the claim ledger only grows over any sequence of invocations |
| `Properties.StepEvolves` | contracts/utility_contract/src/lib.rs:104-118 | every invocation except `setup_config` keeps each registry entry at its index, changing at most its pool, and only downwards |
| `Properties.RunEvolves` | contracts/utility_contract/src/lib.rs:61-263 | the same over any sequence of invocations without `setup_config`: ids stay dense and append-only, and pools never increase |
| `Properties.RaffleRewardUnclaimable` | contracts/utility_contract/src/lib.rs:185 | without a reset, a Raffle utility stored with `ended = false` never pays a reward, because the ended flag is never stored |
| `Properties.ConfigRoundTrip` | contracts/utility_contract/src/lib.rs:24-54 | `get_config` answers "No Admin Set" on a fresh deployment and `a` after `setup_config(a)` |
| `Properties.SetupResetsRegistry` | contracts/utility_contract/src/lib.rs:32-34 | after `setup_config` no id resolves, the next creation takes id 0, and the ledger is kept |
| `Properties.ClaimSurvivesReset` | contracts/utility_contract/src/lib.rs:223-231 | a user who claimed id 0 before a reset gets `AlreadyClaimed` on the new utility at id 0 |
| `Properties.CreateAppends` | contracts/utility_contract/src/lib.rs:104-118 | after one creation, `get_utility(old length)` answers the new entry with `sender` as provider, and every earlier id answers as before |
| `Properties.CreateAllAppends` | contracts/utility_contract/src/lib.rs:104-118 | n creations append exactly their n utilities, in order, with provider replaced by each sender |
| `Properties.IdsAreAppendOnly` | contracts/utility_contract/src/lib.rs:61-118 | the k-th of n creations resolves at id `old length + k`, and earlier ids are unchanged |
| `Properties.JoinRaffleErrorOrder` | contracts/utility_contract/src/lib.rs:135-147 | with a registry: out of range aborts; then `NotAuthorized`, `RaffleExpired` (only when `offer_expiry < now`), `InvalidRaffleSelection`, in that order |
| `Properties.EndRaffleErrorOrder` | contracts/utility_contract/src/lib.rs:162-183 | abort for an id past the end of a present registry (the `unwrap()` of `get`); then `RaffleAlreadyEnded`, `NotAuthorized`, `InvalidRaffleSelection`, `RaffleNotEnded` (when `now < offer_expiry`), in that order |
| `Properties.EndRaffleRepeats` | contracts/utility_contract/src/lib.rs:185 | a successful `end_raffle` leaves storage unchanged and succeeds again at any later time |
| `Properties.ClaimRewardErrorOrder` | contracts/utility_contract/src/lib.rs:194-258 | abort when no admin is stored (the `unwrap()`), then `NotAuthorized`, then abort for a missing entry, `AllRewardsClaimed`, `RaffleNotEnded`, `AlreadyClaimed`, abort for no token address, `InvalidReceiptType`, in that order |
| `Properties.ClaimRewardSuccess` | contracts/utility_contract/src/lib.rs:210-263 | on success the entry's pool drops by exactly `amount_per_win`, `(id, user)` becomes claimed (it was not), one mint or transfer of `amount_per_win` to `user` on the first token is logged, and no other entry, claim or store part changes |
| `Properties.UnsupportedReceiptRollsBack` | contracts/utility_contract/src/lib.rs:253-258 | None/HTSToken receipts fail `InvalidReceiptType` with neither the decrement nor the claim mark committed |
| `Properties.ClaimTwice` | contracts/utility_contract/src/lib.rs:222-231 | repeating a successful claim stores nothing; the pool stays at its post-first-claim value; the error is `AlreadyClaimed`, or `AllRewardsClaimed` when the first claim drained the pool |
| `Properties.ClaimThroughAliasedId` | contracts/utility_contract/src/lib.rs:208-223 | `id` and `id + 2^32` address the same entry but separate ledger keys, so one user is paid twice and the pool drops by `2 * amount_per_win` |
| `Properties.ClaimKeepsReady` | contracts/utility_contract/src/lib.rs:210-234 | one funded claim by a new user succeeds, takes one payout and marks the user |
| `Properties.PoolConservation` | contracts/utility_contract/src/lib.rs:210-234 | k funded claims by distinct new users all succeed and leave `total_amount - k * amount_per_win`, marking exactly those k pairs and logging k issuances |
| `Properties.PoolExhaustion` | contracts/utility_contract/src/lib.rs:210-212 | a pool funded for exactly n payouts pays n distinct users, and then any further claim fails `AllRewardsClaimed` |
| `Properties.MarkEligibleTwice` | contracts/utility_contract/src/lib.rs:282-290 | marking the same pair twice appends two entries (no de-duplication) |
| `Properties.FirstMapWins` | contracts/utility_contract/src/lib.rs:311-315 | the first map holding the asset decides the answer of `get_token_utility` |
| `Properties.BindNeedsAdminProvider` | contracts/utility_contract/src/lib.rs:332-345 | a sender who is not the admin gets a plain panic, checked first; success implies the provider is the admin |
| `Properties.RedeemExpiryAgreesWithCheck` | contracts/utility_contract/src/lib.rs:385-387 | for an owner whose template and instance are found: a `UtilityExpired` failure implies `check_utility` answers false, and an expired instance always gives `UtilityExpired` from redemption and false from the check |
| `Properties.RedeemNeverConsumes` | contracts/utility_contract/src/lib.rs:389-396 | a successful redemption stores nothing, so the next one succeeds as well |
| `Properties.CheckDisagreesWithRedeem` | contracts/utility_contract/src/lib.rs:423-427 | with a Limited instance whose template usage is 0, redemption fails `UsageExceeded` while `check_utility` answers true |

## Left out

- `check_nft_ownership` calls the Stellar asset contract. Its answer is the `isOwner` parameter of `RedeemUtilityOnNft`.
- The token `mint` and `transfer_from` calls in `claim_reward` are recorded as `Issuance` log entries, with no token semantics. A failure inside the token contract would roll the claim back; that failure is not modelled.
- Event publication is fire-and-forget and is omitted.
- Soroban storage details are not modelled: serialisation, entry lifetimes, and `symbol_short!` keys. The ledger timestamp is the `now` parameter.
- The admin is written as a `String` by `setup_config` but read as an `Address` by `claim_reward`, `mark_eligible` and `claim_utitlity_on_nft`. Both are abstracted as one `Identity` type (a string). In the program as written, the typed read of a `String` as an `Address` fails its conversion, so those three entry points panic at the admin read whenever an admin is stored; every success path the model proves for them (`ClaimRewardSuccess`, `PoolConservation`, `MarkEligibleStep`'s Ok and the like) exists only under this shared-identity abstraction.
- Contract.CreateUtilityStep: does not model the host's cap on the length of a `Vec`. The registry grows without bound.
- Contract.BindInstance: treats `u64` overflow of `expiry + now` as a panic. This assumes overflow checks are enabled in the build profile; the crate's Cargo.toml is not part of this model.
- The commented-out validation in `create_utility` and the merkle-proof stub in `claim_utitlity_on_nft` do not execute, so they are not modelled.
- The unused enums `UtilityType` and `EligibleType` are not modelled. `no_of_winners` is kept as a field, but no code enforces it.
- test.rs is test code and is used only as evidence. `test_nft_ownership` depends on the host.
