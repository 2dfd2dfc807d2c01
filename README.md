# Kitties and proof-of-existence pallets in Dafny

This project models two runtime modules (pallets) of a Substrate chain and proves properties of the models.

**The kitties pallet** (`pallets/kitties/src/lib.rs`) is a ledger of 16-byte DNA assets. It keeps five storage items:

- `KittiesCount`, the next id to allocate;
- `Kitties`, the DNA of each id;
- `Owner`, the owner of each id;
- `KittyMarket`, an asking price per id, where 0 means "not listed";
- `KittyBabies`, the list of ids each account owns.

Its calls are `create`, `transfer`, `breed`, `sell_kitties` and `buy_kitties`. Its helpers are `push_kitty_babies_list`, `remove_kittyid_from_kitty_babies_list` and the read-only report `query_kittiy_market_info`.

The pallet is the class `Kitties.Pallet`. Its fields are the five storage items and the balances of the runtime currency. Each call is a method that returns `Ok` or `Err(e)`. On `Err` every field is unchanged: the model takes each call to be transactional and writes only after the last check (see "## Left out" for the one case where the source writes before a check). On `Ok` the method states the whole new state.

`Valid()` is the class invariant, and every call preserves it:

- the minted ids are exactly those below the counter;
- each minted id has DNA and an owner;
- only minted ids are listed;
- `KittyBabies` agrees with `Owner`: every list is duplicate-free, and an id is in the list of `a` exactly when `a` owns it.

The randomness (`random_value`, a blake2 hash of the block's random seed, the caller and the extrinsic index) is a 16-byte input. It is the `dna` of `Create` and the `selector` of `Breed`.

The currency is modelled in module `Currency` as free and reserved balance maps:

- `reserve` fails when the free balance is too small;
- `unreserve` releases at most what is reserved;
- `transfer` with `KeepAlive` is refused in three cases: the sender lacks the amount, the receiver would stay below the existential deposit, or the sender would drop below it. It does nothing for a zero amount or a transfer to oneself.

The model follows the code where it differs from the pallet's comments and design notes:

- `buy_kitties` calls the currency transfer from the old owner to the buyer (`lib.rs:294`). The price therefore moves from the seller to the buyer, the reverse of the comment above the call. `KittiesScenarios.BuyWorks` shows the seller going from 200 to 180 and the buyer from 300 to 320.
- `breed` does not check that the caller owns the parents, and it reserves no fee.
- `transfer` leaves an existing market listing in place. The listing then still reads as being for sale by the new owner.
- `query_kittiy_market_info` casts the u64 count to i64 before scanning. A count of 2^63 or more turns negative, and the scan reports nothing.

**The proof-of-existence pallet** (`pallets/proof/src/lib.rs`) is the class `ProofOfExistence.Pallet`. It maps claim bytes to the owning account and the block number of registration.

- `create_claim` refuses claims longer than `MaxAddend` and claims already present.
- `revoke_claim` and `transfer_claim` refuse missing claims and claims of another owner.
- `transfer_claim` keeps the block number and does not check the length.
- The invariant that every stored claim respects the length bound is preserved by all three calls.

The module `KittiesScenarios` replays the tests of the kitties pallet on the test runtime: fee 4, existential deposit 1, and genesis balances 200, 300 and 400 for accounts 0, 1 and 2. Its contracts state the concrete outcomes.

## Model

| member | source | states |
|---|---|---|
| Currency.Reserve | pallets/kitties/src/lib.rs:131-132 | succeeds exactly when the free balance covers the amount; moves the amount from free to reserved; leaves every other account alone |
| Currency.Unreserve | pallets/kitties/src/lib.rs:186 | keeps the account's total; reserved drops by the amount or to 0; other accounts untouched |
| Currency.Transfer | pallets/kitties/src/lib.rs:294 | no-op for zero or self transfers; errors in order InsufficientBalance, ExistentialDeposit, KeepAlive; succeeds exactly when none of them applies; on success moves exactly `value` from source to dest and leaves the source alive |
| Breeding.MixByte | pallets/kitties/src/lib.rs:238 | each child bit comes from `a` where the selector bit is 1 and from `b` where it is 0; selector 0xFF gives `a`, 0 gives `b`; equal parents give that byte; no bit set outside both parents |
| Breeding.MixDna | pallets/kitties/src/lib.rs:234-239 | the byte loop over a zeroed 16-byte buffer yields `Mix(selector, dna1, dna2)` |
| Breeding.Mix | pallets/kitties/src/lib.rs:234-239 | in all 16 bytes, each child bit equals parent A's bit where the selector bit is 1 and parent B's bit where it is 0 |
| Breeding.MixIdenticalParents | pallets/kitties/src/lib.rs:236-239 | breeding two identical DNAs reproduces that DNA for any selector |
| Breeding.MixConstantSelector | pallets/kitties/src/lib.rs:236-239 | an all-ones selector copies the first parent, an all-zeros selector the second |
| Breeding.MixInherits | pallets/kitties/src/lib.rs:236-239 | every set bit of a child byte is set in one parent; bytes the parents share are inherited |
| OwnerIndex.IndexOf | pallets/kitties/src/lib.rs:351-352 | the first position holding the id |
| OwnerIndex.RemoveKittyId | pallets/kitties/src/lib.rs:349-355 | the loop over the cloned list swap-removes the id at its position, and leaves the list as it was when the id is absent |
| OwnerIndex.SwapRemove | pallets/kitties/src/lib.rs:353 | `Vec::swap_remove(k)`: one element shorter, the old last element now at `k`, every other position as before |
| OwnerIndex.Without | pallets/kitties/src/lib.rs:349-355 | the list with the id swap-removed: one shorter when present, unchanged when absent |
| OwnerIndex.Push | pallets/kitties/src/lib.rs:334-345 | the index after the push: the account's list gains the id at the end, every other account's list is unchanged |
| OwnerIndex.Remove | pallets/kitties/src/lib.rs:348-357 | the index after the removal: the account's entry is written with the id removed, every other account's list is unchanged |
| OwnerIndex.Consistent | pallets/kitties/src/lib.rs:90-107 | the invariant tying `KittyBabies` to `Owner` (duplicate-free lists; listed under `a` exactly when owned by `a`); the empty genesis state satisfies it |
| OwnerIndex.SwapRemovePermutes | pallets/kitties/src/lib.rs:353 | swap-remove shortens the list by one and removes exactly that element from its multiset |
| OwnerIndex.SwapRemoveMembership | pallets/kitties/src/lib.rs:353 | after swap-removing a once-occurring value, the members are the old ones minus that value |
| OwnerIndex.SwapRemoveDistinct | pallets/kitties/src/lib.rs:353 | swap-remove keeps a duplicate-free list duplicate-free |
| OwnerIndex.WithoutRemovesExactly | pallets/kitties/src/lib.rs:348-357 | removal drops exactly the id (length - 1, multiset minus the id), is the identity when the id is absent, and keeps lists duplicate-free |
| OwnerIndex.ConsistentExactlyOnce | pallets/kitties/src/lib.rs:104-107 | under the index invariant an id occurs once in its owner's list and in no other list |
| OwnerIndex.MintKeepsConsistent | pallets/kitties/src/lib.rs:152-157 | giving a fresh id to an account and appending it to its list keeps the index consistent with `Owner` |
| OwnerIndex.MoveKeepsConsistent | pallets/kitties/src/lib.rs:183-192 | re-owning an id, removing it from the old list and appending it to the new one keeps the index consistent, also when both accounts are the same |
| Market.AsI64 | pallets/kitties/src/lib.rs:373 | the i64 cast of a u64 count is positive exactly when the count is positive and below 2^63 |
| Market.Listings | pallets/kitties/src/lib.rs:375-408 | the report over ids n-1 down to 0 has at most n entries |
| Market.ListingsSound | pallets/kitties/src/lib.rs:382-406 | every entry is a listed id below n with a nonzero price, and carries that price, the id's owner and its DNA |
| Market.ListingsComplete | pallets/kitties/src/lib.rs:375-408 | every id below n with a nonzero price has an entry |
| Market.ListingsDescending | pallets/kitties/src/lib.rs:375-380 | entries are in strictly descending id order |
| Kitties.Pallet.Valid | pallets/kitties/src/lib.rs:74-107 | the class invariant over the five storage items; with the counter unset no kitty, owner or listing exists |
| Kitties.Pallet.constructor | pallets/kitties/src/lib.rs:74-107 | empty storage with the given genesis balances satisfies the invariant |
| Kitties.Pallet.PushKittyBabiesList | pallets/kitties/src/lib.rs:334-345 | appends the id to the account's list, starting a one-element list when the account has none |
| Kitties.Pallet.RemoveKittyIdFromKittyBabiesList | pallets/kitties/src/lib.rs:348-357 | writes back the account's list with the id swap-removed (an entry is written even when the list was absent) |
| Kitties.Pallet.Mint | pallets/kitties/src/lib.rs:152-157 | stores the DNA and owner of the new id, advances the counter to id + 1, appends the id to the owner's list, and keeps the invariant |
| Kitties.Pallet.Move | pallets/kitties/src/lib.rs:183-192 | sets the new owner and moves the id from one list to the other, keeping the invariant |
| Kitties.Pallet.Create | pallets/kitties/src/lib.rs:126-163 | NoSufficientBalance when the fee cannot be reserved, else KittiesCountOverflow at the maximum counter; on success the id is the counter (0 when unset), the fee is reserved, and the kitty is minted to the caller; on error nothing changes |
| Kitties.Pallet.Transfer | pallets/kitties/src/lib.rs:169-196 | NotOwner unless the caller owns the id, else NoSufficientBalance when the new owner cannot reserve the fee; on success the owner and both lists change, the new owner's fee is reserved, the old owner's is released, and the listing is kept |
| Kitties.Pallet.Breed | pallets/kitties/src/lib.rs:202-252 | SameParentIndex, InvalidKittyIndex when a parent is missing, KittiesCountOverflow; on success the child has the mixed DNA, belongs to the caller (who need not own the parents) and is appended to the caller's list; no currency change |
| Kitties.Pallet.SellKitties | pallets/kitties/src/lib.rs:256-271 | NotOwner unless the caller owns the id; otherwise the price is set to the given value (0 included) and nothing else changes |
| Kitties.Pallet.BuyKitties | pallets/kitties/src/lib.rs:275-314 | InvalidKittyIndex when the price reads 0; NoSufficientBalance unless the buyer's free balance exceeds the price; a failing currency transfer from the old owner to the buyer aborts with its error; on success owner and lists move, the old owner's fee is released, the listing is removed |
| Kitties.Pallet.QueryKittyMarketInfo | pallets/kitties/src/lib.rs:360-414 | the report equals `Listings` over the ids below the count (none when the i64 cast is negative) and has at most `count` entries |
| KittiesScenarios.TestRuntime | pallets/kitties/src/mock.rs:101-107 | the test runtime starts with empty storage, fee 4, existential deposit 1 and balances 200, 300, 400 |
| KittiesScenarios.TwoKitties | pallets/kitties/src/tests.rs:52-54 | two mints by account 0 give ids 0 and 1, list `[0, 1]` and free balance 192 |
| KittiesScenarios.OneListed | pallets/kitties/src/tests.rs:95-97 | a mint and a listing at 20 by account 0 leave its free balance at 196 and 4 reserved |
| KittiesScenarios.CreateWorks | pallets/kitties/src/tests.rs:7-20 | create by account 0: free balance 196, owner 0, counter 1, list `[0]` |
| KittiesScenarios.TransferWorks | pallets/kitties/src/tests.rs:26-43 | transfer empties the sender's list and fills the receiver's; a repeated transfer fails with NotOwner |
| KittiesScenarios.BreedWorks | pallets/kitties/src/tests.rs:48-69 | the child is id 2, owned by 0, last in a list of length 3; no fee; a later mint makes the counter 4 |
| KittiesScenarios.BreedByStranger | pallets/kitties/src/lib.rs:207-214 | an account owning neither parent breeds them and owns the child |
| KittiesScenarios.SellWorks | pallets/kitties/src/tests.rs:74-87 | the owner lists at 20; a non-owner's relisting fails with NotOwner and the price stays 20 |
| KittiesScenarios.BuyWorks | pallets/kitties/src/tests.rs:92-109 | the buyer owns the kitty, the lists move, the seller ends with 180 and the buyer with 320, and a second buy fails with InvalidKittyIndex |
| KittiesScenarios.ZeroPriceIsUnlisted | pallets/kitties/src/lib.rs:264-279 | a listing at price 0 is accepted but the kitty cannot be bought |
| KittiesScenarios.ListingSurvivesTransfer | pallets/kitties/src/lib.rs:169-196 | after a transfer the old listing price is still in the market |
| KittiesScenarios.QueryWorks | pallets/kitties/src/lib.rs:360-414 | with kitties 0 and 1 and only 1 listed, the report holds exactly that listing |
| ProofOfExistence.Pallet.Valid | pallets/proof/src/lib.rs:65 | every stored claim is at most `MaxAddend` bytes long; the empty registry satisfies it |
| ProofOfExistence.Pallet.constructor | pallets/proof/src/lib.rs:28-30 | the registry starts empty and satisfies the length invariant |
| ProofOfExistence.Pallet.CreateClaim | pallets/proof/src/lib.rs:57-78 | ClaimOutLength above `MaxAddend` (equal is accepted), else ProofAlreadyExist; on success only this claim's entry is added, with the sender and the block number; the invariant is kept |
| ProofOfExistence.Pallet.RevokeClaim | pallets/proof/src/lib.rs:82-97 | ClaimNotExist, else NotClaimOwner; on success exactly this claim's entry is removed |
| ProofOfExistence.Pallet.TransferClaim | pallets/proof/src/lib.rs:101-121 | the same two errors; on success only the owner of this entry changes and its block number is kept; no length check |
| ProofOfExistence.ClaimLifecycle | pallets/proof/src/lib.rs:57-121 | create, duplicate refused, non-owner transfer refused, transfer keeps the block number, revoke, then the claim can be created again; a claim at the bound is accepted and one byte longer is refused |

## Left out

- Randomness: `random_value`, `blake2_128`, `Randomness::random_seed` and `extrinsic_index` are replaced by the DNA or selector passed to `Create` and `Breed`.
- The block number of `create_claim` is the parameter `now` (host clock).
- Origins: `ensure_signed` is modelled by passing the signed caller; unsigned origins and their `BadOrigin` error are not modelled.
- Events (`deposit_event`), `log::info!` output, weights and the encoding derives have no effect on state and are not modelled.
- The currency is an abstraction of the balances pallet: locks, named reserves, dust removal, provider references and the u128 width of balances are not modelled. Balances are unbounded naturals.
- Kitties.Pallet.RemoveKittyIdFromKittyBabiesList: requires the id to occur at most once in the list. With a duplicate, the source loop can index past the shrunken list and panic. The class invariant guarantees uniqueness.
- Kitties.Pallet.QueryKittyMarketInfo: requires `KittiesCount` to be set and the invariant to hold. The source unwraps the counter and each listed id's owner and DNA, and would panic otherwise.
- Storage transactionality is not modelled as a store overlay: each call is taken to be rolled back on error, and makes its writes only after its last check. The one place where this matters is `create` at the maximum counter: it reserves the fee (lib.rs:131) before the overflow check (lib.rs:139), so on a host without per-call rollback the fee would stay reserved after the `KittiesCountOverflow` error; the model leaves it unreserved.
- The `KittyIndex` type is fixed to u64, as in the test runtime. Other index widths are not modelled.
- The cross-chain pallet `pallets/xclient/src/lib.rs` and the commented-out code in both pallets are not part of this model.
