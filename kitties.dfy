/** The kitties pallet: a ledger of 16-byte DNA assets with minting, breeding,
    transfer, a fixed-price market and a market report.  Each call either
    commits all of its writes or fails with an error and leaves every field as
    it was: calls are taken to be transactional, and the model makes its
    writes only after the call's last check. */
module Kitties {
  import opened Runtime
  import opened KittyTypes
  import Currency
  import Breeding
  import OwnerIndex
  import Market

  class Pallet {
    /** The `ReservationFee` the runtime configures. */
    const reservationFee: Balance

    /** `KittiesCount`: the next id to allocate; None until the first mint. */
    var kittiesCount: Option<KittyIndex>
    /** `Kitties`: the DNA of every minted id. */
    var kitties: map<KittyIndex, Kitty>
    /** `Owner`: the owner of every minted id. */
    var owner: map<KittyIndex, AccountId>
    /** `KittyMarket`: asking prices; a missing entry reads as 0, "not listed". */
    var kittyMarket: map<KittyIndex, Balance>
    /** `KittyBabies`: the ids each account owns. */
    var kittyBabies: map<AccountId, seq<KittyIndex>>
    /** The balances of the runtime's currency. */
    var currency: Currency.Balances

    /** The id the next mint receives. */
    function NextId(): nat
      reads this
    {
      if kittiesCount.Some? then kittiesCount.value else 0
    }

    /** `Owner::get(id)`. */
    function OwnerOf(id: KittyIndex): Option<AccountId>
      reads this
    {
      if id in owner then Some(owner[id]) else None
    }

    /** `KittyMarket::get(id)`. */
    function PriceOf(id: KittyIndex): Balance
      reads this
    {
      Market.Price(kittyMarket, id)
    }

    /** The ids minted so far are exactly those below the counter, each has DNA
        and an owner, only minted ids are listed, and the owner index agrees
        with the owner map. */
    ghost predicate Valid()
      reads this
      ensures Valid() && kittiesCount == None ==> kitties == map[] && owner == map[] && kittyMarket == map[]
    {
      && (forall id :: id in kitties ==> id < NextId())
      && (forall id: KittyIndex :: id < NextId() ==> id in kitties)
      && owner.Keys == kitties.Keys
      && kittyMarket.Keys <= owner.Keys
      && OwnerIndex.Consistent(owner, kittyBabies)
    }

    /** Genesis: empty storage and the given free balances. */
    constructor (reservationFee: Balance, genesis: map<AccountId, Balance>, existentialDeposit: Balance)
      ensures Valid()
      ensures this.reservationFee == reservationFee
      ensures kittiesCount == None && kitties == map[] && owner == map[]
      ensures kittyMarket == map[] && kittyBabies == map[]
      ensures currency == Currency.Balances(genesis, map[], existentialDeposit)
    {
      this.reservationFee := reservationFee;
      kittiesCount := None;
      kitties := map[];
      owner := map[];
      kittyMarket := map[];
      kittyBabies := map[];
      currency := Currency.Balances(genesis, map[], existentialDeposit);
    }

    /** `push_kitty_babies_list`: appends `kittyId` to the list of `who`,
        starting a one-element list when `who` has none. */
    method PushKittyBabiesList(who: AccountId, kittyId: KittyIndex)
      modifies this`kittyBabies
      ensures kittyBabies == OwnerIndex.Push(old(kittyBabies), who, kittyId)
      ensures OwnerIndex.BabiesOf(kittyBabies, who) == OwnerIndex.BabiesOf(old(kittyBabies), who) + [kittyId]
    {
      if who in kittyBabies {
        var babies := kittyBabies[who];
        babies := babies + [kittyId];
        kittyBabies := kittyBabies[who := babies];
      } else {
        var babies := [kittyId];
        assert babies == OwnerIndex.BabiesOf(kittyBabies, who) + [kittyId];
        kittyBabies := kittyBabies[who := babies];
      }
    }

    /** `remove_kittyid_from_kitty_babies_list`: swap-removes `kittyId` from
        the list of `who` and writes the list back. */
    method RemoveKittyIdFromKittyBabiesList(who: AccountId, kittyId: KittyIndex)
      requires OwnerIndex.AtMostOnce(OwnerIndex.BabiesOf(kittyBabies, who), kittyId)
      modifies this`kittyBabies
      ensures kittyBabies == OwnerIndex.Remove(old(kittyBabies), who, kittyId)
    {
      var babies := OwnerIndex.BabiesOf(kittyBabies, who);
      babies := OwnerIndex.RemoveKittyId(babies, kittyId);
      kittyBabies := kittyBabies[who := babies];
    }

    /** The writes shared by `create` and `breed` once every check has passed. */
    method Mint(who: AccountId, kittyId: KittyIndex, kitty: Kitty)
      requires Valid()
      requires kittyId == NextId() < MAX_INDEX
      modifies this`kitties, this`owner, this`kittiesCount, this`kittyBabies
      ensures Valid()
      ensures kittyId !in old(owner)
      ensures kittiesCount == Some(kittyId + 1)
      ensures kitties == old(kitties)[kittyId := kitty]
      ensures owner == old(owner)[kittyId := who]
      ensures kittyBabies == OwnerIndex.Push(old(kittyBabies), who, kittyId)
    {
      OwnerIndex.MintKeepsConsistent(owner, kittyBabies, kittyId, who, owner[kittyId := who],
                                     OwnerIndex.Push(kittyBabies, who, kittyId));
      kitties := kitties[kittyId := kitty];
      owner := owner[kittyId := who];
      kittiesCount := Some(kittyId + 1);
      PushKittyBabiesList(who, kittyId);
    }

    /** The writes shared by `transfer` and `buy_kitties`: `kittyId` passes
        from `from` to `to` in the owner map and in the owner index. */
    method Move(from: AccountId, to: AccountId, kittyId: KittyIndex)
      requires Valid()
      requires OwnerOf(kittyId) == Some(from)
      modifies this`owner, this`kittyBabies
      ensures Valid()
      ensures owner == old(owner)[kittyId := to]
      ensures kittyBabies == OwnerIndex.Push(OwnerIndex.Remove(old(kittyBabies), from, kittyId), to, kittyId)
    {
      OwnerIndex.ConsistentExactlyOnce(owner, kittyBabies, from, kittyId);
      OwnerIndex.MoveKeepsConsistent(owner, kittyBabies, kittyId, from, to, owner[kittyId := to],
                                     OwnerIndex.Push(OwnerIndex.Remove(kittyBabies, from, kittyId), to, kittyId));
      owner := owner[kittyId := to];
      RemoveKittyIdFromKittyBabiesList(from, kittyId);
      PushKittyBabiesList(to, kittyId);
    }

    /** `create`: reserves the fee from `who`, then mints the next id with the
        given DNA (the hash of the block's randomness, `who` and the extrinsic
        index) and gives it to `who`. */
    method Create(who: AccountId, dna: Dna) returns (r: DispatchResult<Error>)
      requires Valid()
      modifies this
      ensures Valid()
      ensures r.Ok? <==> reservationFee <= Currency.Free(old(currency), who) && old(kittiesCount) != Some(MAX_INDEX)
      ensures reservationFee > Currency.Free(old(currency), who) ==> r == Err(NoSufficientBalance)
      ensures reservationFee <= Currency.Free(old(currency), who) && old(kittiesCount) == Some(MAX_INDEX) ==>
                r == Err(KittiesCountOverflow)
      ensures r.Err? ==> unchanged(this)
      ensures r.Ok? ==>
        && old(NextId()) < MAX_INDEX
        && old(NextId()) !in old(owner)
        && kittiesCount == Some(old(NextId()) + 1)
        && kitties == old(kitties)[old(NextId()) := Kitty(dna)]
        && owner == old(owner)[old(NextId()) := who]
        && kittyBabies == OwnerIndex.Push(old(kittyBabies), who, old(NextId()))
        && kittyMarket == old(kittyMarket)
        && currency == Currency.Reserve(old(currency), who, reservationFee).value
    {
      var reserved := Currency.Reserve(currency, who, reservationFee);
      if reserved.Failure? {
        return Err(NoSufficientBalance);
      }
      var kittyId: KittyIndex;
      match kittiesCount {
        case Some(id) =>
          if id == MAX_INDEX {
            return Err(KittiesCountOverflow);
          }
          kittyId := id;
        case None =>
          kittyId := 0;
      }
      currency := reserved.value;
      Mint(who, kittyId, Kitty(dna));
      r := Ok;
    }

    /** `transfer`: the owner `who` hands `kittyId` to `newOwner`, who must be
        able to reserve the fee; the fee `who` had reserved is released.  A
        listing of the kitty stays in the market. */
    method Transfer(who: AccountId, newOwner: AccountId, kittyId: KittyIndex) returns (r: DispatchResult<Error>)
      requires Valid()
      modifies this
      ensures Valid()
      ensures old(OwnerOf(kittyId)) != Some(who) ==> r == Err(NotOwner)
      ensures old(OwnerOf(kittyId)) == Some(who) && reservationFee > Currency.Free(old(currency), newOwner) ==>
                r == Err(NoSufficientBalance)
      ensures r.Ok? <==> old(OwnerOf(kittyId)) == Some(who) && reservationFee <= Currency.Free(old(currency), newOwner)
      ensures r.Err? ==> unchanged(this)
      ensures r.Ok? ==>
        && owner == old(owner)[kittyId := newOwner]
        && kittyBabies == OwnerIndex.Push(OwnerIndex.Remove(old(kittyBabies), who, kittyId), newOwner, kittyId)
        && currency == Currency.Unreserve(Currency.Reserve(old(currency), newOwner, reservationFee).value,
                                          who, reservationFee)
        && kittyMarket == old(kittyMarket)
        && kitties == old(kitties)
        && kittiesCount == old(kittiesCount)
    {
      if OwnerOf(kittyId) != Some(who) {
        return Err(NotOwner);
      }
      var reserved := Currency.Reserve(currency, newOwner, reservationFee);
      if reserved.Failure? {
        return Err(NoSufficientBalance);
      }
      currency := Currency.Unreserve(reserved.value, who, reservationFee);
      Move(who, newOwner, kittyId);
      r := Ok;
    }

    /** `breed`: mints a child of two distinct existing kitties for `who`,
        mixing their DNA under `selector`.  The caller need not own either
        parent, and no fee is reserved. */
    method Breed(who: AccountId, kittyId1: KittyIndex, kittyId2: KittyIndex, selector: Dna)
      returns (r: DispatchResult<Error>)
      requires Valid()
      modifies this
      ensures Valid()
      ensures kittyId1 == kittyId2 ==> r == Err(SameParentIndex)
      ensures kittyId1 != kittyId2 && (kittyId1 !in old(kitties) || kittyId2 !in old(kitties)) ==>
                r == Err(InvalidKittyIndex)
      ensures (kittyId1 != kittyId2 && kittyId1 in old(kitties) && kittyId2 in old(kitties)
               && old(kittiesCount) == Some(MAX_INDEX)) ==> r == Err(KittiesCountOverflow)
      ensures r.Ok? <==> kittyId1 != kittyId2 && kittyId1 in old(kitties) && kittyId2 in old(kitties)
                         && old(kittiesCount) != Some(MAX_INDEX)
      ensures r.Err? ==> unchanged(this)
      ensures r.Ok? ==>
        && kittyId1 in old(kitties) && kittyId2 in old(kitties)
        && old(NextId()) < MAX_INDEX
        && old(NextId()) !in old(owner)
        && kittiesCount == Some(old(NextId()) + 1)
        && kitties == old(kitties)[old(NextId()) :=
             Kitty(Breeding.Mix(selector, old(kitties)[kittyId1].dna, old(kitties)[kittyId2].dna))]
        && owner == old(owner)[old(NextId()) := who]
        && kittyBabies == OwnerIndex.Push(old(kittyBabies), who, old(NextId()))
        && kittyMarket == old(kittyMarket)
        && currency == old(currency)
    {
      if kittyId1 == kittyId2 {
        return Err(SameParentIndex);
      }
      if kittyId1 !in kitties || kittyId2 !in kitties {
        return Err(InvalidKittyIndex);
      }
      var kitty1 := kitties[kittyId1];
      var kitty2 := kitties[kittyId2];
      var childKittyId: KittyIndex := 0;
      match kittiesCount {
        case Some(id) =>
          if id == MAX_INDEX {
            return Err(KittiesCountOverflow);
          }
          childKittyId := id;
        case None =>
          // the parents exist, so some kitty was minted and this arm is not reached
      }
      var newDna := Breeding.MixDna(selector, kitty1.dna, kitty2.dna);
      Mint(who, childKittyId, Kitty(newDna));
      r := Ok;
    }

    /** `sell_kitties`: the owner lists `kittyId` at `sellingValue`, replacing
        any earlier price; a price of 0 is accepted and reads as "not listed". */
    method SellKitties(who: AccountId, kittyId: KittyIndex, sellingValue: Balance) returns (r: DispatchResult<Error>)
      requires Valid()
      modifies this
      ensures Valid()
      ensures r.Ok? <==> old(OwnerOf(kittyId)) == Some(who)
      ensures r.Err? ==> r.error == NotOwner && unchanged(this)
      ensures r.Ok? ==>
        && kittyMarket == old(kittyMarket)[kittyId := sellingValue]
        && PriceOf(kittyId) == sellingValue
        && owner == old(owner)
        && kitties == old(kitties)
        && kittiesCount == old(kittiesCount)
        && kittyBabies == old(kittyBabies)
        && currency == old(currency)
    {
      if OwnerOf(kittyId) != Some(who) {
        return Err(NotOwner);
      }
      kittyMarket := kittyMarket[kittyId := sellingValue];
      r := Ok;
    }

    /** `buy_kitties`: `newOwner` takes a listed kitty.  The buyer's free
        balance must exceed the price; the currency transfer of the price runs
        from the old owner to the buyer, as the call is written; the old
        owner's fee is released, none is reserved for the buyer, and the
        listing is removed. */
    method BuyKitties(newOwner: AccountId, kittyId: KittyIndex) returns (r: DispatchResult<Error>)
      requires Valid()
      modifies this
      ensures Valid()
      ensures old(PriceOf(kittyId)) == 0 ==> r == Err(InvalidKittyIndex)
      ensures old(PriceOf(kittyId)) != 0 && Currency.Free(old(currency), newOwner) <= old(PriceOf(kittyId)) ==>
                r == Err(NoSufficientBalance)
      ensures old(PriceOf(kittyId)) != 0 ==> kittyId in old(owner)
      ensures old(PriceOf(kittyId)) != 0 && Currency.Free(old(currency), newOwner) > old(PriceOf(kittyId)) ==>
                var paid := Currency.Transfer(old(currency), old(owner)[kittyId], newOwner, old(PriceOf(kittyId)));
                (paid.Failure? ==> r == Err(TransferFailed(paid.error))) && (paid.Success? ==> r.Ok?)
      ensures r.Err? ==> unchanged(this)
      ensures r.Ok? ==>
        && old(PriceOf(kittyId)) != 0
        && Currency.Free(old(currency), newOwner) > old(PriceOf(kittyId))
        && kittyId in old(owner)
        && var seller := old(owner)[kittyId];
           var paid := Currency.Transfer(old(currency), seller, newOwner, old(PriceOf(kittyId)));
           && paid.Success?
           && owner == old(owner)[kittyId := newOwner]
           && kittyBabies == OwnerIndex.Push(OwnerIndex.Remove(old(kittyBabies), seller, kittyId), newOwner, kittyId)
           && currency == Currency.Unreserve(paid.value, seller, reservationFee)
           && kittyMarket == old(kittyMarket) - {kittyId}
           && PriceOf(kittyId) == 0
           && kitties == old(kitties)
           && kittiesCount == old(kittiesCount)
    {
      if PriceOf(kittyId) == 0 {
        return Err(InvalidKittyIndex);
      }
      var kittyPrice := PriceOf(kittyId);
      var oldOwner := owner[kittyId];
      if Currency.Free(currency, newOwner) <= kittyPrice {
        return Err(NoSufficientBalance);
      }
      var paid := Currency.Transfer(currency, oldOwner, newOwner, kittyPrice);
      if paid.Failure? {
        return Err(TransferFailed(paid.error));
      }
      currency := Currency.Unreserve(paid.value, oldOwner, reservationFee);
      kittyMarket := kittyMarket - {kittyId};
      Move(oldOwner, newOwner, kittyId);
      r := Ok;
    }

    /** `query_kittiy_market_info`: scans ids from the counter down to 0 and
        reports each listed one with its owner, price and DNA.  The counter is
        unwrapped, so some kitty must have been minted; the scan counter is the
        count cast to i64, so a count of 2^63 or more scans nothing. */
    method QueryKittyMarketInfo() returns (marketInfo: seq<KittyInfoById>)
      requires Valid()
      requires kittiesCount.Some?
      ensures var n := kittiesCount.value;
              marketInfo == Market.Listings(if n < Market.I64_LIMIT then n else 0, kittyMarket, owner, kitties)
      ensures |marketInfo| <= kittiesCount.value
    {
      var count: int := kittiesCount.value;
      var numbers: KittyIndex := count;
      var counter: int := Market.AsI64(numbers);
      ghost var scanned: nat := if numbers < Market.I64_LIMIT then numbers else 0;
      marketInfo := [];
      while counter > 0
        invariant numbers < Market.I64_LIMIT ==> 0 <= counter == count <= numbers
        invariant numbers >= Market.I64_LIMIT ==> counter < 0 && marketInfo == []
        invariant marketInfo + Market.Listings(if counter > 0 then counter else 0, kittyMarket, owner, kitties)
                  == Market.Listings(scanned, kittyMarket, owner, kitties)
      {
        counter := counter - 1;
        count := count - 1;
        if Market.Price(kittyMarket, count) == 0 {
          continue;
        } else {
          var price := Market.Price(kittyMarket, count);
          var kittyOwner := owner[count];
          var kittyDna := kitties[count];
          marketInfo := marketInfo + [KittyInfoById(count, KittyInfo(kittyOwner, price, kittyDna))];
        }
      }
    }
  }
}
