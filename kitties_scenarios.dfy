/** Runs of the kitties pallet on the test runtime: a reservation fee of 4, an
    existential deposit of 1 and genesis free balances of 200, 300 and 400 for
    accounts 0, 1 and 2. */
module KittiesScenarios {
  import opened Runtime
  import opened KittyTypes
  import Currency
  import OwnerIndex
  import Kitties

  const RESERVATION_FEE: Balance := 4
  const EXISTENTIAL_DEPOSIT: Balance := 1

  /** The DNA (or selector) the randomness source hands out in these runs. */
  const SomeDna: Dna := seq(16, i requires 0 <= i < 16 => i as bv8)

  method TestRuntime() returns (p: Kitties.Pallet)
    ensures fresh(p) && p.Valid()
    ensures p.reservationFee == RESERVATION_FEE && p.kittiesCount == None
    ensures p.kitties == map[] && p.owner == map[] && p.kittyMarket == map[] && p.kittyBabies == map[]
    ensures p.currency == Currency.Balances(map[0 := 200, 1 := 300, 2 := 400], map[], EXISTENTIAL_DEPOSIT)
  {
    p := new Kitties.Pallet(RESERVATION_FEE, map[0 := 200, 1 := 300, 2 := 400], EXISTENTIAL_DEPOSIT);
  }

  /** The test runtime after account 0 has minted kitties 0 and 1. */
  method TwoKitties() returns (p: Kitties.Pallet)
    ensures fresh(p) && p.Valid()
    ensures p.reservationFee == RESERVATION_FEE && p.kittiesCount == Some(2)
    ensures 0 in p.kitties && 1 in p.kitties && p.kitties[1] == Kitty(SomeDna)
    ensures p.OwnerOf(0) == Some(0) && p.OwnerOf(1) == Some(0)
    ensures OwnerIndex.BabiesOf(p.kittyBabies, 0) == [0, 1] && p.kittyMarket == map[]
    ensures Currency.Free(p.currency, 0) == 192 && Currency.Free(p.currency, 1) == 300
  {
    p := TestRuntime();
    var first := p.Create(0, SomeDna);
    assert first == Ok && OwnerIndex.BabiesOf(p.kittyBabies, 0) == [0];
    var second := p.Create(0, SomeDna);
  }

  /** The test runtime after account 0 has minted kitty 0 and listed it at 20. */
  method OneListed() returns (p: Kitties.Pallet)
    ensures fresh(p) && p.Valid()
    ensures p.reservationFee == RESERVATION_FEE && p.kittiesCount == Some(1)
    ensures p.OwnerOf(0) == Some(0) && p.PriceOf(0) == 20
    ensures OwnerIndex.BabiesOf(p.kittyBabies, 0) == [0] && OwnerIndex.BabiesOf(p.kittyBabies, 1) == []
    ensures p.currency == Currency.Balances(map[0 := 196, 1 := 300, 2 := 400], map[0 := 4], EXISTENTIAL_DEPOSIT)
  {
    p := TestRuntime();
    var created := p.Create(0, SomeDna);
    var listed := p.SellKitties(0, 0, 20);
  }

  /** Account 0 mints kitty 0: 4 of its 200 are reserved, the counter moves to
      1 and its list is `[0]`. */
  method CreateWorks() returns (r: DispatchResult<Error>, free0: Balance, count: Option<KittyIndex>,
                                owner0: Option<AccountId>, list0: seq<KittyIndex>)
    ensures r == Ok && free0 == 196 && count == Some(1) && owner0 == Some(0) && list0 == [0]
  {
    var p := TestRuntime();
    r := p.Create(0, SomeDna);
    free0 := Currency.Free(p.currency, 0);
    count := p.kittiesCount;
    owner0 := p.OwnerOf(0);
    list0 := OwnerIndex.BabiesOf(p.kittyBabies, 0);
  }

  /** Kitty 0 passes from account 0 to account 1; a second transfer by
      account 0 is refused, since it no longer owns the kitty. */
  method TransferWorks() returns (r: DispatchResult<Error>, list0: seq<KittyIndex>, list1: seq<KittyIndex>,
                                  again: DispatchResult<Error>, owner0: Option<AccountId>)
    ensures r == Ok && list0 == [] && list1 == [0]
    ensures again == Err(NotOwner) && owner0 == Some(1)
  {
    var p := TestRuntime();
    var created := p.Create(0, SomeDna);
    r := p.Transfer(0, 1, 0);
    list0 := OwnerIndex.BabiesOf(p.kittyBabies, 0);
    list1 := OwnerIndex.BabiesOf(p.kittyBabies, 1);
    again := p.Transfer(0, 1, 0);
    owner0 := p.OwnerOf(0);
  }

  /** Account 0 breeds its kitties 0 and 1 into kitty 2, which lands at the end
      of its list and costs no reservation; a later mint by account 1 gets id
      3. */
  method BreedWorks() returns (r: DispatchResult<Error>, owner2: Option<AccountId>, list0: seq<KittyIndex>,
                               free0: Balance, count: Option<KittyIndex>)
    ensures r == Ok && owner2 == Some(0)
    ensures |list0| == 3 && list0[2] == 2
    ensures free0 == 192 && count == Some(4)
  {
    var p := TwoKitties();
    r := p.Breed(0, 0, 1, SomeDna);
    owner2 := p.OwnerOf(2);
    list0 := OwnerIndex.BabiesOf(p.kittyBabies, 0);
    free0 := Currency.Free(p.currency, 0);
    var third := p.Create(1, SomeDna);
    count := p.kittiesCount;
  }

  /** Breeding needs no ownership of the parents: account 1 breeds account 0's
      kitties and owns the child. */
  method BreedByStranger() returns (r: DispatchResult<Error>, owner2: Option<AccountId>)
    ensures r == Ok && owner2 == Some(1)
  {
    var p := TwoKitties();
    r := p.Breed(1, 0, 1, SomeDna);
    owner2 := p.OwnerOf(2);
  }

  /** Account 0 lists kitty 0 at 20; account 1 cannot relist it, and the price
      stays 20. */
  method SellWorks() returns (r: DispatchResult<Error>, stranger: DispatchResult<Error>, price: Balance)
    ensures r == Ok && stranger == Err(NotOwner) && price == 20
  {
    var p := TestRuntime();
    var first := p.Create(0, SomeDna);
    var second := p.Create(1, SomeDna);
    r := p.SellKitties(0, 0, 20);
    stranger := p.SellKitties(1, 0, 30);
    price := p.PriceOf(0);
  }

  /** Account 1 buys kitty 0, listed at 20 by account 0.  As the transfer is
      written, the 20 move from the seller (200 - 20) to the buyer
      (300 + 20); the seller's fee of 4 is released.  The listing is gone, so
      account 2 cannot buy the kitty again. */
  method BuyWorks() returns (r: DispatchResult<Error>, owner0: Option<AccountId>,
                             list0: seq<KittyIndex>, list1: seq<KittyIndex>,
                             sellerFree: Balance, buyerFree: Balance, again: DispatchResult<Error>)
    ensures r == Ok && owner0 == Some(1) && list0 == [] && list1 == [0]
    ensures sellerFree == 180 && buyerFree == 320
    ensures again == Err(InvalidKittyIndex)
  {
    var p := OneListed();
    r := p.BuyKitties(1, 0);
    owner0 := p.OwnerOf(0);
    list0 := OwnerIndex.BabiesOf(p.kittyBabies, 0);
    list1 := OwnerIndex.BabiesOf(p.kittyBabies, 1);
    sellerFree := Currency.Free(p.currency, 0);
    buyerFree := Currency.Free(p.currency, 1);
    again := p.BuyKitties(2, 0);
  }

  /** A price of 0 is accepted by `sell_kitties` but reads as "not listed", so
      the kitty cannot be bought. */
  method ZeroPriceIsUnlisted() returns (listed: DispatchResult<Error>, bought: DispatchResult<Error>)
    ensures listed == Ok && bought == Err(InvalidKittyIndex)
  {
    var p := TestRuntime();
    var created := p.Create(0, SomeDna);
    listed := p.SellKitties(0, 0, 0);
    bought := p.BuyKitties(1, 0);
  }

  /** A listing survives a transfer: the new owner's kitty is still on sale at
      the price the previous owner set. */
  method ListingSurvivesTransfer() returns (r: DispatchResult<Error>, price: Balance, owner0: Option<AccountId>)
    ensures r == Ok && price == 20 && owner0 == Some(1)
  {
    var p := OneListed();
    r := p.Transfer(0, 1, 0);
    price := p.PriceOf(0);
    owner0 := p.OwnerOf(0);
  }

  /** With kitties 0 and 1 minted and only kitty 1 listed, the market report
      holds exactly that listing. */
  method QueryWorks() returns (info: seq<KittyInfoById>)
    ensures info == [KittyInfoById(1, KittyInfo(0, 20, Kitty(SomeDna)))]
  {
    var p := TwoKitties();
    var listed := p.SellKitties(0, 1, 20);
    info := p.QueryKittyMarketInfo();
  }
}
