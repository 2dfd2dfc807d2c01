/** The `KittyMarket` listing map and the report `query_kittiy_market_info`
    builds from it by scanning ids from the newest down to 0. */
module Market {
  import opened Runtime
  import opened KittyTypes

  /** `KittyMarket::get`: an id with no entry reads as price 0, i.e. not listed. */
  function Price(market: map<KittyIndex, Balance>, id: KittyIndex): Balance {
    if id in market then market[id] else 0
  }

  /** 2^63: counts from here on turn negative when cast to i64. */
  const I64_LIMIT: int := 0x8000_0000_0000_0000

  /** `count as i64` for a u64 count: two's-complement wrap-around above i64::MAX. */
  function AsI64(count: KittyIndex): (c: int)
    ensures -I64_LIMIT <= c < I64_LIMIT
    ensures c > 0 <==> 0 < count < I64_LIMIT
  {
    if count < I64_LIMIT then count else count - 2 * I64_LIMIT
  }

  /** The report entry for a listed id. */
  function Entry(market: map<KittyIndex, Balance>, owner: map<KittyIndex, AccountId>,
                 kitties: map<KittyIndex, Kitty>, id: KittyIndex): KittyInfoById
    requires id in market && id in owner && id in kitties
  {
    KittyInfoById(id, KittyInfo(owner[id], market[id], kitties[id]))
  }

  /** The report over ids `n - 1` down to `0`: one entry per id whose price is not 0. */
  function Listings(n: nat, market: map<KittyIndex, Balance>, owner: map<KittyIndex, AccountId>,
                    kitties: map<KittyIndex, Kitty>): (r: seq<KittyInfoById>)
    requires n <= MAX_INDEX
    requires market.Keys <= owner.Keys && market.Keys <= kitties.Keys
    ensures |r| <= n
  {
    if n == 0 then []
    else
      var id: KittyIndex := n - 1;
      (if Price(market, id) == 0 then [] else [Entry(market, owner, kitties, id)])
        + Listings(n - 1, market, owner, kitties)
  }

  /** Every entry is a listed id below `n` and carries that id's price, owner and DNA. */
  lemma {:induction false} ListingsSound(n: nat, market: map<KittyIndex, Balance>, owner: map<KittyIndex, AccountId>,
                                         kitties: map<KittyIndex, Kitty>)
    requires n <= MAX_INDEX
    requires market.Keys <= owner.Keys && market.Keys <= kitties.Keys
    ensures forall e :: e in Listings(n, market, owner, kitties) ==>
      && e.kittyIndex < n
      && e.info.price == Price(market, e.kittyIndex) != 0
      && e.kittyIndex in owner && e.info.owner == owner[e.kittyIndex]
      && e.kittyIndex in kitties && e.info.kittyDna == kitties[e.kittyIndex]
  {
    if n > 0 {
      ListingsSound(n - 1, market, owner, kitties);
    }
  }

  /** Every id below `n` with a non-zero price has an entry. */
  lemma {:induction false} ListingsComplete(n: nat, market: map<KittyIndex, Balance>, owner: map<KittyIndex, AccountId>,
                                            kitties: map<KittyIndex, Kitty>, id: KittyIndex)
    requires n <= MAX_INDEX
    requires market.Keys <= owner.Keys && market.Keys <= kitties.Keys
    requires id < n && Price(market, id) != 0
    ensures exists k :: 0 <= k < |Listings(n, market, owner, kitties)| &&
                        Listings(n, market, owner, kitties)[k].kittyIndex == id
  {
    var rest := Listings(n - 1, market, owner, kitties);
    if id == n - 1 {
      assert Listings(n, market, owner, kitties)[0].kittyIndex == id;
    } else {
      ListingsComplete(n - 1, market, owner, kitties, id);
      var k :| 0 <= k < |rest| && rest[k].kittyIndex == id;
      var head := Listings(n, market, owner, kitties)[..|Listings(n, market, owner, kitties)| - |rest|];
      assert Listings(n, market, owner, kitties)[|head| + k].kittyIndex == id;
    }
  }

  /** Entries come in strictly descending id order (newest listing first). */
  lemma {:induction false} ListingsDescending(n: nat, market: map<KittyIndex, Balance>, owner: map<KittyIndex, AccountId>,
                                              kitties: map<KittyIndex, Kitty>)
    requires n <= MAX_INDEX
    requires market.Keys <= owner.Keys && market.Keys <= kitties.Keys
    ensures forall i, j :: 0 <= i < j < |Listings(n, market, owner, kitties)| ==>
      Listings(n, market, owner, kitties)[i].kittyIndex > Listings(n, market, owner, kitties)[j].kittyIndex
  {
    if n > 0 {
      ListingsDescending(n - 1, market, owner, kitties);
      ListingsSound(n - 1, market, owner, kitties);
      var rest := Listings(n - 1, market, owner, kitties);
      assert forall j :: 0 <= j < |rest| ==> rest[j] in rest;
    }
  }
}
