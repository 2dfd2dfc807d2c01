/** The values the kitties pallet stores and reports. */
module KittyTypes {
  import opened Runtime
  import Currency

  /** `KittyIndex::max_value()`; the test runtime uses u64. */
  const MAX_INDEX: int := 0xFFFF_FFFF_FFFF_FFFF

  type KittyIndex = x: int | 0 <= x <= MAX_INDEX

  /** Sixteen bytes of generative data. */
  type Dna = s: seq<bv8> | |s| == 16 witness seq(16, _ => 0 as bv8)

  datatype Kitty = Kitty(dna: Dna)

  /** One entry of the market report: who owns the kitty, its asking price and its DNA. */
  datatype KittyInfo = KittyInfo(owner: AccountId, price: Balance, kittyDna: Kitty)

  datatype KittyInfoById = KittyInfoById(kittyIndex: KittyIndex, info: KittyInfo)

  datatype Error =
    | KittiesCountOverflow
    | NotOwner
    | SameParentIndex
    | InvalidKittyIndex
    | NoSufficientBalance
      /** An error of the currency transfer in `buy_kitties`, passed on unchanged. */
    | TransferFailed(reason: Currency.CurrencyError)
}
