/** The price breakdown of `src/components/ProductModal.jsx` for the two
    transaction modes. Prices and deposits are whole euros; the fee and the
    total due are exact rationals (the display rounding is not modelled). */
module Pricing {
  import opened Catalog

  /** The marketplace tab the item is viewed under. */
  datatype Mode = Rent | Buy

  /** The platform fee rate of a mode: 2% for renting, 4% for buying. */
  function FeeRate(mode: Mode): (rate: real)
    ensures rate == 0.02 || rate == 0.04
    ensures mode == Rent <==> rate == 0.02
  {
    if mode == Rent then 0.02 else 0.04
  }

  /** The price shown as "Daily Rental Rate" or "Purchase Price". */
  function BasePrice(item: Item, mode: Mode): (base: nat)
    ensures mode == Rent ==> base == item.priceRent
    ensures mode == Buy ==> base == item.priceBuy
  {
    if mode == Rent then item.priceRent else item.priceBuy
  }

  /** The deposit charged: the item's deposit when renting, none when
      buying. */
  function DepositDue(item: Item, mode: Mode): (d: nat)
    ensures mode == Rent ==> d == item.deposit
    ensures mode == Buy ==> d == 0
  {
    if mode == Rent then item.deposit else 0
  }

  /** `total`: the pre-fee amount, daily rate plus deposit when renting,
      purchase price when buying. */
  function Total(item: Item, mode: Mode): (t: nat)
    ensures t == BasePrice(item, mode) + DepositDue(item, mode)
  {
    if mode == Rent then item.priceRent + item.deposit else item.priceBuy
  }

  /** `fees`: the rate of the mode applied to the base price. */
  function Fee(item: Item, mode: Mode): (f: real)
    ensures f == BasePrice(item, mode) as real * FeeRate(mode)
    ensures 0.0 <= f <= BasePrice(item, mode) as real
  {
    if mode == Rent then item.priceRent as real * 0.02 else item.priceBuy as real * 0.04
  }

  /** `feeLabel`. */
  function FeeLabel(mode: Mode): (caption: string)
    ensures caption == "2% Platform Fee" || caption == "4% Platform Fee"
  {
    if mode == Rent then "2% Platform Fee" else "4% Platform Fee"
  }

  /** The "Total Due" line: pre-fee total plus fee. */
  function TotalDue(item: Item, mode: Mode): (due: real)
    ensures due >= BasePrice(item, mode) as real
  {
    Total(item, mode) as real + Fee(item, mode)
  }

  /** The total due is base price, deposit due and the fee on the base
      price, added up. */
  lemma TotalDueBreakdown(item: Item, mode: Mode)
    ensures TotalDue(item, mode) ==
              BasePrice(item, mode) as real + DepositDue(item, mode) as real
              + BasePrice(item, mode) as real * FeeRate(mode)
  {
  }

  /** The label names the rate actually charged. */
  lemma FeeLabelMatchesRate(mode: Mode)
    ensures FeeLabel(mode) == "2% Platform Fee" <==> FeeRate(mode) == 0.02
    ensures FeeLabel(mode) == "4% Platform Fee" <==> FeeRate(mode) == 0.04
  {
  }

  /** Every figure of the breakdown, per mode: renting shows the daily rate,
      charges the deposit and 2% of the daily rate; buying shows the purchase
      price, charges no deposit and 4% of the purchase price. */
  lemma BreakdownPerMode(item: Item)
    ensures BasePrice(item, Rent) == item.priceRent && BasePrice(item, Buy) == item.priceBuy
    ensures DepositDue(item, Rent) == item.deposit && DepositDue(item, Buy) == 0
    ensures Total(item, Rent) == item.priceRent + item.deposit && Total(item, Buy) == item.priceBuy
    ensures Fee(item, Rent) == item.priceRent as real * 0.02 && Fee(item, Buy) == item.priceBuy as real * 0.04
  {
  }

  /** Renting: daily rate plus deposit plus 2% of the daily rate. */
  lemma RentTotalDue(item: Item)
    ensures TotalDue(item, Rent) == item.priceRent as real * 1.02 + item.deposit as real
  {
  }

  /** Buying: purchase price plus 4%, whatever the deposit. */
  lemma BuyTotalDue(item: Item, deposit: nat)
    ensures TotalDue(item, Buy) == item.priceBuy as real * 1.04
    ensures TotalDue(item.(deposit := deposit), Buy) == TotalDue(item, Buy)
  {
  }
}
