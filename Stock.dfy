/**
 * The stock-status badge of the product list: a four-way classification of a
 * product's current stock against its minimum and maximum levels, checked in
 * a fixed order (zero, then the minimum, then the maximum).
 */
module Stock {
  import opened Wrappers

  datatype Status = OutOfStock | Low | Normal | Overstock

  /** `getStockStatusBadge` on a product's current, minimum and maximum stock, tested in the component's order. */
  function Classify(stock: int, min: int, max: int): Status {
    if stock == 0 then OutOfStock
    else if stock <= min then Low
    else if stock >= max then Overstock
    else Normal
  }

  /** The text of the badge, which is also the value of the stock-status filter. */
  function Label(s: Status): string {
    match s
    case OutOfStock => "在庫切れ"
    case Low => "在庫少"
    case Normal => "正常"
    case Overstock => "在庫過多"
  }

  /** The non-empty options of the stock-status filter, in the order offered. */
  const FilterOptions: seq<string> := ["在庫切れ", "在庫少", "正常", "在庫過多"]

  /** The status a filter value selects, if any. */
  function StatusOfLabel(l: string): (r: Option<Status>)
    ensures r.Some? <==> l in FilterOptions
    ensures r.Some? ==> Label(r.value) == l
  {
    if l == "在庫切れ" then Some(OutOfStock)
    else if l == "在庫少" then Some(Low)
    else if l == "正常" then Some(Normal)
    else if l == "在庫過多" then Some(Overstock)
    else None
  }

  /** Each badge text is one filter option, and it selects that very status back. */
  lemma LabelIsFilterOption(s: Status)
    ensures Label(s) in FilterOptions
    ensures StatusOfLabel(Label(s)) == Some(s)
  {
  }

  /** Stock 0 is out of stock whatever the thresholds. */
  lemma ZeroIsOutOfStock(min: int, max: int)
    ensures Classify(0, min, max) == OutOfStock
  {
  }

  /**
   * The four outcomes, each as a condition on the inputs alone. The minimum is
   * tested before the maximum, so a non-zero stock at or below the minimum is
   * low even when it is also at or above the maximum; with a minimum of 0 or
   * more, that makes every negative stock low.
   */
  lemma ClassifyCases(stock: int, min: int, max: int)
    ensures Classify(stock, min, max) == OutOfStock <==> stock == 0
    ensures Classify(stock, min, max) == Low <==> stock != 0 && stock <= min
    ensures Classify(stock, min, max) == Overstock <==> stock != 0 && min < stock && max <= stock
    ensures Classify(stock, min, max) == Normal <==> stock != 0 && min < stock < max
  {
  }

  /** The default thresholds 10 and 1000: both boundaries are inclusive. */
  lemma DefaultThresholdBoundaries()
    ensures Classify(10, 10, 1000) == Low
    ensures Classify(11, 10, 1000) == Normal
    ensures Classify(999, 10, 1000) == Normal
    ensures Classify(1000, 10, 1000) == Overstock
  {
  }

  /**
   * The condition the products endpoint applies for a `stock_status` filter
   * value. Any other value adds no condition and so matches every product.
   */
  predicate ServerFilterMatches(filter: string, stock: int, min: int, max: int) {
    if filter == "在庫切れ" then stock == 0
    else if filter == "在庫少" then stock > 0 && stock <= min
    else if filter == "在庫過多" then stock >= max
    else if filter == "正常" then stock > min && stock < max
    else true
  }

  /**
   * The badge and the server's filter agree whenever the stock is not negative
   * and 0 <= min < max: the filter for a label selects exactly the products
   * that show that label.
   */
  lemma BadgeAgreesWithServerFilter(s: Status, stock: int, min: int, max: int)
    requires 0 <= stock && 0 <= min < max
    ensures ServerFilterMatches(Label(s), stock, min, max) <==> Classify(stock, min, max) == s
  {
  }

  /**
   * Outside those conditions they can differ. With a minimum of 0 or more, a
   * negative stock shows the low badge, but the low filter does not select it.
   * A non-zero stock with max <= stock <= min (a minimum at or above the
   * maximum) shows the low badge and is selected by the overstock filter.
   */
  lemma BadgeAndServerFilterCanDiffer(stock: int, min: int, max: int)
    ensures stock < 0 && 0 <= min ==>
      Classify(stock, min, max) == Low && !ServerFilterMatches("在庫少", stock, min, max)
    ensures stock != 0 && max <= stock <= min ==>
      Classify(stock, min, max) == Low && ServerFilterMatches("在庫過多", stock, min, max)
    ensures Classify(-1, 10, 1000) == Low && !ServerFilterMatches("在庫少", -1, 10, 1000)
    ensures Classify(5, 10, 5) == Low && ServerFilterMatches("在庫過多", 5, 10, 5)
  {
  }
}
