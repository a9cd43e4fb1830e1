/**
 * The profit attributor: the purchase price attached to each item of a
 * recorded sale, and the cost and profit of a sale.
 */
module Attribution {
  import opened Wrappers
  import opened Types
  import opened Stock

  /** Some item of a stored purchase transaction buys `productId` at unit price `price`. */
  ghost predicate PurchasedAt(history: seq<Transaction>, productId: string, price: int) {
    exists t, i :: 0 <= t < |history| && history[t].kind == Purchase && 0 <= i < |history[t].items|
      && history[t].items[i].productId == productId && history[t].items[i].unitPrice == price
  }

  ghost predicate HasPurchase(history: seq<Transaction>, productId: string) {
    exists price :: PurchasedAt(history, productId, price)
  }

  /** `price` is the highest unit price any stored purchase paid for the product. */
  ghost predicate IsMaxPurchasePrice(history: seq<Transaction>, productId: string, price: int) {
    PurchasedAt(history, productId, price) && forall other :: PurchasedAt(history, productId, other) ==> other <= price
  }

  function MaxOption(a: Option<int>, b: Option<int>): Option<int> {
    match (a, b)
    case (None, _) => b
    case (_, None) => a
    case (Some(x), Some(y)) => if x >= y then a else b
  }

  /** Highest unit price among the items for one product. */
  function MaxItemPrice(items: seq<TransactionItem>, productId: string): (r: Option<int>)
    ensures r.None? <==> forall i :: 0 <= i < |items| ==> items[i].productId != productId
    ensures r.Some? ==> exists i :: 0 <= i < |items| && items[i].productId == productId && items[i].unitPrice == r.value
    ensures r.Some? ==> forall i :: 0 <= i < |items| && items[i].productId == productId ==> items[i].unitPrice <= r.value
  {
    if |items| == 0 then None
    else
      var rest := MaxItemPrice(items[1..], productId);
      assert forall i :: 1 <= i < |items| ==> items[i] == items[1..][i - 1];
      MaxOption(if items[0].productId == productId then Some(items[0].unitPrice) else None, rest)
  }

  /** The first stored transaction is a purchase that bought `productId` at `price`. */
  ghost predicate FirstPurchasedAt(history: seq<Transaction>, productId: string, price: int)
    requires |history| > 0
  {
    history[0].kind == Purchase
    && exists i :: 0 <= i < |history[0].items| && history[0].items[i].productId == productId
                   && history[0].items[i].unitPrice == price
  }

  /** Highest unit price the first stored transaction paid for the product, if it is a purchase. */
  function FirstPurchasePrice(history: seq<Transaction>, productId: string): (r: Option<int>)
    requires |history| > 0
    ensures r.None? ==> forall price :: !FirstPurchasedAt(history, productId, price)
    ensures r.Some? ==> FirstPurchasedAt(history, productId, r.value)
    ensures r.Some? ==> forall price :: FirstPurchasedAt(history, productId, price) ==> price <= r.value
  {
    if history[0].kind == Purchase then MaxItemPrice(history[0].items, productId) else None
  }

  /**
   * The purchase price attached to a sold product (AppContext.tsx:126-130):
   * the purchase transactions' items for that product, sorted by unit price
   * from high to low, and the first one's unit price taken; `None` when no
   * stored purchase bought the product.
   */
  function MaxPurchasePrice(history: seq<Transaction>, productId: string): (r: Option<int>)
    ensures r.None? <==> !HasPurchase(history, productId)
    ensures r.Some? ==> IsMaxPurchasePrice(history, productId, r.value)
  {
    if |history| == 0 then None
    else
      var here := FirstPurchasePrice(history, productId);
      var rest := MaxPurchasePrice(history[1..], productId);
      PurchasedAtSplit(history, productId);
      MaxOptionBounds(here, rest);
      MaxOption(here, rest)
  }

  /** The larger of two optional prices is one of them and bounds both. */
  lemma {:induction false} MaxOptionBounds(a: Option<int>, b: Option<int>)
    ensures MaxOption(a, b).None? <==> a.None? && b.None?
    ensures MaxOption(a, b).Some? ==> MaxOption(a, b) == a || MaxOption(a, b) == b
    ensures a.Some? ==> MaxOption(a, b).Some? && a.value <= MaxOption(a, b).value
    ensures b.Some? ==> MaxOption(a, b).Some? && b.value <= MaxOption(a, b).value
  {
  }

  /** A purchase in the history is one in its first transaction or one in the rest. */
  lemma {:induction false} PurchasedAtSplit(history: seq<Transaction>, productId: string)
    requires |history| > 0
    ensures forall price :: PurchasedAt(history, productId, price) <==>
      FirstPurchasedAt(history, productId, price) || PurchasedAt(history[1..], productId, price)
  {
    forall price | PurchasedAt(history, productId, price)
      ensures FirstPurchasedAt(history, productId, price) || PurchasedAt(history[1..], productId, price)
    {
      var t, i :| 0 <= t < |history| && history[t].kind == Purchase && 0 <= i < |history[t].items|
        && history[t].items[i].productId == productId && history[t].items[i].unitPrice == price;
      if t > 0 {
        assert history[1..][t - 1] == history[t];
      }
    }
    forall price | PurchasedAt(history[1..], productId, price)
      ensures PurchasedAt(history, productId, price)
    {
      var t, i :| 0 <= t < |history[1..]| && history[1..][t].kind == Purchase && 0 <= i < |history[1..][t].items|
        && history[1..][t].items[i].productId == productId && history[1..][t].items[i].unitPrice == price;
      assert history[t + 1] == history[1..][t];
    }
  }

  /**
   * Purchase-price attribution over a sale's items (AppContext.tsx:124-134):
   * an item whose product is known and was bought by some stored purchase
   * gets the highest such unit price; every other item, and every other
   * field, is left as it was.
   */
  function AttributeItems(products: seq<Product>, history: seq<Transaction>, items: seq<TransactionItem>): (r: seq<TransactionItem>)
    ensures |r| == |items|
    ensures forall i :: 0 <= i < |items| ==> r[i] == items[i].(purchasePrice := r[i].purchasePrice)
    ensures forall i :: 0 <= i < |items| && Known(products, items[i].productId) && HasPurchase(history, items[i].productId) ==>
              r[i].purchasePrice.Some? && IsMaxPurchasePrice(history, items[i].productId, r[i].purchasePrice.value)
    ensures forall i :: 0 <= i < |items| && !(Known(products, items[i].productId) && HasPurchase(history, items[i].productId)) ==>
              r[i] == items[i]
  {
    seq(|items|, i requires 0 <= i < |items| =>
      var item := items[i];
      if Known(products, item.productId) && MaxPurchasePrice(history, item.productId).Some?
      then item.(purchasePrice := MaxPurchasePrice(history, item.productId))
      else item)
  }

  /** Cost of one sold item: its purchase price times its quantity, when the purchase price is set and non-zero. */
  function ItemCost(item: TransactionItem): int {
    match item.purchasePrice
    case Some(price) => if price != 0 then price * item.quantity else 0
    case None => 0
  }

  /** `totalCost` (AppContext.tsx:162-167): the items' costs added up. */
  function SaleCost(items: seq<TransactionItem>): int {
    if |items| == 0 then 0 else ItemCost(items[0]) + SaleCost(items[1..])
  }

  /** Reference reading of the cost: every item with a purchase price contributes price × quantity. */
  function ResolvedCost(items: seq<TransactionItem>): int {
    if |items| == 0 then 0
    else (if items[0].purchasePrice.Some? then items[0].purchasePrice.value * items[0].quantity else 0) + ResolvedCost(items[1..])
  }

  /** Skipping a zero purchase price (JavaScript truthiness) never changes the cost. */
  lemma {:induction false} SaleCostIsResolvedCost(items: seq<TransactionItem>)
    ensures SaleCost(items) == ResolvedCost(items)
  {
    if |items| > 0 {
      SaleCostIsResolvedCost(items[1..]);
    }
  }

  /** `profit = totalAmount - totalCost` (AppContext.tsx:169). */
  function SaleProfit(tx: Transaction): int {
    tx.totalAmount - SaleCost(tx.items)
  }
}
