/**
 * The stock projector: the signed change of one item, the product lookup and
 * update primitives (`products.find`, `updateProduct`), the forward pass that
 * updates stock and writes one movement per item, with the insufficient-stock
 * guard of a recorded sale, and the reversal pass of revise and retract.
 *
 * Every read sees the earlier writes of the same pass: an item whose product
 * repeats is checked and applied against the balance the previous item left.
 */
module Stock {
  import opened Wrappers
  import opened Types
  import opened Movements

  /** Signed stock effect of one item: `+quantity` for a purchase, `-quantity` for a sale. */
  function QuantityChange(kind: TransactionType, quantity: int): (change: int)
    ensures quantity > 0 ==> (change > 0 <==> kind == Purchase) && (change < 0 <==> kind == Sale)
    ensures change == quantity || change == -quantity
  {
    match kind
    case Purchase => quantity
    case Sale => -quantity
  }

  /** `products.find(p => p.id === id)`: the first product with that id. */
  function FindProduct(products: seq<Product>, id: string): (r: Option<Product>)
    ensures r.Some? ==> r.value.id == id && r.value in products
    ensures r.Some? ==> exists k :: 0 <= k < |products| && products[k] == r.value && forall j :: 0 <= j < k ==> products[j].id != id
    ensures r.None? <==> forall k :: 0 <= k < |products| ==> products[k].id != id
  {
    if |products| == 0 then None
    else if products[0].id == id then Some(products[0])
    else
      var r := FindProduct(products[1..], id);
      assert r.Some? ==> exists k :: 0 <= k < |products| && products[k] == r.value && forall j :: 0 <= j < k ==> products[j].id != id by {
        if r.Some? {
          var k :| 0 <= k < |products[1..]| && products[1..][k] == r.value && forall j :: 0 <= j < k ==> products[1..][j].id != id;
          assert products[k + 1] == r.value;
          forall j | 0 <= j < k + 1
            ensures products[j].id != id
          {
            if j > 0 {
              assert products[j] == products[1..][j - 1];
            }
          }
        }
      }
      r
  }

  predicate Known(products: seq<Product>, id: string) {
    FindProduct(products, id).Some?
  }

  /** Stock of the product a lookup by id finds (0 when there is none). */
  function StockOf(products: seq<Product>, id: string): int {
    match FindProduct(products, id)
    case Some(p) => p.currentStock
    case None => 0
  }

  predicate UniqueProductIds(products: seq<Product>) {
    forall i, j :: 0 <= i < j < |products| ==> products[i].id != products[j].id
  }

  /** `updateProduct`: every product with the given product's id is replaced by it. */
  function UpdateProduct(products: seq<Product>, product: Product): (r: seq<Product>)
    ensures |r| == |products|
  {
    seq(|products|, k requires 0 <= k < |products| => if products[k].id == product.id then product else products[k])
  }

  /** After an update, a lookup of the updated id finds the new product (when
      the id was known), and a lookup of any other id finds what it found before. */
  lemma {:induction false} FindAfterUpdate(products: seq<Product>, product: Product, id: string)
    ensures FindProduct(UpdateProduct(products, product), id)
         == if id == product.id && Known(products, id) then Some(product) else FindProduct(products, id)
  {
    if |products| > 0 {
      var r := UpdateProduct(products, product);
      assert r[1..] == UpdateProduct(products[1..], product);
      assert r[0] == if products[0].id == product.id then product else products[0];
      FindAfterUpdate(products[1..], product, id);
    }
  }

  /** With unique ids, updating the product at position `k` with a product of
      the same id changes that position only. */
  lemma {:induction false} UpdateProductAt(products: seq<Product>, k: nat, product: Product)
    requires UniqueProductIds(products)
    requires k < |products| && products[k].id == product.id
    ensures UpdateProduct(products, product) == products[k := product]
    ensures UniqueProductIds(UpdateProduct(products, product))
  {
  }

  /** The product after one item's signed change has been applied to its stock. */
  function Moved(p: Product, kind: TransactionType, quantity: int): (r: Product)
    ensures r.id == p.id && r.name == p.name
    ensures r == p.(currentStock := r.currentStock)
    ensures r.currentStock - p.currentStock == QuantityChange(kind, quantity)
  {
    p.(currentStock := p.currentStock + QuantityChange(kind, quantity))
  }

  /** Net signed change the items make to one product. */
  function NetChange(kind: TransactionType, items: seq<TransactionItem>, id: string): int
  {
    if |items| == 0 then 0
    else
      (if items[0].productId == id then QuantityChange(kind, items[0].quantity) else 0)
      + NetChange(kind, items[1..], id)
  }

  lemma {:induction false} NetChangeAppend(kind: TransactionType, a: seq<TransactionItem>, b: seq<TransactionItem>, id: string)
    ensures NetChange(kind, a + b, id) == NetChange(kind, a, id) + NetChange(kind, b, id)
  {
    if |a| > 0 {
      assert (a + b)[1..] == a[1..] + b;
      NetChangeAppend(kind, a[1..], b, id);
    } else {
      assert a + b == b;
    }
  }

  /** Every product's stock moved by the items' net change, forward or back:
      the reference description of both passes. */
  function Adjusted(products: seq<Product>, kind: TransactionType, items: seq<TransactionItem>, forward: bool): (r: seq<Product>)
    ensures |r| == |products|
  {
    seq(|products|, k requires 0 <= k < |products| =>
      var delta := NetChange(kind, items, products[k].id);
      products[k].(currentStock := if forward then products[k].currentStock + delta else products[k].currentStock - delta))
  }

  /** Moving stock forward and then back by the same items restores every product, and so does the converse. */
  lemma {:induction false} AdjustedInverse(products: seq<Product>, kind: TransactionType, items: seq<TransactionItem>, forward: bool)
    ensures Adjusted(Adjusted(products, kind, items, forward), kind, items, !forward) == products
  {
    var a := Adjusted(products, kind, items, forward);
    var b := Adjusted(a, kind, items, !forward);
    assert forall k :: 0 <= k < |products| ==> b[k] == products[k];
  }

  datatype StockError = InsufficientStock(productId: string, productName: string, available: int, requested: int)

  /** A refused sale: the error thrown, and the product list as the updates of
      the items before the short one left it when the throw came. */
  datatype Refusal = Refusal(error: StockError, products: seq<Product>)

  /**
   * The insufficient-stock guard of a recorded sale (AppContext.tsx:110-117,
   * 137-141): items are visited in listed order, each against the balance the
   * earlier items of the same sale left; the first item whose product holds
   * less than its quantity is reported with that product's name and stock.
   * Items whose product is unknown are skipped; an item that passes has
   * already moved its product's stock when a later item is refused.
   */
  function CheckSale(products: seq<Product>, items: seq<TransactionItem>): (r: Option<Refusal>)
    ensures r.Some? ==> r.value.error.available < r.value.error.requested
    ensures r.Some? ==> |r.value.products| == |products|
    ensures r.Some? ==> exists i :: 0 <= i < |items| && items[i].productId == r.value.error.productId
                                    && items[i].quantity == r.value.error.requested
    decreases |items|
  {
    if |items| == 0 then None
    else
      var item := items[0];
      match FindProduct(products, item.productId)
      case None =>
        var r := CheckSale(products, items[1..]);
        assert r.Some? ==> exists i :: 0 < i < |items| && items[i].productId == r.value.error.productId
                                        && items[i].quantity == r.value.error.requested by {
          if r.Some? {
            var j :| 0 <= j < |items[1..]| && items[1..][j].productId == r.value.error.productId
                     && items[1..][j].quantity == r.value.error.requested;
            assert items[j + 1] == items[1..][j];
          }
        }
        r
      case Some(p) =>
        if p.currentStock < item.quantity then Some(Refusal(InsufficientStock(p.id, p.name, p.currentStock, item.quantity), products))
        else
          var r := CheckSale(UpdateProduct(products, Moved(p, Sale, item.quantity)), items[1..]);
          assert r.Some? ==> exists i :: 0 < i < |items| && items[i].productId == r.value.error.productId
                                          && items[i].quantity == r.value.error.requested by {
            if r.Some? {
              var j :| 0 <= j < |items[1..]| && items[1..][j].productId == r.value.error.productId
                       && items[1..][j].quantity == r.value.error.requested;
              assert items[j + 1] == items[1..][j];
            }
          }
          r
  }

  datatype Projection = Projection(products: seq<Product>, movements: seq<StockMovement>)

  /**
   * The forward pass over a transaction's items in listed order
   * (AppContext.tsx:119-151 for record, 258-280 for revise): each item whose
   * product is known moves that product's stock by its signed change and
   * writes one movement carrying the fresh id `movementIds[i]`, the
   * transaction's id and date, the change and the balance it left. An item
   * whose product is unknown is skipped.
   */
  function Apply(products: seq<Product>, kind: TransactionType, transactionId: string, date: string,
                 items: seq<TransactionItem>, movementIds: seq<string>): (r: Projection)
    requires |movementIds| == |items|
    ensures |r.products| == |products| && |r.movements| <= |items|
    decreases |items|
  {
    if |items| == 0 then Projection(products, [])
    else
      var item := items[0];
      match FindProduct(products, item.productId)
      case None => Apply(products, kind, transactionId, date, items[1..], movementIds[1..])
      case Some(p) =>
        var p' := Moved(p, kind, item.quantity);
        var rest := Apply(UpdateProduct(products, p'), kind, transactionId, date, items[1..], movementIds[1..]);
        var movement := StockMovement(movementIds[0], item.productId, transactionId, date, QuantityChange(kind, item.quantity), p'.currentStock);
        Projection(rest.products, [movement] + rest.movements)
  }

  /** An update never changes which ids a lookup finds. */
  lemma {:induction false} FindAfterUpdateKnown(products: seq<Product>, product: Product)
    requires Known(products, product.id)
    ensures forall id :: Known(UpdateProduct(products, product), id) == Known(products, id)
  {
    forall id {
      FindAfterUpdate(products, product, id);
    }
  }

  /**
   * The reversal pass of revise and retract (AppContext.tsx:198-210,
   * 290-302): each item's signed change is taken back out of its product's
   * stock, with no lower bound; unknown products are skipped.
   */
  function Revert(products: seq<Product>, kind: TransactionType, items: seq<TransactionItem>): (r: seq<Product>)
    ensures |r| == |products|
    decreases |items|
  {
    if |items| == 0 then products
    else
      match FindProduct(products, items[0].productId)
      case None => Revert(products, kind, items[1..])
      case Some(p) =>
        Revert(UpdateProduct(products, p.(currentStock := p.currentStock - QuantityChange(kind, items[0].quantity))),
               kind, items[1..])
  }
}
