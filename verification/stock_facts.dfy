/**
 * What the stock projector's passes do to stock levels and to the movement
 * ledger, proved by induction over the items.
 */
module StockFacts {
  import opened Wrappers
  import opened Types
  import opened Movements
  import opened Stock

  /** Stock a lookup finds after an update of a known product. */
  lemma {:induction false} StockAfterUpdate(products: seq<Product>, product: Product, id: string)
    requires Known(products, product.id)
    ensures Known(UpdateProduct(products, product), id) == Known(products, id)
    ensures StockOf(UpdateProduct(products, product), id) == if id == product.id then product.currentStock else StockOf(products, id)
  {
    FindAfterUpdate(products, product, id);
  }

  /** The net change of a non-empty prefix splits into its head item and the rest. */
  lemma {:induction false} NetChangeOfPrefix(kind: TransactionType, items: seq<TransactionItem>, i: nat, id: string)
    requires 0 < i <= |items|
    ensures NetChange(kind, items[..i], id)
         == (if items[0].productId == id then QuantityChange(kind, items[0].quantity) else 0)
            + NetChange(kind, items[1..][..i - 1], id)
  {
    assert items[..i][0] == items[0];
    assert items[..i][1..] == items[1..][..i - 1];
  }

  /** Running balances seen from the second item on, after the head item's
      update, are the balances seen from the start over the longer prefix. */
  lemma {:induction false} BalanceShift(products: seq<Product>, kind: TransactionType, items: seq<TransactionItem>, i: nat, id: string)
    requires 0 < i <= |items|
    requires Known(products, items[0].productId) && Known(products, id)
    ensures
      var p := FindProduct(products, items[0].productId).value;
      var p' := Moved(p, kind, items[0].quantity);
      && Known(UpdateProduct(products, p'), id)
      && StockOf(UpdateProduct(products, p'), id) + NetChange(kind, items[1..][..i - 1], id)
         == StockOf(products, id) + NetChange(kind, items[..i], id)
  {
    var p := FindProduct(products, items[0].productId).value;
    var p' := Moved(p, kind, items[0].quantity);
    StockAfterUpdate(products, p', id);
    NetChangeOfPrefix(kind, items, i, id);
  }

  /** Every movement of the forward pass belongs to the transaction, carries its
      date, and concerns a product the store knows. */
  lemma {:induction false} ApplyTagsMovements(products: seq<Product>, kind: TransactionType, transactionId: string, date: string,
                                              items: seq<TransactionItem>, movementIds: seq<string>)
    requires |movementIds| == |items|
    ensures forall m :: m in Apply(products, kind, transactionId, date, items, movementIds).movements ==>
              m.transactionId == transactionId && m.date == date && Known(products, m.productId)
    decreases |items|
  {
    if |items| > 0 {
      var item := items[0];
      match FindProduct(products, item.productId)
      case None =>
        ApplyTagsMovements(products, kind, transactionId, date, items[1..], movementIds[1..]);
      case Some(p) =>
        var p' := Moved(p, kind, item.quantity);
        FindAfterUpdateKnown(products, p');
        ApplyTagsMovements(UpdateProduct(products, p'), kind, transactionId, date, items[1..], movementIds[1..]);
    }
  }

  /** The forward pass keeps the set of known products, moves each known
      product's stock by the items' net change, and writes movements that add
      up to exactly that change (and to nothing for an unknown id). */
  lemma {:induction false} ApplyStock(products: seq<Product>, kind: TransactionType, transactionId: string, date: string,
                                      items: seq<TransactionItem>, movementIds: seq<string>, id: string)
    requires |movementIds| == |items|
    ensures var r := Apply(products, kind, transactionId, date, items, movementIds);
      && Known(r.products, id) == Known(products, id)
      && (Known(products, id) ==> StockOf(r.products, id) == StockOf(products, id) + NetChange(kind, items, id))
      && MovementSum(r.movements, id) == if Known(products, id) then NetChange(kind, items, id) else 0
    decreases |items|
  {
    if |items| > 0 {
      var item := items[0];
      match FindProduct(products, item.productId)
      case None =>
        ApplyStock(products, kind, transactionId, date, items[1..], movementIds[1..], id);
      case Some(p) =>
        var change := QuantityChange(kind, item.quantity);
        var p' := Moved(p, kind, item.quantity);
        var updated := UpdateProduct(products, p');
        StockAfterUpdate(products, p', id);
        ApplyStock(updated, kind, transactionId, date, items[1..], movementIds[1..], id);
        var rest := Apply(updated, kind, transactionId, date, items[1..], movementIds[1..]);
        var movement := StockMovement(movementIds[0], item.productId, transactionId, date, change, p'.currentStock);
        assert ([movement] + rest.movements)[1..] == rest.movements;
    }
  }

  /** The guard's reading: item `i` is short when its product is known and the
      stock left after the earlier items of the same sale is below its quantity. */
  predicate Shortfall(products: seq<Product>, items: seq<TransactionItem>, i: nat)
    requires i < |items|
  {
    && Known(products, items[i].productId)
    && StockOf(products, items[i].productId) + NetChange(Sale, items[..i], items[i].productId) < items[i].quantity
  }

  /** The sale guard fails exactly when some item is short. */
  lemma {:induction false} CheckSaleIff(products: seq<Product>, items: seq<TransactionItem>)
    ensures CheckSale(products, items).Some? <==> exists i :: 0 <= i < |items| && Shortfall(products, items, i)
    decreases |items|
  {
    if |items| > 0 {
      var item := items[0];
      match FindProduct(products, item.productId)
      case None =>
        CheckSaleIff(products, items[1..]);
        ShortfallUnknownHead(products, items);
      case Some(p) =>
        if p.currentStock < item.quantity {
          assert items[..0] == [];
          assert Shortfall(products, items, 0);
        } else {
          var p' := Moved(p, Sale, item.quantity);
          CheckSaleIff(UpdateProduct(products, p'), items[1..]);
          ShortfallKnownHead(products, items);
        }
    }
  }

  /** Item `i` is the first short item of the sale. */
  predicate FirstShortfall(products: seq<Product>, items: seq<TransactionItem>, i: nat) {
    && i < |items|
    && Shortfall(products, items, i)
    && forall j :: 0 <= j < i ==> !Shortfall(products, items, j)
  }

  /** The error thrown for item `i`: its product's id and name, the stock the
      product holds once the earlier items of the sale are taken out, and the
      quantity asked for. */
  function ShortError(products: seq<Product>, items: seq<TransactionItem>, i: nat): StockError
    requires i < |items| && Known(products, items[i].productId)
  {
    var id := items[i].productId;
    InsufficientStock(id, FindProduct(products, id).value.name,
                      StockOf(products, id) + NetChange(Sale, items[..i], id), items[i].quantity)
  }

  /** Past an unknown head item, shortfalls and their errors are read one position on. */
  lemma {:induction false} ShortfallStepUnknown(products: seq<Product>, items: seq<TransactionItem>, i: nat)
    requires 0 < i < |items| && !Known(products, items[0].productId)
    ensures Shortfall(products, items, i) == Shortfall(products, items[1..], i - 1)
    ensures Known(products, items[i].productId) ==> ShortError(products, items, i) == ShortError(products, items[1..], i - 1)
  {
    assert items[1..][i - 1] == items[i];
    NetChangeOfPrefix(Sale, items, i, items[i].productId);
  }

  /** Past a known head item that is not short, shortfalls and their errors
      are read one position on, against the products its update leaves. */
  lemma {:induction false} ShortfallStepKnown(products: seq<Product>, items: seq<TransactionItem>, i: nat)
    requires 0 < i < |items| && Known(products, items[0].productId)
    ensures
      var p := FindProduct(products, items[0].productId).value;
      var updated := UpdateProduct(products, Moved(p, Sale, items[0].quantity));
      && Known(updated, items[i].productId) == Known(products, items[i].productId)
      && Shortfall(products, items, i) == Shortfall(updated, items[1..], i - 1)
      && (Known(products, items[i].productId) ==> ShortError(products, items, i) == ShortError(updated, items[1..], i - 1))
  {
    var p := FindProduct(products, items[0].productId).value;
    var p' := Moved(p, Sale, items[0].quantity);
    var id := items[i].productId;
    assert items[1..][i - 1] == items[i];
    StockAfterUpdate(products, p', id);
    FindAfterUpdate(products, p', id);
    if Known(products, id) {
      BalanceShift(products, Sale, items, i, id);
    }
  }

  /** The forward pass over a prefix of `j + 1` items is its head step
      followed by the pass over the next `j` items. */
  lemma {:induction false} ApplyPrefixStep(products: seq<Product>, kind: TransactionType, transactionId: string, date: string,
                                           items: seq<TransactionItem>, movementIds: seq<string>, j: nat)
    requires |movementIds| == |items| && j < |items|
    ensures Apply(products, kind, transactionId, date, items[..j + 1], movementIds[..j + 1]).products
         == match FindProduct(products, items[0].productId)
            case None => Apply(products, kind, transactionId, date, items[1..][..j], movementIds[1..][..j]).products
            case Some(p) => Apply(UpdateProduct(products, Moved(p, kind, items[0].quantity)), kind, transactionId, date,
                                  items[1..][..j], movementIds[1..][..j]).products
  {
    assert items[..j + 1][0] == items[0];
    assert items[..j + 1][1..] == items[1..][..j];
    assert movementIds[..j + 1][1..] == movementIds[1..][..j];
  }

  /** The first short item of the tail, one position on, is the first short
      item of the whole list when the head is not short. */
  lemma {:induction false} FirstShortfallStep(products: seq<Product>, items: seq<TransactionItem>, next: seq<Product>, j: nat)
    requires |items| > 0 && !Shortfall(products, items, 0)
    requires FirstShortfall(next, items[1..], j)
    requires forall k :: 0 < k <= j + 1 ==> Shortfall(products, items, k) == Shortfall(next, items[1..], k - 1)
    ensures FirstShortfall(products, items, j + 1)
  {
    forall k | 0 <= k < j + 1
      ensures !Shortfall(products, items, k)
    {
      if k > 0 {
        assert !Shortfall(next, items[1..], k - 1);
      }
    }
  }

  /** What a refusal carries: the first short item `i`, its error, and the products the earlier items left. */
  predicate ReportsAt(products: seq<Product>, items: seq<TransactionItem>, transactionId: string, date: string,
                      movementIds: seq<string>, refusal: Refusal, i: nat)
    requires |movementIds| == |items|
  {
    && FirstShortfall(products, items, i)
    && refusal.error == ShortError(products, items, i)
    && refusal.products == Apply(products, Sale, transactionId, date, items[..i], movementIds[..i]).products
  }

  /** Step of the report proof past an unknown head item. */
  lemma {:induction false} ReportsPastUnknownHead(products: seq<Product>, items: seq<TransactionItem>, transactionId: string, date: string,
                                                  movementIds: seq<string>, refusal: Refusal, j: nat)
    requires |movementIds| == |items| > 0 && !Known(products, items[0].productId)
    requires ReportsAt(products, items[1..], transactionId, date, movementIds[1..], refusal, j)
    ensures ReportsAt(products, items, transactionId, date, movementIds, refusal, j + 1)
  {
    ShortfallStepUnknown(products, items, j + 1);
    forall k | 0 < k <= j + 1
      ensures Shortfall(products, items, k) == Shortfall(products, items[1..], k - 1)
    {
      ShortfallStepUnknown(products, items, k);
    }
    FirstShortfallStep(products, items, products, j);
    ApplyPrefixStep(products, Sale, transactionId, date, items, movementIds, j);
  }

  /** Step of the report proof past a known head item that is not short. */
  lemma {:induction false} ReportsPastKnownHead(products: seq<Product>, items: seq<TransactionItem>, transactionId: string, date: string,
                                                movementIds: seq<string>, refusal: Refusal, j: nat)
    requires |movementIds| == |items| > 0 && Known(products, items[0].productId)
    requires FindProduct(products, items[0].productId).value.currentStock >= items[0].quantity
    requires
      var p := FindProduct(products, items[0].productId).value;
      ReportsAt(UpdateProduct(products, Moved(p, Sale, items[0].quantity)), items[1..], transactionId, date, movementIds[1..], refusal, j)
    ensures ReportsAt(products, items, transactionId, date, movementIds, refusal, j + 1)
  {
    var p := FindProduct(products, items[0].productId).value;
    var updated := UpdateProduct(products, Moved(p, Sale, items[0].quantity));
    ShortfallStepKnown(products, items, j + 1);
    forall k | 0 < k <= j + 1
      ensures Shortfall(products, items, k) == Shortfall(updated, items[1..], k - 1)
    {
      ShortfallStepKnown(products, items, k);
    }
    assert items[..0] == [];
    assert !Shortfall(products, items, 0);
    FirstShortfallStep(products, items, updated, j);
    ApplyPrefixStep(products, Sale, transactionId, date, items, movementIds, j);
  }

  /** A refused sale reports its first short item, with that item's product
      name and running stock, and leaves the products as the forward pass over
      the items before it leaves them. */
  lemma {:induction false} CheckSaleReports(products: seq<Product>, items: seq<TransactionItem>,
                                            transactionId: string, date: string, movementIds: seq<string>)
    requires |movementIds| == |items|
    ensures var r := CheckSale(products, items);
      r.Some? ==> exists i: nat :: ReportsAt(products, items, transactionId, date, movementIds, r.value, i)
    decreases |items|
  {
    var r := CheckSale(products, items);
    if |items| > 0 && r.Some? {
      var item := items[0];
      match FindProduct(products, item.productId)
      case None =>
        assert r == CheckSale(products, items[1..]);
        CheckSaleReports(products, items[1..], transactionId, date, movementIds[1..]);
        var j: nat :| ReportsAt(products, items[1..], transactionId, date, movementIds[1..], r.value, j);
        ReportsPastUnknownHead(products, items, transactionId, date, movementIds, r.value, j);
      case Some(p) =>
        if p.currentStock < item.quantity {
          assert items[..0] == [] && movementIds[..0] == [];
          assert ReportsAt(products, items, transactionId, date, movementIds, r.value, 0);
        } else {
          var updated := UpdateProduct(products, Moved(p, Sale, item.quantity));
          assert r == CheckSale(updated, items[1..]);
          CheckSaleReports(updated, items[1..], transactionId, date, movementIds[1..]);
          var j: nat :| ReportsAt(updated, items[1..], transactionId, date, movementIds[1..], r.value, j);
          ReportsPastKnownHead(products, items, transactionId, date, movementIds, r.value, j);
        }
    }
  }

  /** No two items of the list name the same product. */
  predicate DistinctProducts(items: seq<TransactionItem>) {
    forall i, j :: 0 <= i < j < |items| ==> items[i].productId != items[j].productId
  }

  /** Items that never name a product change nothing for it. */
  lemma {:induction false} NetChangeAbsent(kind: TransactionType, items: seq<TransactionItem>, id: string)
    requires forall k :: 0 <= k < |items| ==> items[k].productId != id
    ensures NetChange(kind, items, id) == 0
    decreases |items|
  {
    if |items| > 0 {
      NetChangeAbsent(kind, items[1..], id);
    }
  }

  /** When a sale's items name distinct products, the guard's running reading
      and the reading against the stock before the sale agree: the guard fails
      exactly when some known product holds less than its item's quantity. */
  lemma {:induction false} CheckSaleReadsSnapshot(products: seq<Product>, items: seq<TransactionItem>)
    requires DistinctProducts(items)
    ensures CheckSale(products, items).Some? <==>
              exists i :: 0 <= i < |items| && Known(products, items[i].productId) && StockOf(products, items[i].productId) < items[i].quantity
  {
    CheckSaleIff(products, items);
    forall i | 0 <= i < |items|
      ensures Shortfall(products, items, i) <==> Known(products, items[i].productId) && StockOf(products, items[i].productId) < items[i].quantity
    {
      NetChangeAbsent(Sale, items[..i], items[i].productId);
    }
  }

  /** A head item with an unknown product is never short, and the later items
      are short against the same products. */
  lemma {:induction false} ShortfallUnknownHead(products: seq<Product>, items: seq<TransactionItem>)
    requires |items| > 0 && !Known(products, items[0].productId)
    ensures (exists i :: 0 <= i < |items| && Shortfall(products, items, i))
        <==> (exists j :: 0 <= j < |items[1..]| && Shortfall(products, items[1..], j))
  {
    assert !Shortfall(products, items, 0);
    forall i | 0 < i < |items|
      ensures Shortfall(products, items, i) == Shortfall(products, items[1..], i - 1)
    {
      NetChangeOfPrefix(Sale, items, i, items[i].productId);
    }
    ShortfallShift(products, items, products);
  }

  /** A known head item that is not short: the later items are short against
      the products its sale leaves. */
  lemma {:induction false} ShortfallKnownHead(products: seq<Product>, items: seq<TransactionItem>)
    requires |items| > 0 && Known(products, items[0].productId)
    requires FindProduct(products, items[0].productId).value.currentStock >= items[0].quantity
    ensures
      var p := FindProduct(products, items[0].productId).value;
      var updated := UpdateProduct(products, Moved(p, Sale, items[0].quantity));
      (exists i :: 0 <= i < |items| && Shortfall(products, items, i))
        <==> (exists j :: 0 <= j < |items[1..]| && Shortfall(updated, items[1..], j))
  {
    var p := FindProduct(products, items[0].productId).value;
    var p' := Moved(p, Sale, items[0].quantity);
    var updated := UpdateProduct(products, p');
    assert items[..0] == [];
    assert !Shortfall(products, items, 0);
    forall i | 0 < i < |items|
      ensures Shortfall(products, items, i) == Shortfall(updated, items[1..], i - 1)
    {
      StockAfterUpdate(products, p', items[i].productId);
      if Known(products, items[i].productId) {
        BalanceShift(products, Sale, items, i, items[i].productId);
      }
    }
    ShortfallShift(products, items, updated);
  }

  /** Re-indexing step of the guard proof. */
  lemma {:induction false} ShortfallShift(products: seq<Product>, items: seq<TransactionItem>, next: seq<Product>)
    requires |items| > 0
    requires forall i :: 0 < i < |items| ==> Shortfall(products, items, i) == Shortfall(next, items[1..], i - 1)
    ensures (exists i :: 0 < i < |items| && Shortfall(products, items, i))
        <==> (exists j :: 0 <= j < |items[1..]| && Shortfall(next, items[1..], j))
  {
    if exists j :: 0 <= j < |items[1..]| && Shortfall(next, items[1..], j) {
      var j :| 0 <= j < |items[1..]| && Shortfall(next, items[1..], j);
      assert Shortfall(products, items, j + 1);
    }
  }

  /** One step of the forward pass on a head item whose product is known. */
  lemma {:induction false} ApplyKnownHead(products: seq<Product>, kind: TransactionType, transactionId: string, date: string,
                       items: seq<TransactionItem>, movementIds: seq<string>)
    requires |movementIds| == |items| > 0
    requires Known(products, items[0].productId)
    ensures
      var p' := Moved(FindProduct(products, items[0].productId).value, kind, items[0].quantity);
      var rest := Apply(UpdateProduct(products, p'), kind, transactionId, date, items[1..], movementIds[1..]);
      Apply(products, kind, transactionId, date, items, movementIds).movements
        == [StockMovement(movementIds[0], items[0].productId, transactionId, date,
                          QuantityChange(kind, items[0].quantity), p'.currentStock)] + rest.movements
  {
  }

  /** Row `i` of the forward pass, when every item's product is known: the
      item's fresh id, the transaction's id and date, the signed change, and
      the product's running balance after the first `i + 1` items. */
  lemma {:induction false} ApplyMovementRow(products: seq<Product>, kind: TransactionType, transactionId: string, date: string,
                                            items: seq<TransactionItem>, movementIds: seq<string>, i: nat)
    requires |movementIds| == |items|
    requires forall j :: 0 <= j < |items| ==> Known(products, items[j].productId)
    requires i < |items|
    ensures RowAt(products, kind, transactionId, date, items, movementIds, i)
    decreases |items|
  {
    if i == 0 {
      ApplyMovementRowFirst(products, kind, transactionId, date, items, movementIds);
    } else {
      var p' := Moved(FindProduct(products, items[0].productId).value, kind, items[0].quantity);
      var updated := UpdateProduct(products, p');
      FindAfterUpdateKnown(products, p');
      assert forall j :: 0 <= j < |items[1..]| ==> Known(updated, items[1..][j].productId) by {
        forall j | 0 <= j < |items[1..]|
          ensures Known(updated, items[1..][j].productId)
        {
          assert items[1..][j] == items[j + 1];
        }
      }
      ApplyMovementRow(updated, kind, transactionId, date, items[1..], movementIds[1..], i - 1);
      ApplyMovementRowShift(products, kind, transactionId, date, items, movementIds, i);
    }
  }

  /** Row `i` of the forward pass is the item's movement with the product's running balance. */
  predicate RowAt(products: seq<Product>, kind: TransactionType, transactionId: string, date: string,
                  items: seq<TransactionItem>, movementIds: seq<string>, i: nat)
    requires |movementIds| == |items| && i < |items|
  {
    var ms := Apply(products, kind, transactionId, date, items, movementIds).movements;
    && i < |ms|
    && ms[i] == StockMovement(movementIds[i], items[i].productId, transactionId, date,
                              QuantityChange(kind, items[i].quantity),
                              StockOf(products, items[i].productId) + NetChange(kind, items[..i + 1], items[i].productId))
  }

  /** Row 0 of the forward pass when the head item's product is known. */
  lemma {:induction false} ApplyMovementRowFirst(products: seq<Product>, kind: TransactionType, transactionId: string, date: string,
                                                 items: seq<TransactionItem>, movementIds: seq<string>)
    requires |movementIds| == |items| > 0
    requires Known(products, items[0].productId)
    ensures RowAt(products, kind, transactionId, date, items, movementIds, 0)
  {
    var p' := Moved(FindProduct(products, items[0].productId).value, kind, items[0].quantity);
    ApplyKnownHead(products, kind, transactionId, date, items, movementIds);
    NetChangeOfPrefix(kind, items, 1, items[0].productId);
    StockAfterUpdate(products, p', items[0].productId);
  }

  /** Row `i` of the pass is row `i - 1` of the pass over the tail, read after the head item's update. */
  lemma {:induction false} ApplyMovementRowShift(products: seq<Product>, kind: TransactionType, transactionId: string, date: string,
                                                 items: seq<TransactionItem>, movementIds: seq<string>, i: nat)
    requires |movementIds| == |items|
    requires 0 < i < |items|
    requires Known(products, items[0].productId) && Known(products, items[i].productId)
    requires
      var p' := Moved(FindProduct(products, items[0].productId).value, kind, items[0].quantity);
      RowAt(UpdateProduct(products, p'), kind, transactionId, date, items[1..], movementIds[1..], i - 1)
    ensures RowAt(products, kind, transactionId, date, items, movementIds, i)
  {
    ApplyKnownHead(products, kind, transactionId, date, items, movementIds);
    assert items[1..][i - 1] == items[i];
    assert movementIds[1..][i - 1] == movementIds[i];
    BalanceShift(products, kind, items, i + 1, items[i].productId);
  }

  /** When every item's product is known, the forward pass writes one movement
      per item, in order, carrying the item's fresh id, the transaction's id and
      date, the signed change, and the product's running balance after the item. */
  lemma {:induction false} ApplyMovementRows(products: seq<Product>, kind: TransactionType, transactionId: string, date: string,
                          items: seq<TransactionItem>, movementIds: seq<string>)
    requires |movementIds| == |items|
    requires forall i :: 0 <= i < |items| ==> Known(products, items[i].productId)
    ensures var ms := Apply(products, kind, transactionId, date, items, movementIds).movements;
      && |ms| == |items|
      && forall i :: 0 <= i < |items| ==>
           ms[i] == StockMovement(movementIds[i], items[i].productId, transactionId, date,
                                  QuantityChange(kind, items[i].quantity),
                                  StockOf(products, items[i].productId) + NetChange(kind, items[..i + 1], items[i].productId))
  {
    if |items| > 0 {
      ApplyMovementRow(products, kind, transactionId, date, items, movementIds, |items| - 1);
    }
    forall i | 0 <= i < |items|
      ensures Apply(products, kind, transactionId, date, items, movementIds).movements[i]
           == StockMovement(movementIds[i], items[i].productId, transactionId, date,
                            QuantityChange(kind, items[i].quantity),
                            StockOf(products, items[i].productId) + NetChange(kind, items[..i + 1], items[i].productId))
    {
      ApplyMovementRow(products, kind, transactionId, date, items, movementIds, i);
    }
  }

  /** Position of the product a lookup by a known id finds. */
  function ProductIndex(products: seq<Product>, id: string): (k: nat)
    requires Known(products, id)
    ensures k < |products| && products[k] == FindProduct(products, id).value
  {
    if products[0].id == id then 0 else 1 + ProductIndex(products[1..], id)
  }

  /** With unique product ids, the forward pass leaves exactly the products
      moved forward by the items' net change. */
  lemma {:induction false} ApplyAdjusts(products: seq<Product>, kind: TransactionType, transactionId: string, date: string,
                                        items: seq<TransactionItem>, movementIds: seq<string>)
    requires |movementIds| == |items|
    requires UniqueProductIds(products)
    ensures Apply(products, kind, transactionId, date, items, movementIds).products == Adjusted(products, kind, items, true)
    decreases |items|
  {
    if |items| > 0 {
      var item := items[0];
      var after := Apply(products, kind, transactionId, date, items, movementIds).products;
      if Known(products, item.productId) {
        var k := ProductIndex(products, item.productId);
        var p' := Moved(products[k], kind, item.quantity);
        ApplyKnownHeadAdjusts(products, kind, transactionId, date, items, movementIds);
        ApplyAdjusts(products[k := p'], kind, transactionId, date, items[1..], movementIds[1..]);
      } else {
        assert after == Apply(products, kind, transactionId, date, items[1..], movementIds[1..]).products;
        ApplyAdjusts(products, kind, transactionId, date, items[1..], movementIds[1..]);
        AdjustedSkipsUnknown(products, kind, items, true);
      }
    } else {
      AdjustedByNothing(products, kind, true);
    }
  }

  /** With unique product ids, the reversal pass moves every product back by the items' net change. */
  lemma {:induction false} RevertAdjusts(products: seq<Product>, kind: TransactionType, items: seq<TransactionItem>)
    requires UniqueProductIds(products)
    ensures Revert(products, kind, items) == Adjusted(products, kind, items, false)
    decreases |items|
  {
    if |items| > 0 {
      var item := items[0];
      if Known(products, item.productId) {
        var k := ProductIndex(products, item.productId);
        var p' := products[k].(currentStock := products[k].currentStock - QuantityChange(kind, item.quantity));
        RevertKnownHead(products, kind, items);
        RevertAdjusts(products[k := p'], kind, items[1..]);
      } else {
        assert Revert(products, kind, items) == Revert(products, kind, items[1..]);
        RevertAdjusts(products, kind, items[1..]);
        AdjustedSkipsUnknown(products, kind, items, false);
      }
    } else {
      AdjustedByNothing(products, kind, false);
    }
  }

  /** One step of the forward pass on a head item whose product is known, at
      its position `k`: the rest of the pass starts from the products with
      position `k` moved forward, which still have unique ids and which the
      rest of the items adjust to where all the items adjust the original. */
  lemma {:induction false} ApplyKnownHeadAdjusts(products: seq<Product>, kind: TransactionType, transactionId: string, date: string,
                              items: seq<TransactionItem>, movementIds: seq<string>)
    requires |movementIds| == |items|
    requires UniqueProductIds(products)
    requires |items| > 0 && Known(products, items[0].productId)
    ensures
      var k := ProductIndex(products, items[0].productId);
      var p' := Moved(products[k], kind, items[0].quantity);
      && UniqueProductIds(products[k := p'])
      && Apply(products, kind, transactionId, date, items, movementIds).products
         == Apply(products[k := p'], kind, transactionId, date, items[1..], movementIds[1..]).products
      && Adjusted(products[k := p'], kind, items[1..], true) == Adjusted(products, kind, items, true)
  {
    var k := ProductIndex(products, items[0].productId);
    var p' := Moved(products[k], kind, items[0].quantity);
    assert FindProduct(products, items[0].productId) == Some(products[k]);
    assert Apply(products, kind, transactionId, date, items, movementIds).products
        == Apply(UpdateProduct(products, p'), kind, transactionId, date, items[1..], movementIds[1..]).products;
    UpdateProductAt(products, k, p');
    AdjustedStep(products, kind, items, k, true);
  }

  /** One step of the reversal pass on a head item whose product is known, at
      its position `k`: the rest of the pass starts from the products with
      position `k` moved back, which still have unique ids and which the rest
      of the items adjust to where all the items adjust the original. */
  lemma {:induction false} RevertKnownHead(products: seq<Product>, kind: TransactionType, items: seq<TransactionItem>)
    requires UniqueProductIds(products)
    requires |items| > 0 && Known(products, items[0].productId)
    ensures
      var k := ProductIndex(products, items[0].productId);
      var p' := products[k].(currentStock := products[k].currentStock - QuantityChange(kind, items[0].quantity));
      && UniqueProductIds(products[k := p'])
      && Revert(products, kind, items) == Revert(products[k := p'], kind, items[1..])
      && Adjusted(products[k := p'], kind, items[1..], false) == Adjusted(products, kind, items, false)
  {
    var k := ProductIndex(products, items[0].productId);
    var p' := products[k].(currentStock := products[k].currentStock - QuantityChange(kind, items[0].quantity));
    UpdateProductAt(products, k, p');
    AdjustedStep(products, kind, items, k, false);
  }

  /** No items adjust nothing. */
  lemma {:induction false} AdjustedByNothing(products: seq<Product>, kind: TransactionType, forward: bool)
    ensures Adjusted(products, kind, [], forward) == products
  {
    var a := Adjusted(products, kind, [], forward);
    forall k | 0 <= k < |products|
      ensures a[k] == products[k]
    {
      assert NetChange(kind, [], products[k].id) == 0;
    }
  }

  /** A head item whose product is unknown adjusts nothing. */
  lemma {:induction false} AdjustedSkipsUnknown(products: seq<Product>, kind: TransactionType, items: seq<TransactionItem>, forward: bool)
    requires |items| > 0 && !Known(products, items[0].productId)
    ensures Adjusted(products, kind, items, forward) == Adjusted(products, kind, items[1..], forward)
  {
    var a := Adjusted(products, kind, items, forward);
    var b := Adjusted(products, kind, items[1..], forward);
    forall k | 0 <= k < |products|
      ensures a[k] == b[k]
    {
      assert products[k].id != items[0].productId;
    }
  }

  /** Applying the head item at its product's position `k`, then the rest, is
      applying all the items. */
  lemma {:induction false} AdjustedStep(products: seq<Product>, kind: TransactionType, items: seq<TransactionItem>, k: nat, forward: bool)
    requires UniqueProductIds(products)
    requires |items| > 0 && k < |products| && products[k].id == items[0].productId
    ensures
      var c := QuantityChange(kind, items[0].quantity);
      var p := products[k];
      var p' := p.(currentStock := if forward then p.currentStock + c else p.currentStock - c);
      Adjusted(products[k := p'], kind, items[1..], forward) == Adjusted(products, kind, items, forward)
  {
  }

  /** The reversal pass keeps the set of known products and moves each known
      product's stock back by the items' net change. */
  lemma {:induction false} RevertStock(products: seq<Product>, kind: TransactionType, items: seq<TransactionItem>, id: string)
    ensures Known(Revert(products, kind, items), id) == Known(products, id)
    ensures Known(products, id) ==> StockOf(Revert(products, kind, items), id) == StockOf(products, id) - NetChange(kind, items, id)
    decreases |items|
  {
    if |items| > 0 {
      var change := QuantityChange(kind, items[0].quantity);
      assert NetChange(kind, items, id) == (if items[0].productId == id then change else 0) + NetChange(kind, items[1..], id);
      match FindProduct(products, items[0].productId)
      case None =>
        assert Revert(products, kind, items) == Revert(products, kind, items[1..]);
        RevertStock(products, kind, items[1..], id);
      case Some(p) =>
        var p' := p.(currentStock := p.currentStock - change);
        assert Revert(products, kind, items) == Revert(UpdateProduct(products, p'), kind, items[1..]);
        StockAfterUpdate(products, p', id);
        RevertStock(UpdateProduct(products, p'), kind, items[1..], id);
    }
  }

  /** Two item lists that agree on products and quantities, item by item. */
  predicate SameShape(a: seq<TransactionItem>, b: seq<TransactionItem>) {
    |a| == |b| && forall i :: 0 <= i < |a| ==> a[i].productId == b[i].productId && a[i].quantity == b[i].quantity
  }

  /** Stock effects depend only on the items' products and quantities. */
  lemma {:induction false} NetChangeSameShape(kind: TransactionType, a: seq<TransactionItem>, b: seq<TransactionItem>, id: string)
    requires SameShape(a, b)
    ensures NetChange(kind, a, id) == NetChange(kind, b, id)
    decreases |a|
  {
    if |a| > 0 {
      NetChangeSameShape(kind, a[1..], b[1..], id);
    }
  }

  /** Hence so are the adjusted stock levels. */
  lemma {:induction false} AdjustedSameShape(products: seq<Product>, kind: TransactionType, a: seq<TransactionItem>, b: seq<TransactionItem>, forward: bool)
    requires SameShape(a, b)
    ensures Adjusted(products, kind, a, forward) == Adjusted(products, kind, b, forward)
  {
    forall k | 0 <= k < |products| {
      NetChangeSameShape(kind, a, b, products[k].id);
    }
  }

  /** Adjusting stock keeps every product's id, so unique ids stay unique. */
  lemma {:induction false} AdjustedKeepsIds(products: seq<Product>, kind: TransactionType, items: seq<TransactionItem>, forward: bool)
    ensures forall k :: 0 <= k < |products| ==> Adjusted(products, kind, items, forward)[k].id == products[k].id
    ensures UniqueProductIds(products) ==> UniqueProductIds(Adjusted(products, kind, items, forward))
  {
  }
}
