/**
 * What one call of each ledger handler does, proved from the passes it is
 * built from.
 */
module LedgerFacts {
  import opened Wrappers
  import opened Types
  import opened Movements
  import opened Text
  import opened Stock
  import opened StockFacts
  import opened Attribution
  import opened CapitalLink
  import opened Ledger

  /** The transaction a successful record stores: a sale with its purchase prices attributed. */
  function StoredForm(s: Store, tx: Transaction): (stored: Transaction)
    ensures stored == tx.(items := stored.items)
    ensures SameShape(stored.items, tx.items)
    ensures forall i :: 0 <= i < |tx.items| ==> stored.items[i] == tx.items[i].(purchasePrice := stored.items[i].purchasePrice)
    ensures tx.kind == Purchase ==> stored == tx
  {
    if tx.kind == Sale then tx.(items := AttributeItems(s.products, s.transactions, tx.items)) else tx
  }

  /** A record fails exactly for a sale with a short item: one whose known
      product holds less than its quantity once the earlier items of the sale
      are taken out. A purchase never fails. */
  lemma {:induction false} RecordFailsIff(s: Store, tx: Transaction, movementIds: seq<string>, capitalId: string)
    requires |movementIds| == |tx.items|
    ensures Record(s, tx, movementIds, capitalId).Err? <==>
              tx.kind == Sale && exists i :: 0 <= i < |tx.items| && Shortfall(s.products, tx.items, i)
  {
    CheckSaleIff(s.products, tx.items);
  }

  /** A refused record reports the sale's first short item, with its
      product's name and running stock, and leaves the store as the items
      before it left it: their stock updates are kept, so each known
      product's stock has moved by those items' net change, and no movement,
      transaction or capital movement is written. */
  lemma {:induction false} RecordRefusal(s: Store, tx: Transaction, movementIds: seq<string>, capitalId: string, id: string)
    requires |movementIds| == |tx.items|
    requires Record(s, tx, movementIds, capitalId).Err?
    ensures var rejection := Record(s, tx, movementIds, capitalId).error;
      exists i: nat ::
        && FirstShortfall(s.products, tx.items, i)
        && rejection.error == ShortError(s.products, tx.items, i)
        && rejection.store == s.(products := Apply(s.products, Sale, tx.id, tx.date, tx.items[..i], movementIds[..i]).products)
        && Known(rejection.store.products, id) == Known(s.products, id)
        && (Known(s.products, id) ==> StockOf(rejection.store.products, id) == StockOf(s.products, id) + NetChange(Sale, tx.items[..i], id))
  {
    var refusal := CheckSale(s.products, tx.items).value;
    CheckSaleReports(s.products, tx.items, tx.id, tx.date, movementIds);
    var i: nat :| ReportsAt(s.products, tx.items, tx.id, tx.date, movementIds, refusal, i);
    ApplyStock(s.products, Sale, tx.id, tx.date, tx.items[..i], movementIds[..i], id);
    assert ReportsAt(s.products, tx.items, tx.id, tx.date, movementIds, refusal, i);
  }

  /** A successful record appends the stored form and the forward pass's movements. */
  lemma {:induction false} RecordShape(s: Store, tx: Transaction, movementIds: seq<string>, capitalId: string)
    requires |movementIds| == |tx.items|
    requires Record(s, tx, movementIds, capitalId).Ok?
    ensures var r := Record(s, tx, movementIds, capitalId).value;
      var applied := Apply(s.products, tx.kind, tx.id, tx.date, tx.items, movementIds);
      && r.products == applied.products
      && r.transactions == s.transactions + [StoredForm(s, tx)]
      && r.stockMovements == s.stockMovements + applied.movements
      && r.capitalMovements == AppendProfitMovement(s.capitalMovements, s.products, StoredForm(s, tx), capitalId)
  {
  }

  /** Recording keeps the set of known products and moves each known product's
      stock by the transaction's net signed change: up by the quantities bought,
      down by the quantities sold. Unknown products stay unknown. */
  lemma {:induction false} RecordStock(s: Store, tx: Transaction, movementIds: seq<string>, capitalId: string, id: string)
    requires |movementIds| == |tx.items|
    requires Record(s, tx, movementIds, capitalId).Ok?
    ensures var r := Record(s, tx, movementIds, capitalId).value;
      && Known(r.products, id) == Known(s.products, id)
      && (Known(s.products, id) ==> StockOf(r.products, id) == StockOf(s.products, id) + NetChange(tx.kind, tx.items, id))
      && MovementSum(r.stockMovements, id) == MovementSum(s.stockMovements, id) + (if Known(s.products, id) then NetChange(tx.kind, tx.items, id) else 0)
  {
    var applied := Apply(s.products, tx.kind, tx.id, tx.date, tx.items, movementIds);
    RecordShape(s, tx, movementIds, capitalId);
    ApplyStock(s.products, tx.kind, tx.id, tx.date, tx.items, movementIds, id);
    MovementSumAppend(s.stockMovements, applied.movements, id);
  }

  /** When every item's product is known, recording appends exactly one
      movement per item, in item order, carrying the item's fresh id, product,
      the transaction's id and date, the signed quantity and the balance the
      product is left with after this item. */
  lemma {:induction false} RecordMovements(s: Store, tx: Transaction, movementIds: seq<string>, capitalId: string)
    requires |movementIds| == |tx.items|
    requires Record(s, tx, movementIds, capitalId).Ok?
    requires forall i :: 0 <= i < |tx.items| ==> Known(s.products, tx.items[i].productId)
    ensures var ms := Record(s, tx, movementIds, capitalId).value.stockMovements;
      && |ms| == |s.stockMovements| + |tx.items|
      && ms[..|s.stockMovements|] == s.stockMovements
      && forall i :: 0 <= i < |tx.items| ==>
           ms[|s.stockMovements| + i] == StockMovement(
             movementIds[i], tx.items[i].productId, tx.id, tx.date,
             QuantityChange(tx.kind, tx.items[i].quantity),
             StockOf(s.products, tx.items[i].productId) + NetChange(tx.kind, tx.items[..i + 1], tx.items[i].productId))
  {
    RecordShape(s, tx, movementIds, capitalId);
    ApplyMovementRows(s.products, tx.kind, tx.id, tx.date, tx.items, movementIds);
  }

  /** An item whose product is unknown is skipped: it gets no movement, moves
      no stock and keeps its purchase price as given. */
  lemma {:induction false} RecordSkipsUnknown(s: Store, tx: Transaction, movementIds: seq<string>, capitalId: string, i: nat)
    requires |movementIds| == |tx.items|
    requires Record(s, tx, movementIds, capitalId).Ok?
    requires i < |tx.items| && !Known(s.products, tx.items[i].productId)
    ensures var r := Record(s, tx, movementIds, capitalId).value;
      && (forall m :: m in r.stockMovements[|s.stockMovements|..] ==> m.productId != tx.items[i].productId)
      && !Known(r.products, tx.items[i].productId)
      && r.transactions[|s.transactions|].items[i] == tx.items[i]
  {
    var applied := Apply(s.products, tx.kind, tx.id, tx.date, tx.items, movementIds);
    RecordShape(s, tx, movementIds, capitalId);
    ApplyTagsMovements(s.products, tx.kind, tx.id, tx.date, tx.items, movementIds);
    ApplyStock(s.products, tx.kind, tx.id, tx.date, tx.items, movementIds, tx.items[i].productId);
    var r := Record(s, tx, movementIds, capitalId).value;
    assert r.stockMovements[|s.stockMovements|..] == applied.movements;
  }

  /** The stored sale differs from the submitted one only in purchase prices:
      an item of a known product that some stored purchase bought carries the
      highest unit price paid for it; any other item is kept as given. */
  lemma {:induction false} RecordAttributes(s: Store, tx: Transaction, movementIds: seq<string>, capitalId: string)
    requires |movementIds| == |tx.items|
    requires Record(s, tx, movementIds, capitalId).Ok? && tx.kind == Sale
    ensures var stored := Record(s, tx, movementIds, capitalId).value.transactions[|s.transactions|];
      && stored == tx.(items := stored.items)
      && |stored.items| == |tx.items|
      && (forall i :: 0 <= i < |tx.items| ==> stored.items[i] == tx.items[i].(purchasePrice := stored.items[i].purchasePrice))
      && (forall i :: 0 <= i < |tx.items| && Known(s.products, tx.items[i].productId) && HasPurchase(s.transactions, tx.items[i].productId) ==>
            stored.items[i].purchasePrice.Some? && IsMaxPurchasePrice(s.transactions, tx.items[i].productId, stored.items[i].purchasePrice.value))
      && (forall i :: 0 <= i < |tx.items| && !(Known(s.products, tx.items[i].productId) && HasPurchase(s.transactions, tx.items[i].productId)) ==>
            stored.items[i] == tx.items[i])
  {
    RecordShape(s, tx, movementIds, capitalId);
  }

  /** A successful record adds one capital movement exactly when the stored
      transaction is a sale with non-zero profit: a profit for a gain, a loss
      otherwise, for the absolute profit, linked to the transaction by its
      description's first line. */
  lemma {:induction false} RecordCapital(s: Store, tx: Transaction, movementIds: seq<string>, capitalId: string)
    requires |movementIds| == |tx.items|
    requires Record(s, tx, movementIds, capitalId).Ok?
    ensures var r := Record(s, tx, movementIds, capitalId).value;
      var profit := SaleProfit(StoredForm(s, tx));
      && (|r.capitalMovements| == |s.capitalMovements| + 1 <==> tx.kind == Sale && profit != 0)
      && (|r.capitalMovements| == |s.capitalMovements| + 1 ==>
            var m := r.capitalMovements[|s.capitalMovements|];
            && (m.kind == Profit <==> profit > 0)
            && (m.kind == Loss <==> profit < 0)
            && m.amount == Abs(profit) && m.id == capitalId && m.date == tx.date
            && m.description.Some? && StartsWith(m.description.value, LinkToken(tx.id) + "\n"))
  {
    RecordShape(s, tx, movementIds, capitalId);
  }

  /** The filter keeps order: dropping from a concatenation drops from each part. */
  lemma {:induction false} DropTransactionAppend(a: seq<Transaction>, b: seq<Transaction>, id: string)
    ensures DropTransaction(a + b, id) == DropTransaction(a, id) + DropTransaction(b, id)
  {
    if |a| > 0 {
      var ab := a + b;
      assert ab[0] == a[0] && ab[1..] == a[1..] + b;
      var head := if a[0].id != id then [a[0]] else [];
      assert DropTransaction(ab, id) == head + DropTransaction(a[1..] + b, id);
      assert DropTransaction(a, id) == head + DropTransaction(a[1..], id);
      DropTransactionAppend(a[1..], b, id);
    } else {
      assert a + b == b;
    }
  }

  lemma {:induction false} FindTransactionAppendFresh(transactions: seq<Transaction>, tx: Transaction)
    requires FindTransaction(transactions, tx.id).None?
    ensures FindTransaction(transactions + [tx], tx.id) == Some(tx)
  {
    if |transactions| > 0 {
      assert (transactions + [tx])[1..] == transactions[1..] + [tx];
      FindTransactionAppendFresh(transactions[1..], tx);
    }
  }

  lemma {:induction false} DropTransactionAppendFresh(transactions: seq<Transaction>, tx: Transaction)
    requires FindTransaction(transactions, tx.id).None?
    ensures DropTransaction(transactions + [tx], tx.id) == transactions
  {
    var all := transactions + [tx];
    if |transactions| == 0 {
      assert all == [tx];
      assert DropTransaction(all, tx.id) == [] + DropTransaction([], tx.id);
    } else {
      var head := transactions[0];
      var tail := transactions[1..];
      assert all[0] == head && all[1..] == tail + [tx];
      assert head.id != tx.id;
      assert forall k :: 0 <= k < |tail| ==> tail[k] == transactions[k + 1];
      DropTransactionAppendFresh(tail, tx);
      assert DropTransaction(all, tx.id) == [head] + DropTransaction(tail + [tx], tx.id);
      assert transactions == [head] + tail;
    }
  }

  /**
   * Recording a transaction under a fresh id and then retracting it restores
   * every product's stock, the movement list and the transaction list. The
   * capital list keeps whatever the record added.
   */
  lemma {:induction false} RecordRetractRoundTrip(s: Store, tx: Transaction, movementIds: seq<string>, capitalId: string)
    requires |movementIds| == |tx.items|
    requires Record(s, tx, movementIds, capitalId).Ok?
    requires UniqueProductIds(s.products)
    requires FindTransaction(s.transactions, tx.id).None?
    requires NoneTagged(s.stockMovements, tx.id)
    ensures var r := Record(s, tx, movementIds, capitalId).value;
      var back := Retract(r, tx.id);
      && back.products == s.products
      && back.transactions == s.transactions
      && back.stockMovements == s.stockMovements
      && back.capitalMovements == r.capitalMovements
  {
    var stored := StoredForm(s, tx);
    var applied := Apply(s.products, tx.kind, tx.id, tx.date, tx.items, movementIds);
    RecordShape(s, tx, movementIds, capitalId);
    FindTransactionAppendFresh(s.transactions, stored);
    ApplyAdjusts(s.products, tx.kind, tx.id, tx.date, tx.items, movementIds);
    AdjustedKeepsIds(s.products, tx.kind, tx.items, true);
    RevertAdjusts(applied.products, tx.kind, stored.items);
    AdjustedSameShape(applied.products, tx.kind, stored.items, tx.items, false);
    AdjustedInverse(s.products, tx.kind, tx.items, true);
    ApplyTagsMovements(s.products, tx.kind, tx.id, tx.date, tx.items, movementIds);
    DropAppendedTagged(s.stockMovements, applied.movements, tx.id);
    DropUntagged(s.stockMovements, tx.id);
    DropTransactionAppendFresh(s.transactions, stored);
  }

  /** Retracting a stored transaction keeps the set of known products and
      takes the transaction's net signed change back out of each known
      product's stock, with no lower bound. */
  lemma {:induction false} RetractStock(s: Store, id: string, productId: string)
    requires FindTransaction(s.transactions, id).Some?
    ensures var tx := FindTransaction(s.transactions, id).value;
      var r := Retract(s, id);
      && Known(r.products, productId) == Known(s.products, productId)
      && (Known(s.products, productId) ==>
            StockOf(r.products, productId) == StockOf(s.products, productId) - NetChange(tx.kind, tx.items, productId))
  {
    var tx := FindTransaction(s.transactions, id).value;
    RevertStock(s.products, tx.kind, tx.items, productId);
  }

  /** A revise of a stored transaction, spelled out step by step. */
  lemma {:induction false} ReviseShape(s: Store, tx: Transaction, movementIds: seq<string>, capitalId: string)
    requires |movementIds| == |tx.items|
    requires FindTransaction(s.transactions, tx.id).Some?
    ensures var previous := FindTransaction(s.transactions, tx.id).value;
      var reverted := Revert(s.products, previous.kind, previous.items);
      var applied := Apply(reverted, tx.kind, tx.id, tx.date, tx.items, movementIds);
      var r := Revise(s, tx, movementIds, capitalId);
      && r.products == applied.products
      && r.transactions == ReplaceTransaction(s.transactions, tx)
      && r.stockMovements == DropTransactionMovements(s.stockMovements, tx.id) + applied.movements
      && r.capitalMovements == AppendProfitMovement(
           if previous.kind == Sale then DropLinked(s.capitalMovements, tx.id) else s.capitalMovements,
           s.products, tx, capitalId)
  {
  }

  /** Revising keeps the set of known products and moves each known product's
      stock back by the old version's net change and forward by the new one's,
      with no lower bound. */
  lemma {:induction false} ReviseStock(s: Store, tx: Transaction, movementIds: seq<string>, capitalId: string, id: string)
    requires |movementIds| == |tx.items|
    requires FindTransaction(s.transactions, tx.id).Some?
    ensures var previous := FindTransaction(s.transactions, tx.id).value;
      var r := Revise(s, tx, movementIds, capitalId);
      && Known(r.products, id) == Known(s.products, id)
      && (Known(s.products, id) ==>
            StockOf(r.products, id) == StockOf(s.products, id) - NetChange(previous.kind, previous.items, id) + NetChange(tx.kind, tx.items, id))
      && MovementSum(r.stockMovements, id)
         == MovementSum(s.stockMovements, id) - TaggedSum(s.stockMovements, tx.id, id)
            + (if Known(s.products, id) then NetChange(tx.kind, tx.items, id) else 0)
  {
    var previous := FindTransaction(s.transactions, tx.id).value;
    var reverted := Revert(s.products, previous.kind, previous.items);
    var applied := Apply(reverted, tx.kind, tx.id, tx.date, tx.items, movementIds);
    ReviseShape(s, tx, movementIds, capitalId);
    RevertStock(s.products, previous.kind, previous.items, id);
    ApplyStock(reverted, tx.kind, tx.id, tx.date, tx.items, movementIds, id);
    var kept := DropTransactionMovements(s.stockMovements, tx.id);
    MovementSumAppend(kept, applied.movements, id);
    DropTransactionMovementsSums(s.stockMovements, tx.id, tx.id, id);
  }

  /**
   * Revise replaces rather than accumulates: the movements of other
   * transactions are left as they were, in order, and the movements tagged
   * with the revised id add up to the new version's change alone.
   */
  lemma {:induction false} ReviseReplacesMovements(s: Store, tx: Transaction, movementIds: seq<string>, capitalId: string, id: string)
    requires |movementIds| == |tx.items|
    requires FindTransaction(s.transactions, tx.id).Some?
    ensures var r := Revise(s, tx, movementIds, capitalId);
      && DropTransactionMovements(r.stockMovements, tx.id) == DropTransactionMovements(s.stockMovements, tx.id)
      && TaggedSum(r.stockMovements, tx.id, id) == (if Known(s.products, id) then NetChange(tx.kind, tx.items, id) else 0)
  {
    var previous := FindTransaction(s.transactions, tx.id).value;
    var reverted := Revert(s.products, previous.kind, previous.items);
    var applied := Apply(reverted, tx.kind, tx.id, tx.date, tx.items, movementIds);
    var kept := DropTransactionMovements(s.stockMovements, tx.id);
    ReviseShape(s, tx, movementIds, capitalId);
    RevertStock(s.products, previous.kind, previous.items, id);
    ApplyStock(reverted, tx.kind, tx.id, tx.date, tx.items, movementIds, id);
    ApplyTagsMovements(reverted, tx.kind, tx.id, tx.date, tx.items, movementIds);
    DropAppendedTagged(kept, applied.movements, tx.id);
    DropUntagged(kept, tx.id);
    TaggedSumAppend(kept, applied.movements, tx.id, id);
    DropTransactionMovementsSums(s.stockMovements, tx.id, tx.id, id);
    TaggedSumOfAllTagged(applied.movements, tx.id, tx.id, id);
  }

  /**
   * Revise replaces the capital link of a sale: when the stored version was a
   * sale, exactly one movement is linked to the id afterwards if the new
   * version makes one, and none otherwise. When it was a purchase, nothing is
   * removed and the new version's movement, if any, is added.
   */
  lemma {:induction false} ReviseReplacesCapital(s: Store, tx: Transaction, movementIds: seq<string>, capitalId: string)
    requires |movementIds| == |tx.items|
    requires FindTransaction(s.transactions, tx.id).Some?
    ensures var previous := FindTransaction(s.transactions, tx.id).value;
      var r := Revise(s, tx, movementIds, capitalId);
      var added := if MakesCapitalMovement(tx) then 1 else 0;
      && (previous.kind == Sale ==> LinkedCount(r.capitalMovements, tx.id) == added)
      && (previous.kind == Purchase ==> LinkedCount(r.capitalMovements, tx.id) == LinkedCount(s.capitalMovements, tx.id) + added)
  {
    var previous := FindTransaction(s.transactions, tx.id).value;
    ReviseShape(s, tx, movementIds, capitalId);
    if previous.kind == Sale {
      AtMostOneLinkAfterReplace(s.capitalMovements, s.products, tx, capitalId);
    } else {
      var r := AppendProfitMovement(s.capitalMovements, s.products, tx, capitalId);
      if MakesCapitalMovement(tx) {
        assert r == s.capitalMovements + [r[|s.capitalMovements|]];
        LinkedCountAppend(s.capitalMovements, [r[|s.capitalMovements|]], tx.id);
      }
    }
  }
}
