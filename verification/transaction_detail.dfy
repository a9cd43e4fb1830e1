/**
 * The transaction detail page: its own computation of a sale's cost and
 * profit, the profit label it shows, and saving the exchange rate and the
 * extra information through revise.
 */
module TransactionDetail {
  import opened Wrappers
  import opened Types
  import opened Movements
  import opened Stock
  import opened StockFacts
  import opened Attribution
  import opened CapitalLink
  import opened Ledger
  import opened LedgerFacts

  /**
   * The page's cost and profit (TransactionDetail.tsx:97-108): zero for a
   * purchase; for a sale, the items with a set, non-zero purchase price add
   * price × quantity to the cost, and the profit is the total amount less
   * the cost. It agrees with the engine's formula.
   */
  method DetailFigures(tx: Transaction) returns (totalCost: int, profit: int)
    ensures tx.kind == Purchase ==> totalCost == 0 && profit == 0
    ensures tx.kind == Sale ==> totalCost == SaleCost(tx.items) && profit == SaleProfit(tx)
    ensures tx.kind == Sale ==> totalCost == ResolvedCost(tx.items)
  {
    totalCost := 0;
    profit := 0;
    if tx.kind == Sale {
      var i := 0;
      while i < |tx.items|
        invariant 0 <= i <= |tx.items|
        invariant totalCost + SaleCost(tx.items[i..]) == SaleCost(tx.items)
      {
        assert tx.items[i..][1..] == tx.items[i + 1..];
        var item := tx.items[i];
        if item.purchasePrice.Some? && item.purchasePrice.value != 0 {
          totalCost := totalCost + item.purchasePrice.value * item.quantity;
        }
        i := i + 1;
      }
      profit := tx.totalAmount - totalCost;
      SaleCostIsResolvedCost(tx.items);
    }
  }

  datatype ProfitLabel = Kar | Zarar

  /** TransactionDetail.tsx:216-224: "Kar" for a profit of zero or more,
      "Zarar" below zero, next to the absolute amount. */
  function ProfitDisplay(profit: int): (r: (ProfitLabel, nat))
    ensures r.0 == Kar <==> profit >= 0
    ensures r.1 == Abs(profit)
    ensures r.0 == Kar ==> r.1 == profit
    ensures r.0 == Zarar ==> r.1 == -profit
  {
    (if profit >= 0 then Kar else Zarar, Abs(profit))
  }

  /** For a recorded sale with non-zero profit, the page shows the kind and the
      amount of the capital movement the engine wrote for it. */
  lemma {:induction false} DisplayMatchesLedger(s: Store, tx: Transaction, movementIds: seq<string>, capitalId: string)
    requires |movementIds| == |tx.items|
    requires Record(s, tx, movementIds, capitalId).Ok? && tx.kind == Sale
    requires SaleProfit(StoredForm(s, tx)) != 0
    ensures var r := Record(s, tx, movementIds, capitalId).value;
      var stored := r.transactions[|s.transactions|];
      var m := r.capitalMovements[|s.capitalMovements|];
      && |r.capitalMovements| == |s.capitalMovements| + 1
      && (ProfitDisplay(SaleProfit(stored)).0 == Kar <==> m.kind == Profit)
      && (ProfitDisplay(SaleProfit(stored)).0 == Zarar <==> m.kind == Loss)
      && ProfitDisplay(SaleProfit(stored)).1 == m.amount
  {
    RecordShape(s, tx, movementIds, capitalId);
    RecordCapital(s, tx, movementIds, capitalId);
  }

  /** A sale that breaks even shows "Kar" and 0, while the engine writes no capital movement for it. */
  lemma {:induction false} BreakEvenShowsKar(s: Store, tx: Transaction, movementIds: seq<string>, capitalId: string)
    requires |movementIds| == |tx.items|
    requires Record(s, tx, movementIds, capitalId).Ok? && tx.kind == Sale
    requires SaleProfit(StoredForm(s, tx)) == 0
    ensures ProfitDisplay(SaleProfit(StoredForm(s, tx))) == (Kar, 0)
    ensures Record(s, tx, movementIds, capitalId).value.capitalMovements == s.capitalMovements
  {
    RecordShape(s, tx, movementIds, capitalId);
  }

  /**
   * `handleSaveChanges` (TransactionDetail.tsx:74-83): the stored transaction
   * is revised with only its exchange rate and extra information replaced.
   * An unknown id changes nothing.
   */
  function SaveChanges(s: Store, id: string, exchangeRate: Option<real>, additionalInfo: Option<string>,
                       movementIds: seq<string>, capitalId: string): (r: Store)
    requires FindTransaction(s.transactions, id).Some? ==> |movementIds| == |FindTransaction(s.transactions, id).value.items|
    ensures FindTransaction(s.transactions, id).None? ==> r == s
    ensures |r.transactions| == |s.transactions|
  {
    match FindTransaction(s.transactions, id)
    case None => s
    case Some(t) => Revise(s, t.(exchangeRate := exchangeRate, additionalInfo := additionalInfo), movementIds, capitalId)
  }

  /** Saving leaves every product's stock as it was, since the items are the same. */
  lemma {:induction false} SaveChangesKeepsStock(s: Store, id: string, exchangeRate: Option<real>, additionalInfo: Option<string>,
                              movementIds: seq<string>, capitalId: string, productId: string)
    requires FindTransaction(s.transactions, id).Some? ==> |movementIds| == |FindTransaction(s.transactions, id).value.items|
    ensures var r := SaveChanges(s, id, exchangeRate, additionalInfo, movementIds, capitalId);
      Known(r.products, productId) == Known(s.products, productId) && StockOf(r.products, productId) == StockOf(s.products, productId)
  {
    if FindTransaction(s.transactions, id).Some? {
      var t := FindTransaction(s.transactions, id).value;
      ReviseStock(s, t.(exchangeRate := exchangeRate, additionalInfo := additionalInfo), movementIds, capitalId, productId);
    }
  }

  /** With unique product ids, saving gives back exactly the same product list. */
  lemma {:induction false} SaveChangesKeepsProducts(s: Store, id: string, exchangeRate: Option<real>, additionalInfo: Option<string>,
                                 movementIds: seq<string>, capitalId: string)
    requires FindTransaction(s.transactions, id).Some? ==> |movementIds| == |FindTransaction(s.transactions, id).value.items|
    requires UniqueProductIds(s.products)
    ensures SaveChanges(s, id, exchangeRate, additionalInfo, movementIds, capitalId).products == s.products
  {
    if FindTransaction(s.transactions, id).Some? {
      var t := FindTransaction(s.transactions, id).value;
      var tx := t.(exchangeRate := exchangeRate, additionalInfo := additionalInfo);
      var reverted := Revert(s.products, t.kind, t.items);
      ReviseShape(s, tx, movementIds, capitalId);
      RevertAdjusts(s.products, t.kind, t.items);
      AdjustedKeepsIds(s.products, t.kind, t.items, false);
      ApplyAdjusts(reverted, tx.kind, tx.id, tx.date, tx.items, movementIds);
      AdjustedInverse(s.products, t.kind, t.items, false);
    }
  }
}
