/**
 * Concrete runs of the engine: the buy-sell-retract walk-through, and the
 * missing stock guard on revise.
 */
module LedgerScenarios {
  import opened Wrappers
  import opened Types
  import opened Movements
  import opened Stock
  import opened StockFacts
  import opened Attribution
  import opened CapitalLink
  import opened Ledger
  import opened LedgerFacts

  const ProductA: Product := Product("A", "Kalem", None, None, 0)

  function Item(id: string, productId: string, quantity: int, unitPrice: int): TransactionItem {
    TransactionItem(id, productId, quantity, unitPrice, quantity * unitPrice, None)
  }

  function Tx(id: string, kind: TransactionType, items: seq<TransactionItem>, totalAmount: int): Transaction {
    Transaction(id, kind, "2024-01-01", "c1", items, Cash, None, totalAmount, None, None)
  }

  const Buy: Transaction := Tx("p1", Purchase, [Item("i1", "A", 10, 5)], 50)
  const Sell: Transaction := Tx("s1", Sale, [Item("i2", "A", 3, 8)], 24)
  const Start: Store := Store([ProductA], [], [], [])

  /** The store after buying 10 units of A at 5. */
  const AfterBuy: Store := Store([ProductA.(currentStock := 10)], [Buy], [StockMovement("m1", "A", "p1", "2024-01-01", 10, 10)], [])

  /** Buying 10 at 5 raises A from 0 to 10, stores the purchase and writes one
      movement of +10 leaving 10, with no capital movement. */
  lemma BoughtTen()
    ensures Record(Start, Buy, ["m1"], "k1") == Ok(AfterBuy)
  {
    assert FindProduct(Start.products, "A") == Some(ProductA);
    RecordMovements(Start, Buy, ["m1"], "k1");
    assert Buy.items[..1] == Buy.items;
    ApplyAdjusts(Start.products, Purchase, "p1", "2024-01-01", Buy.items, ["m1"]);
    var r := Record(Start, Buy, ["m1"], "k1");
    assert r.Ok?;
    assert r.value.products == AfterBuy.products;
    assert r.value.transactions == AfterBuy.transactions;
    assert r.value.stockMovements == AfterBuy.stockMovements;
    assert r.value.capitalMovements == AfterBuy.capitalMovements;
  }

  /** After the purchase, the sale of 3 passes the stock guard. */
  lemma SaleAccepted()
    ensures Record(AfterBuy, Sell, ["m2"], "k2").Ok?
  {
    assert FindProduct(AfterBuy.products, "A").value.currentStock == 10;
    assert CheckSale(AfterBuy.products, Sell.items).None?;
  }

  /** The stored purchase paid 5 for A, so the sale's A item is attributed 5. */
  lemma SoldThreeAttribution()
    ensures StoredForm(AfterBuy, Sell).items == [Sell.items[0].(purchasePrice := Some(5))]
  {
    assert PurchasedAt(AfterBuy.transactions, "A", 5) by {
      assert AfterBuy.transactions[0].items[0].unitPrice == 5;
    }
    assert MaxPurchasePrice(AfterBuy.transactions, "A") == Some(5);
  }

  /** Then selling 3 at 8 lowers A to 7, attributes the purchase price 5 and
      records a profit of 24 - 15 = 9. */
  lemma SoldThree()
    ensures Record(AfterBuy, Sell, ["m2"], "k2").Ok?
    ensures var afterSell := Record(AfterBuy, Sell, ["m2"], "k2").value;
      && StockOf(afterSell.products, "A") == 7
      && afterSell.transactions[1].items[0].purchasePrice == Some(5)
      && |afterSell.capitalMovements| == 1
      && afterSell.capitalMovements[0].kind == Profit && afterSell.capitalMovements[0].amount == 9
  {
    SaleAccepted();
    RecordStock(AfterBuy, Sell, ["m2"], "k2", "A");
    SoldThreeAttribution();
    assert SaleCost(StoredForm(AfterBuy, Sell).items) == 15;
    RecordAttributes(AfterBuy, Sell, ["m2"], "k2");
    RecordCapital(AfterBuy, Sell, ["m2"], "k2");
  }

  /** Retracting the sale brings A back to 10 and removes its movement; the
      profit movement stays. */
  lemma RetractedSale()
    ensures var afterSell := Record(AfterBuy, Sell, ["m2"], "k2").value;
      var afterRetract := Retract(afterSell, "s1");
      && afterRetract.products == AfterBuy.products
      && StockOf(afterRetract.products, "A") == 10
      && afterRetract.stockMovements == AfterBuy.stockMovements
      && afterRetract.capitalMovements == afterSell.capitalMovements
  {
    SaleAccepted();
    RecordRetractRoundTrip(AfterBuy, Sell, ["m2"], "k2");
  }

  const BuyTwo: Transaction := Tx("p1", Purchase, [Item("i1", "A", 2, 5)], 10)

  /** The store after buying 2 units of A at 5. */
  const AfterBuyTwo: Store := Store([ProductA.(currentStock := 2)], [BuyTwo], [StockMovement("m1", "A", "p1", "2024-01-01", 2, 2)], [])

  /** Buying 2 units of A: stock 2, the purchase stored, one movement of +2. */
  lemma BoughtTwo()
    ensures Record(Start, BuyTwo, ["m1"], "k1") == Ok(AfterBuyTwo)
  {
    assert FindProduct(Start.products, "A") == Some(ProductA);
    RecordMovements(Start, BuyTwo, ["m1"], "k1");
    assert BuyTwo.items[..1] == BuyTwo.items;
    ApplyAdjusts(Start.products, Purchase, "p1", "2024-01-01", BuyTwo.items, ["m1"]);
    var r := Record(Start, BuyTwo, ["m1"], "k1");
    assert r.Ok?;
    assert r.value.products == AfterBuyTwo.products;
    assert r.value.transactions == AfterBuyTwo.transactions;
    assert r.value.stockMovements == AfterBuyTwo.stockMovements;
    assert r.value.capitalMovements == AfterBuyTwo.capitalMovements;
  }

  /** Turning the stored purchase of 2 into a sale of 5 takes A to -5. */
  lemma ResaleGoesNegative()
    ensures StockOf(Revise(AfterBuyTwo, Tx("p1", Sale, [Item("i1", "A", 5, 8)], 40), ["m2"], "k2").products, "A") == -5
  {
    var resale := Tx("p1", Sale, [Item("i1", "A", 5, 8)], 40);
    assert FindTransaction(AfterBuyTwo.transactions, "p1") == Some(BuyTwo);
    assert StockOf(AfterBuyTwo.products, "A") == 2;
    ReviseStock(AfterBuyTwo, resale, ["m2"], "k2", "A");
    assert NetChange(Purchase, BuyTwo.items, "A") == 2;
    assert NetChange(Sale, resale.items, "A") == -5;
  }

  /** Recording a new sale of 5 against the 2 in stock is refused. */
  lemma NewSaleRefused()
    ensures Record(AfterBuyTwo, Tx("s9", Sale, [Item("i9", "A", 5, 8)], 40), ["m9"], "k9").Err?
  {
    var newSale := Tx("s9", Sale, [Item("i9", "A", 5, 8)], 40);
    assert FindProduct(AfterBuyTwo.products, "A").value.currentStock == 2;
    assert CheckSale(AfterBuyTwo.products, newSale.items).Some?;
  }

  /**
   * Revise has no stock guard: with 2 units of A bought, turning that
   * purchase into a sale of 5 drives A to -5, while recording the same sale
   * as a new transaction fails.
   */
  lemma ReviseHasNoGuard()
    ensures StockOf(Revise(AfterBuyTwo, Tx("p1", Sale, [Item("i1", "A", 5, 8)], 40), ["m2"], "k2").products, "A") == -5
    ensures Record(AfterBuyTwo, Tx("s9", Sale, [Item("i9", "A", 5, 8)], 40), ["m9"], "k9").Err?
  {
    ResaleGoesNegative();
    NewSaleRefused();
  }

  const ProductB: Product := Product("B", "Silgi", None, None, 0)

  /**
   * A refused sale keeps the updates of the items before the short one: with
   * 5 units of A and none of B, selling 3 of A and then 1 of B throws on B
   * after A has already gone down to 2. No movement, transaction or capital
   * movement is written.
   */
  lemma FailedSaleKeepsEarlierUpdate()
    ensures var s := Store([ProductA.(currentStock := 5), ProductB], [], [], []);
      var sale := Tx("s1", Sale, [Item("i1", "A", 3, 8), Item("i2", "B", 1, 8)], 32);
      var r := Record(s, sale, ["m1", "m2"], "k1");
      && r.Err?
      && r.error.error == InsufficientStock("B", "Silgi", 0, 1)
      && r.error.store == s.(products := [ProductA.(currentStock := 2), ProductB])
  {
    var products := [ProductA.(currentStock := 5), ProductB];
    var items := [Item("i1", "A", 3, 8), Item("i2", "B", 1, 8)];
    var after := [ProductA.(currentStock := 2), ProductB];
    assert FindProduct(products, "A") == Some(products[0]);
    assert UpdateProduct(products, Moved(products[0], Sale, 3)) == after;
    assert FindProduct(after, "B") == Some(ProductB) by {
      assert after[1..] == [ProductB];
    }
    assert items[1..] == [items[1]];
    assert CheckSale(after, items[1..]) == Some(Refusal(InsufficientStock("B", "Silgi", 0, 1), after));
    assert CheckSale(products, items) == Some(Refusal(InsufficientStock("B", "Silgi", 0, 1), after));
  }
}
