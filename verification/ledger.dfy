/**
 * The ledger engine: recording, revising and retracting a transaction over
 * one immutable store of products, transactions, stock movements and
 * capital movements.
 *
 * Each handler is read as a sequential program: a lookup inside a handler
 * sees the writes that handler made before it (the stock a later item of
 * the same transaction sees is the stock the earlier items left). Fresh
 * identifiers are parameters: `movementIds[i]` names the movement item `i`
 * would create and `capitalId` the capital movement.
 */
module Ledger {
  import opened Wrappers
  import opened Types
  import opened Movements
  import opened Stock
  import opened StockFacts
  import opened Attribution
  import opened CapitalLink

  datatype Store = Store(
    products: seq<Product>,
    transactions: seq<Transaction>,
    stockMovements: seq<StockMovement>,
    capitalMovements: seq<CapitalMovement>)

  /** `transactions.find(t => t.id === id)`: the first transaction with that id. */
  function FindTransaction(transactions: seq<Transaction>, id: string): (r: Option<Transaction>)
    ensures r.Some? ==> r.value.id == id && r.value in transactions
    ensures r.Some? ==> exists k :: 0 <= k < |transactions| && transactions[k] == r.value && forall j :: 0 <= j < k ==> transactions[j].id != id
    ensures r.None? <==> forall k :: 0 <= k < |transactions| ==> transactions[k].id != id
  {
    if |transactions| == 0 then None
    else if transactions[0].id == id then Some(transactions[0])
    else
      var r := FindTransaction(transactions[1..], id);
      assert r.Some? ==> exists k :: 0 <= k < |transactions| && transactions[k] == r.value && forall j :: 0 <= j < k ==> transactions[j].id != id by {
        if r.Some? {
          var k :| 0 <= k < |transactions[1..]| && transactions[1..][k] == r.value && forall j :: 0 <= j < k ==> transactions[1..][j].id != id;
          assert transactions[k + 1] == r.value;
          forall j | 0 <= j < k + 1
            ensures transactions[j].id != id
          {
            if j > 0 {
              assert transactions[j] == transactions[1..][j - 1];
            }
          }
        }
      }
      r
  }

  predicate UniqueTransactionIds(transactions: seq<Transaction>) {
    forall i, j :: 0 <= i < j < |transactions| ==> transactions[i].id != transactions[j].id
  }

  /** `transactions.map(t => t.id === tx.id ? tx : t)`: replacement in place. */
  function ReplaceTransaction(transactions: seq<Transaction>, tx: Transaction): (r: seq<Transaction>)
    ensures |r| == |transactions|
    ensures forall k :: 0 <= k < |r| ==> r[k].id == transactions[k].id
    ensures forall k :: 0 <= k < |r| && transactions[k].id != tx.id ==> r[k] == transactions[k]
    ensures forall k :: 0 <= k < |r| && transactions[k].id == tx.id ==> r[k] == tx
  {
    seq(|transactions|, k requires 0 <= k < |transactions| => if transactions[k].id == tx.id then tx else transactions[k])
  }

  /** `transactions.filter(t => t.id !== id)`. */
  function DropTransaction(transactions: seq<Transaction>, id: string): (r: seq<Transaction>)
    ensures |r| <= |transactions|
    ensures forall t :: t in r <==> t in transactions && t.id != id
  {
    if |transactions| == 0 then []
    else
      assert forall t :: t in transactions <==> t == transactions[0] || t in transactions[1..];
      (if transactions[0].id == id then [] else [transactions[0]]) + DropTransaction(transactions[1..], id)
  }

  /** A refused record: the error thrown, and the store as the handler left
      it: the stock updates of the items before the short one are kept, and
      no movement, transaction or capital movement is written. */
  datatype Rejection = Rejection(error: StockError, store: Store)

  /**
   * `addTransaction` (AppContext.tsx:106-191). A sale's items are first run
   * through the insufficient-stock guard; when an item is short the handler
   * throws, keeping the stock updates the earlier items already made.
   * Otherwise the items move stock and write movements; a sale's items get
   * their purchase prices attributed from the stored purchases; the
   * transaction is appended; a sale with a non-zero profit appends its
   * linked profit or loss movement.
   */
  function Record(s: Store, tx: Transaction, movementIds: seq<string>, capitalId: string): (r: Result<Store, Rejection>)
    requires |movementIds| == |tx.items|
    ensures r.Err? ==> tx.kind == Sale && r.error.error.available < r.error.error.requested
    ensures r.Err? ==> r.error.store == s.(products := r.error.store.products) && |r.error.store.products| == |s.products|
    ensures tx.kind == Purchase ==> r.Ok?
    ensures r.Ok? ==> |r.value.products| == |s.products|
    ensures r.Ok? ==> |r.value.transactions| == |s.transactions| + 1
                      && r.value.transactions[..|s.transactions|] == s.transactions
                      && r.value.transactions[|s.transactions|].id == tx.id
    ensures r.Ok? ==> |s.stockMovements| <= |r.value.stockMovements| <= |s.stockMovements| + |tx.items|
                      && r.value.stockMovements[..|s.stockMovements|] == s.stockMovements
    ensures r.Ok? ==> |s.capitalMovements| <= |r.value.capitalMovements| <= |s.capitalMovements| + 1
                      && r.value.capitalMovements[..|s.capitalMovements|] == s.capitalMovements
    ensures r.Ok? && tx.kind == Purchase ==>
              r.value.transactions[|s.transactions|] == tx && r.value.capitalMovements == s.capitalMovements
  {
    match (if tx.kind == Sale then CheckSale(s.products, tx.items) else None)
    case Some(refusal) => Err(Rejection(refusal.error, s.(products := refusal.products)))
    case None =>
      var applied := Apply(s.products, tx.kind, tx.id, tx.date, tx.items, movementIds);
      var stored := if tx.kind == Sale then tx.(items := AttributeItems(s.products, s.transactions, tx.items)) else tx;
      Ok(Store(
        applied.products,
        s.transactions + [stored],
        s.stockMovements + applied.movements,
        AppendProfitMovement(s.capitalMovements, s.products, stored, capitalId)))
  }

  /**
   * `updateTransaction` (AppContext.tsx:193-283). An unknown id changes
   * nothing. Otherwise, in order: the old items' changes are taken back out
   * of stock; the old movements are removed; if the old version was a sale,
   * the capital movements linked to it are removed; the transaction is
   * replaced in place; a sale's profit is computed from the purchase prices
   * it carries and, when non-zero, appended as a linked movement; the new
   * items move stock and write movements, with no stock guard.
   */
  function Revise(s: Store, tx: Transaction, movementIds: seq<string>, capitalId: string): (r: Store)
    requires |movementIds| == |tx.items|
    ensures FindTransaction(s.transactions, tx.id).None? ==> r == s
    ensures |r.products| == |s.products|
    ensures |r.transactions| == |s.transactions|
    ensures FindTransaction(s.transactions, tx.id).Some? ==>
              && (forall m :: m in r.stockMovements && m.transactionId != tx.id <==> m in s.stockMovements && m.transactionId != tx.id)
              && |r.capitalMovements| <= |s.capitalMovements| + 1
  {
    match FindTransaction(s.transactions, tx.id)
    case None => s
    case Some(previous) =>
      var reverted := Revert(s.products, previous.kind, previous.items);
      var kept := DropTransactionMovements(s.stockMovements, tx.id);
      var capital := if previous.kind == Sale then DropLinked(s.capitalMovements, tx.id) else s.capitalMovements;
      var applied := Apply(reverted, tx.kind, tx.id, tx.date, tx.items, movementIds);
      ApplyMovementsTagged(reverted, tx, movementIds);
      Store(
        applied.products,
        ReplaceTransaction(s.transactions, tx),
        kept + applied.movements,
        AppendProfitMovement(capital, s.products, tx, capitalId))
  }

  /** Every movement the forward pass writes carries the transaction's id. */
  lemma {:induction false} ApplyMovementsTagged(products: seq<Product>, tx: Transaction, movementIds: seq<string>)
    requires |movementIds| == |tx.items|
    ensures forall m :: m in Apply(products, tx.kind, tx.id, tx.date, tx.items, movementIds).movements ==> m.transactionId == tx.id
  {
    ApplyTagsMovements(products, tx.kind, tx.id, tx.date, tx.items, movementIds);
  }

  /**
   * `deleteTransaction` (AppContext.tsx:285-309). An unknown id changes
   * nothing. Otherwise the items' changes are taken back out of stock, the
   * transaction's movements and the transaction itself are removed; the
   * capital movements are left as they are.
   */
  function Retract(s: Store, id: string): (r: Store)
    ensures FindTransaction(s.transactions, id).None? ==> r == s
    ensures r.capitalMovements == s.capitalMovements
    ensures |r.products| == |s.products|
    ensures forall t :: t in r.transactions <==> t in s.transactions && t.id != id
    ensures FindTransaction(s.transactions, id).Some? ==>
              forall m :: m in r.stockMovements <==> m in s.stockMovements && m.transactionId != id
  {
    match FindTransaction(s.transactions, id)
    case None => s
    case Some(tx) =>
      s.(products := Revert(s.products, tx.kind, tx.items),
         transactions := DropTransaction(s.transactions, id),
         stockMovements := DropTransactionMovements(s.stockMovements, id))
  }
}
