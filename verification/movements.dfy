/**
 * The stock-movement ledger: the per-product history accessor
 * (`getStockMovementsByProductId`), the removal of a transaction's rows,
 * and the signed-quantity sums the stock invariant is stated with.
 */
module Movements {
  import opened Types

  /** `getStockMovementsByProductId`: the rows of one product, in ledger order. */
  function MovementsOfProduct(movements: seq<StockMovement>, productId: string): (r: seq<StockMovement>)
    ensures |r| <= |movements|
    ensures forall m :: m in r <==> m in movements && m.productId == productId
  {
    if |movements| == 0 then []
    else
      var rest := MovementsOfProduct(movements[1..], productId);
      assert forall m :: m in movements <==> m == movements[0] || m in movements[1..];
      if movements[0].productId == productId then [movements[0]] + rest else rest
  }

  /** Sum of the signed quantities of a list of rows. */
  function QuantitySum(movements: seq<StockMovement>): int
  {
    if |movements| == 0 then 0 else movements[0].quantity + QuantitySum(movements[1..])
  }

  /** Net signed quantity the ledger records for one product. */
  function MovementSum(movements: seq<StockMovement>, productId: string): int
  {
    if |movements| == 0 then 0
    else
      (if movements[0].productId == productId then movements[0].quantity else 0)
      + MovementSum(movements[1..], productId)
  }

  /** Net signed quantity recorded for one product by the rows of one transaction. */
  function TaggedSum(movements: seq<StockMovement>, transactionId: string, productId: string): int
  {
    if |movements| == 0 then 0
    else
      (if movements[0].transactionId == transactionId && movements[0].productId == productId
       then movements[0].quantity else 0)
      + TaggedSum(movements[1..], transactionId, productId)
  }

  predicate AllTagged(movements: seq<StockMovement>, transactionId: string) {
    forall m :: m in movements ==> m.transactionId == transactionId
  }

  predicate NoneTagged(movements: seq<StockMovement>, transactionId: string) {
    forall m :: m in movements ==> m.transactionId != transactionId
  }

  /** `stockMovements.filter(sm => sm.transactionId !== id)`. */
  function DropTransactionMovements(movements: seq<StockMovement>, transactionId: string): (r: seq<StockMovement>)
    ensures forall m :: m in r <==> m in movements && m.transactionId != transactionId
    ensures |r| <= |movements|
  {
    if |movements| == 0 then []
    else
      var rest := DropTransactionMovements(movements[1..], transactionId);
      assert forall m :: m in movements <==> m == movements[0] || m in movements[1..];
      if movements[0].transactionId != transactionId then [movements[0]] + rest else rest
  }

  /** The stock a product's history adds up to is the sum over the rows the
      history accessor returns for it. */
  lemma {:induction false} MovementSumIsHistorySum(movements: seq<StockMovement>, productId: string)
    ensures MovementSum(movements, productId) == QuantitySum(MovementsOfProduct(movements, productId))
  {
    if |movements| > 0 {
      MovementSumIsHistorySum(movements[1..], productId);
    }
  }

  lemma {:induction false} MovementSumAppend(a: seq<StockMovement>, b: seq<StockMovement>, productId: string)
    ensures MovementSum(a + b, productId) == MovementSum(a, productId) + MovementSum(b, productId)
  {
    if |a| > 0 {
      assert (a + b)[1..] == a[1..] + b;
      MovementSumAppend(a[1..], b, productId);
    } else {
      assert a + b == b;
    }
  }

  lemma {:induction false} TaggedSumAppend(a: seq<StockMovement>, b: seq<StockMovement>, transactionId: string, productId: string)
    ensures TaggedSum(a + b, transactionId, productId)
         == TaggedSum(a, transactionId, productId) + TaggedSum(b, transactionId, productId)
  {
    if |a| > 0 {
      assert (a + b)[1..] == a[1..] + b;
      TaggedSumAppend(a[1..], b, transactionId, productId);
    } else {
      assert a + b == b;
    }
  }

  /** Rows that all belong to one transaction: its tagged sum is the whole
      sum, and every other transaction's tagged sum is zero. */
  lemma {:induction false} TaggedSumOfAllTagged(movements: seq<StockMovement>, transactionId: string, other: string, productId: string)
    requires AllTagged(movements, transactionId)
    ensures TaggedSum(movements, transactionId, productId) == MovementSum(movements, productId)
    ensures other != transactionId ==> TaggedSum(movements, other, productId) == 0
  {
    if |movements| > 0 {
      assert movements[0] in movements;
      TaggedSumOfAllTagged(movements[1..], transactionId, other, productId);
    }
  }

  lemma {:induction false} TaggedSumOfNoneTagged(movements: seq<StockMovement>, transactionId: string, productId: string)
    requires NoneTagged(movements, transactionId)
    ensures TaggedSum(movements, transactionId, productId) == 0
  {
    if |movements| > 0 {
      assert movements[0] in movements;
      TaggedSumOfNoneTagged(movements[1..], transactionId, productId);
    }
  }

  /** Dropping a transaction's rows takes exactly its tagged sum off a product's
      total, and leaves every other transaction's rows as they were. */
  lemma {:induction false} DropTransactionMovementsSums(movements: seq<StockMovement>, transactionId: string, other: string, productId: string)
    ensures MovementSum(DropTransactionMovements(movements, transactionId), productId)
         == MovementSum(movements, productId) - TaggedSum(movements, transactionId, productId)
    ensures TaggedSum(DropTransactionMovements(movements, transactionId), other, productId)
         == if other == transactionId then 0 else TaggedSum(movements, other, productId)
  {
    if |movements| > 0 {
      DropTransactionMovementsSums(movements[1..], transactionId, other, productId);
    }
  }

  /** Dropping the rows of a transaction that has none leaves the ledger as it is. */
  lemma {:induction false} DropUntagged(movements: seq<StockMovement>, transactionId: string)
    requires NoneTagged(movements, transactionId)
    ensures DropTransactionMovements(movements, transactionId) == movements
  {
    if |movements| > 0 {
      assert movements[0] in movements;
      DropUntagged(movements[1..], transactionId);
      assert movements == [movements[0]] + movements[1..];
    }
  }

  /** The filter keeps order: dropping from a concatenation drops from each part. */
  lemma {:induction false} DropTransactionMovementsAppend(a: seq<StockMovement>, b: seq<StockMovement>, transactionId: string)
    ensures DropTransactionMovements(a + b, transactionId)
         == DropTransactionMovements(a, transactionId) + DropTransactionMovements(b, transactionId)
  {
    if |a| > 0 {
      var ab := a + b;
      assert ab[0] == a[0] && ab[1..] == a[1..] + b;
      var head := if a[0].transactionId != transactionId then [a[0]] else [];
      assert DropTransactionMovements(ab, transactionId) == head + DropTransactionMovements(a[1..] + b, transactionId);
      assert DropTransactionMovements(a, transactionId) == head + DropTransactionMovements(a[1..], transactionId);
      DropTransactionMovementsAppend(a[1..], b, transactionId);
    } else {
      assert a + b == b;
    }
  }

  /** Dropping a transaction's rows from the ledger with its own rows appended
      gives back the ledger without them. */
  lemma {:induction false} DropAppendedTagged(a: seq<StockMovement>, b: seq<StockMovement>, transactionId: string)
    requires AllTagged(b, transactionId)
    ensures DropTransactionMovements(a + b, transactionId) == DropTransactionMovements(a, transactionId)
  {
    if |a| > 0 {
      assert (a + b)[1..] == a[1..] + b;
      DropAppendedTagged(a[1..], b, transactionId);
    } else {
      assert a + b == b;
      if |b| > 0 {
        assert b[0] in b;
        assert forall m :: m in b[1..] ==> m in b;
        DropAppendedTagged(a, b[1..], transactionId);
        assert a + b[1..] == b[1..];
      }
    }
  }
}
