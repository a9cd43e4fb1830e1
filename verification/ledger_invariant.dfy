/**
 * The consistency the engine keeps between its records: every product's
 * stock is the sum of its movements, each stored transaction's movements add
 * up to that transaction's change, and every movement belongs to a stored
 * transaction. Record (under a fresh id), revise and retract preserve it.
 */
module LedgerInvariant {
  import opened Wrappers
  import opened Types
  import opened Movements
  import opened Stock
  import opened StockFacts
  import opened Ledger
  import opened LedgerFacts

  /** Every known product's stock is the sum of the movements for it. */
  ghost predicate StockMatchesMovements(s: Store) {
    forall id :: Known(s.products, id) ==> StockOf(s.products, id) == MovementSum(s.stockMovements, id)
  }

  /** The movements tagged with a stored transaction add up, per known product, to its net change. */
  ghost predicate MovementsMatchTransactions(s: Store) {
    forall t, id ::
      t in s.transactions && Known(s.products, id) ==> TaggedSum(s.stockMovements, t.id, id) == NetChange(t.kind, t.items, id)
  }

  /** Every movement is tagged with the id of a stored transaction. */
  predicate MovementsOwned(s: Store) {
    forall m :: m in s.stockMovements ==> FindTransaction(s.transactions, m.transactionId).Some?
  }

  ghost predicate Consistent(s: Store) {
    && UniqueTransactionIds(s.transactions)
    && StockMatchesMovements(s)
    && MovementsMatchTransactions(s)
    && MovementsOwned(s)
  }

  /** A store whose products all start at zero, with no transactions and no movements, is consistent. */
  lemma {:induction false} EmptyStoreConsistent(products: seq<Product>, capital: seq<CapitalMovement>)
    requires forall k :: 0 <= k < |products| ==> products[k].currentStock == 0
    ensures Consistent(Store(products, [], [], capital))
  {
    forall id | Known(products, id)
      ensures StockOf(products, id) == 0
    {
      var p := FindProduct(products, id).value;
      var k :| 0 <= k < |products| && products[k] == p;
    }
  }

  /** Two transaction lists with the same ids at the same positions find the same ids. */
  lemma {:induction false} FindSameIds(a: seq<Transaction>, b: seq<Transaction>, id: string)
    requires |a| == |b| && forall k :: 0 <= k < |a| ==> a[k].id == b[k].id
    ensures FindTransaction(a, id).Some? == FindTransaction(b, id).Some?
  {
    if FindTransaction(a, id).Some? {
      var k :| 0 <= k < |a| && a[k] == FindTransaction(a, id).value;
      assert b[k].id == id;
    }
    if FindTransaction(b, id).Some? {
      var k :| 0 <= k < |b| && b[k] == FindTransaction(b, id).value;
      assert a[k].id == id;
    }
  }

  /** A stored transaction is found by its id. */
  lemma {:induction false} FindMember(transactions: seq<Transaction>, t: Transaction)
    requires t in transactions
    ensures FindTransaction(transactions, t.id).Some?
  {
    var k :| 0 <= k < |transactions| && transactions[k] == t;
  }

  /** With unique ids, the transaction found by an id is the only one with it. */
  lemma {:induction false} FindUnique(transactions: seq<Transaction>, t: Transaction)
    requires UniqueTransactionIds(transactions) && t in transactions
    ensures FindTransaction(transactions, t.id) == Some(t)
  {
    var k :| 0 <= k < |transactions| && transactions[k] == t;
    var found := FindTransaction(transactions, t.id).value;
    var j :| 0 <= j < |transactions| && transactions[j] == found;
    assert j == k;
  }

  lemma {:induction false} DropTransactionKeepsUnique(transactions: seq<Transaction>, id: string)
    requires UniqueTransactionIds(transactions)
    ensures UniqueTransactionIds(DropTransaction(transactions, id))
  {
    if |transactions| > 0 {
      var rest := DropTransaction(transactions[1..], id);
      DropTransactionKeepsUnique(transactions[1..], id);
      if transactions[0].id != id {
        var r := [transactions[0]] + rest;
        forall i, j | 0 <= i < j < |r| ensures r[i].id != r[j].id {
          if i == 0 {
            assert r[j] == rest[j - 1] && rest[j - 1] in transactions[1..];
          } else {
            assert r[i] == rest[i - 1] && r[j] == rest[j - 1];
          }
        }
      }
    }
  }

  // Record

  /** Record under a fresh id keeps stock equal to the movement sums. */
  lemma {:induction false} RecordKeepsStockMatching(s: Store, tx: Transaction, movementIds: seq<string>, capitalId: string)
    requires |movementIds| == |tx.items|
    requires Record(s, tx, movementIds, capitalId).Ok?
    requires StockMatchesMovements(s)
    ensures StockMatchesMovements(Record(s, tx, movementIds, capitalId).value)
  {
    var r := Record(s, tx, movementIds, capitalId).value;
    forall id | Known(r.products, id)
      ensures StockOf(r.products, id) == MovementSum(r.stockMovements, id)
    {
      RecordStock(s, tx, movementIds, capitalId, id);
    }
  }

  lemma {:induction false} RecordKeepsMovementsMatching(s: Store, tx: Transaction, movementIds: seq<string>, capitalId: string)
    requires |movementIds| == |tx.items|
    requires Record(s, tx, movementIds, capitalId).Ok?
    requires FindTransaction(s.transactions, tx.id).None?
    requires MovementsMatchTransactions(s) && MovementsOwned(s)
    ensures MovementsMatchTransactions(Record(s, tx, movementIds, capitalId).value)
  {
    var r := Record(s, tx, movementIds, capitalId).value;
    var stored := StoredForm(s, tx);
    var applied := Apply(s.products, tx.kind, tx.id, tx.date, tx.items, movementIds);
    RecordShape(s, tx, movementIds, capitalId);
    ApplyTagsMovements(s.products, tx.kind, tx.id, tx.date, tx.items, movementIds);
    assert NoneTagged(s.stockMovements, tx.id);
    forall t, id | t in r.transactions && Known(r.products, id)
      ensures TaggedSum(r.stockMovements, t.id, id) == NetChange(t.kind, t.items, id)
    {
      RecordStock(s, tx, movementIds, capitalId, id);
      TaggedSumAppend(s.stockMovements, applied.movements, t.id, id);
      TaggedSumOfAllTagged(applied.movements, tx.id, t.id, id);
      if t in s.transactions {
        var k :| 0 <= k < |s.transactions| && s.transactions[k] == t;
      } else {
        assert t == stored;
        TaggedSumOfNoneTagged(s.stockMovements, tx.id, id);
        ApplyStock(s.products, tx.kind, tx.id, tx.date, tx.items, movementIds, id);
        NetChangeSameShape(tx.kind, stored.items, tx.items, id);
      }
    }
  }

  lemma {:induction false} RecordKeepsOwnership(s: Store, tx: Transaction, movementIds: seq<string>, capitalId: string)
    requires |movementIds| == |tx.items|
    requires Record(s, tx, movementIds, capitalId).Ok?
    requires FindTransaction(s.transactions, tx.id).None?
    requires MovementsOwned(s) && UniqueTransactionIds(s.transactions)
    ensures MovementsOwned(Record(s, tx, movementIds, capitalId).value)
    ensures UniqueTransactionIds(Record(s, tx, movementIds, capitalId).value.transactions)
  {
    var r := Record(s, tx, movementIds, capitalId).value;
    var stored := StoredForm(s, tx);
    RecordShape(s, tx, movementIds, capitalId);
    ApplyTagsMovements(s.products, tx.kind, tx.id, tx.date, tx.items, movementIds);
    FindTransactionAppendFresh(s.transactions, stored);
    forall m | m in r.stockMovements
      ensures FindTransaction(r.transactions, m.transactionId).Some?
    {
      if m in s.stockMovements {
        var t := FindTransaction(s.transactions, m.transactionId).value;
        FindMember(r.transactions, t);
      }
    }
  }

  /** Recording under a fresh id keeps the store consistent. */
  lemma {:induction false} RecordPreservesConsistency(s: Store, tx: Transaction, movementIds: seq<string>, capitalId: string)
    requires |movementIds| == |tx.items|
    requires Consistent(s)
    requires FindTransaction(s.transactions, tx.id).None?
    requires Record(s, tx, movementIds, capitalId).Ok?
    ensures Consistent(Record(s, tx, movementIds, capitalId).value)
  {
    RecordKeepsStockMatching(s, tx, movementIds, capitalId);
    RecordKeepsMovementsMatching(s, tx, movementIds, capitalId);
    RecordKeepsOwnership(s, tx, movementIds, capitalId);
  }

  // Retract

  lemma {:induction false} RetractKeepsStockMatching(s: Store, id: string)
    requires StockMatchesMovements(s) && MovementsMatchTransactions(s)
    ensures StockMatchesMovements(Retract(s, id))
  {
    if FindTransaction(s.transactions, id).Some? {
      var t := FindTransaction(s.transactions, id).value;
      var r := Retract(s, id);
      forall pid | Known(r.products, pid)
        ensures StockOf(r.products, pid) == MovementSum(r.stockMovements, pid)
      {
        RevertStock(s.products, t.kind, t.items, pid);
        DropTransactionMovementsSums(s.stockMovements, id, id, pid);
        assert TaggedSum(s.stockMovements, t.id, pid) == NetChange(t.kind, t.items, pid);
      }
    }
  }

  lemma {:induction false} RetractKeepsMovementsMatching(s: Store, id: string)
    requires MovementsMatchTransactions(s)
    ensures MovementsMatchTransactions(Retract(s, id))
  {
    if FindTransaction(s.transactions, id).Some? {
      var t0 := FindTransaction(s.transactions, id).value;
      var r := Retract(s, id);
      forall t, pid | t in r.transactions && Known(r.products, pid)
        ensures TaggedSum(r.stockMovements, t.id, pid) == NetChange(t.kind, t.items, pid)
      {
        RevertStock(s.products, t0.kind, t0.items, pid);
        DropTransactionMovementsSums(s.stockMovements, id, t.id, pid);
        assert TaggedSum(s.stockMovements, t.id, pid) == NetChange(t.kind, t.items, pid);
      }
    }
  }

  lemma {:induction false} RetractKeepsOwnership(s: Store, id: string)
    requires MovementsOwned(s) && UniqueTransactionIds(s.transactions)
    ensures MovementsOwned(Retract(s, id))
    ensures UniqueTransactionIds(Retract(s, id).transactions)
  {
    if FindTransaction(s.transactions, id).Some? {
      var r := Retract(s, id);
      DropTransactionKeepsUnique(s.transactions, id);
      forall m | m in r.stockMovements
        ensures FindTransaction(r.transactions, m.transactionId).Some?
      {
        var t := FindTransaction(s.transactions, m.transactionId).value;
        FindMember(r.transactions, t);
      }
    }
  }

  /** Retracting keeps the store consistent. */
  lemma {:induction false} RetractPreservesConsistency(s: Store, id: string)
    requires Consistent(s)
    ensures Consistent(Retract(s, id))
  {
    RetractKeepsStockMatching(s, id);
    RetractKeepsMovementsMatching(s, id);
    RetractKeepsOwnership(s, id);
  }

  // Revise

  lemma {:induction false} ReviseKeepsStockMatching(s: Store, tx: Transaction, movementIds: seq<string>, capitalId: string)
    requires |movementIds| == |tx.items|
    requires StockMatchesMovements(s) && MovementsMatchTransactions(s)
    ensures StockMatchesMovements(Revise(s, tx, movementIds, capitalId))
  {
    if FindTransaction(s.transactions, tx.id).Some? {
      var previous := FindTransaction(s.transactions, tx.id).value;
      var r := Revise(s, tx, movementIds, capitalId);
      forall pid | Known(r.products, pid)
        ensures StockOf(r.products, pid) == MovementSum(r.stockMovements, pid)
      {
        ReviseStock(s, tx, movementIds, capitalId, pid);
        assert TaggedSum(s.stockMovements, previous.id, pid) == NetChange(previous.kind, previous.items, pid);
      }
    }
  }

  lemma {:induction false} ReviseKeepsMovementsMatching(s: Store, tx: Transaction, movementIds: seq<string>, capitalId: string)
    requires |movementIds| == |tx.items|
    requires MovementsMatchTransactions(s)
    ensures MovementsMatchTransactions(Revise(s, tx, movementIds, capitalId))
  {
    if FindTransaction(s.transactions, tx.id).Some? {
      var previous := FindTransaction(s.transactions, tx.id).value;
      var reverted := Revert(s.products, previous.kind, previous.items);
      var applied := Apply(reverted, tx.kind, tx.id, tx.date, tx.items, movementIds);
      var kept := DropTransactionMovements(s.stockMovements, tx.id);
      var r := Revise(s, tx, movementIds, capitalId);
      ReviseShape(s, tx, movementIds, capitalId);
      ApplyTagsMovements(reverted, tx.kind, tx.id, tx.date, tx.items, movementIds);
      forall t, pid | t in r.transactions && Known(r.products, pid)
        ensures TaggedSum(r.stockMovements, t.id, pid) == NetChange(t.kind, t.items, pid)
      {
        ReviseStock(s, tx, movementIds, capitalId, pid);
        var k :| 0 <= k < |r.transactions| && r.transactions[k] == t;
        if s.transactions[k].id == tx.id {
          ReviseReplacesMovements(s, tx, movementIds, capitalId, pid);
        } else {
          TaggedSumAppend(kept, applied.movements, t.id, pid);
          TaggedSumOfAllTagged(applied.movements, tx.id, t.id, pid);
          DropTransactionMovementsSums(s.stockMovements, tx.id, t.id, pid);
          assert t in s.transactions;
        }
      }
    }
  }

  lemma {:induction false} ReviseKeepsOwnership(s: Store, tx: Transaction, movementIds: seq<string>, capitalId: string)
    requires |movementIds| == |tx.items|
    requires MovementsOwned(s) && UniqueTransactionIds(s.transactions)
    ensures MovementsOwned(Revise(s, tx, movementIds, capitalId))
    ensures UniqueTransactionIds(Revise(s, tx, movementIds, capitalId).transactions)
  {
    if FindTransaction(s.transactions, tx.id).Some? {
      var previous := FindTransaction(s.transactions, tx.id).value;
      var reverted := Revert(s.products, previous.kind, previous.items);
      var r := Revise(s, tx, movementIds, capitalId);
      ReviseShape(s, tx, movementIds, capitalId);
      ApplyTagsMovements(reverted, tx.kind, tx.id, tx.date, tx.items, movementIds);
      forall m | m in r.stockMovements
        ensures FindTransaction(r.transactions, m.transactionId).Some?
      {
        FindSameIds(s.transactions, r.transactions, m.transactionId);
      }
    }
  }

  /** Revising keeps the store consistent, whatever the new version holds. */
  lemma {:induction false} RevisePreservesConsistency(s: Store, tx: Transaction, movementIds: seq<string>, capitalId: string)
    requires |movementIds| == |tx.items|
    requires Consistent(s)
    ensures Consistent(Revise(s, tx, movementIds, capitalId))
  {
    ReviseKeepsStockMatching(s, tx, movementIds, capitalId);
    ReviseKeepsMovementsMatching(s, tx, movementIds, capitalId);
    ReviseKeepsOwnership(s, tx, movementIds, capitalId);
  }
}
