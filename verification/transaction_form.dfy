/**
 * The transaction form's bookkeeping: editing an item keeps its total and
 * the transaction's total amount in step, adding and removing items keep the
 * list usable, and submitting picks the id the engine receives.
 */
module TransactionForm {
  import opened Wrappers
  import opened Types
  import opened Stock

  /** Sum of the items' totals (the `reduce` at Transactions.tsx:115 and :135). */
  function SumTotals(items: seq<TransactionItem>): int {
    if |items| == 0 then 0 else items[0].total + SumTotals(items[1..])
  }

  lemma {:induction false} SumTotalsAppend(a: seq<TransactionItem>, b: seq<TransactionItem>)
    ensures SumTotals(a + b) == SumTotals(a) + SumTotals(b)
  {
    if |a| > 0 {
      assert (a + b)[0] == a[0] && (a + b)[1..] == a[1..] + b;
      SumTotalsAppend(a[1..], b);
    } else {
      assert a + b == b;
    }
  }

  /** Replacing one item changes the sum by exactly the difference of the two totals. */
  lemma {:induction false} SumTotalsUpdate(items: seq<TransactionItem>, i: nat, item: TransactionItem)
    requires i < |items|
    ensures SumTotals(items[i := item]) == SumTotals(items) - items[i].total + item.total
  {
    if i == 0 {
      assert items[i := item][1..] == items[1..];
    } else {
      assert items[i := item][1..] == items[1..][i - 1 := item];
      SumTotalsUpdate(items[1..], i - 1, item);
    }
  }

  /** Removing one item takes exactly its total off the sum. */
  lemma {:induction false} SumTotalsRemove(items: seq<TransactionItem>, i: nat)
    requires i < |items|
    ensures SumTotals(items[..i] + items[i + 1..]) == SumTotals(items) - items[i].total
  {
    var front, back := items[..i], items[i + 1..];
    var rest := [items[i]] + back;
    assert items == front + rest;
    assert rest[0] == items[i] && rest[1..] == back;
    SumTotalsAppend(front, rest);
    SumTotalsAppend(front, back);
  }

  /** The form keeps the total amount equal to the sum of the item totals. */
  predicate TotalsAgree(form: Transaction) {
    form.totalAmount == SumTotals(form.items)
  }

  /** `initialItemState` (Transactions.tsx:33-39) under a fresh id: one of a product not yet chosen, at no price. */
  function BlankItem(id: string): (item: TransactionItem)
    ensures item.id == id && item.productId == ""
    ensures item.quantity == 1 && item.unitPrice == 0 && item.total == 0 && item.purchasePrice.None?
  {
    TransactionItem(id, "", 1, 0, 0, None)
  }

  /** `initialTransactionState` (Transactions.tsx:41-51): a purchase with one blank item and nothing to pay. */
  function InitialForm(itemId: string, date: string): (form: Transaction)
    ensures form.kind == Purchase && |form.items| == 1 && form.items[0] == BlankItem(itemId)
    ensures TotalsAgree(form) && form.totalAmount == 0
  {
    Transaction("", Purchase, date, "", [BlankItem(itemId)], Cash, Some(""), 0, Some(0.0), None)
  }

  /** One change of an item input. A number input that does not parse is `None`. */
  datatype ItemEdit = SelectProduct(productId: string) | SetQuantity(quantity: Option<int>) | SetUnitPrice(unitPrice: Option<int>)

  /** `parseFloat(value) || 0`: an unparsable input reads as 0. */
  function NumberInput(input: Option<int>): int {
    match input case Some(v) => v case None => 0
  }

  /** `quantity || 1`: a zero quantity reads as 1 when another field is edited. */
  function QuantityOrOne(quantity: int): (q: int)
    ensures q != 0
    ensures quantity != 0 ==> q == quantity
  {
    if quantity == 0 then 1 else quantity
  }

  /**
   * One edited item (Transactions.tsx:83-113). Selecting a product keeps the
   * unit price when the product exists and sets it to 0 otherwise; setting a
   * number stores the parsed value. Either way the total is recomputed from
   * the unit price and the quantity; when the quantity is not the field being
   * set, a stored zero quantity counts as 1.
   */
  function EditItem(products: seq<Product>, item: TransactionItem, edit: ItemEdit): (r: TransactionItem)
    ensures r.id == item.id && r.purchasePrice == item.purchasePrice
    ensures edit.SelectProduct? ==>
              r.productId == edit.productId && r.quantity == item.quantity
              && r.unitPrice == (if Known(products, edit.productId) then item.unitPrice else 0)
    ensures edit.SetQuantity? ==>
              r.productId == item.productId && r.unitPrice == item.unitPrice && r.quantity == NumberInput(edit.quantity)
    ensures edit.SetUnitPrice? ==>
              r.productId == item.productId && r.quantity == item.quantity && r.unitPrice == NumberInput(edit.unitPrice)
    ensures r.quantity != 0 || edit.SetQuantity? ==> r.total == r.quantity * r.unitPrice
    ensures r.quantity == 0 && !edit.SetQuantity? ==> r.total == r.unitPrice
  {
    match edit
    case SelectProduct(productId) =>
      var unitPrice := if FindProduct(products, productId).Some? then item.unitPrice else 0;
      item.(productId := productId, unitPrice := unitPrice, total := unitPrice * QuantityOrOne(item.quantity))
    case SetQuantity(input) =>
      var quantity := NumberInput(input);
      item.(quantity := quantity, total := item.unitPrice * quantity)
    case SetUnitPrice(input) =>
      var unitPrice := NumberInput(input);
      item.(unitPrice := unitPrice, total := unitPrice * QuantityOrOne(item.quantity))
  }

  /** A price edit on an item whose quantity was cleared to 0 leaves a total of
      one unit's price beside the zero quantity. */
  lemma {:induction false} ZeroQuantityPriceEdit(products: seq<Product>)
    ensures var r := EditItem(products, TransactionItem("i", "A", 0, 0, 0, None), SetUnitPrice(Some(5)));
      r.quantity == 0 && r.unitPrice == 5 && r.total == 5 && r.total != r.quantity * r.unitPrice
  {
  }

  /**
   * `handleItemChange` (Transactions.tsx:83-122): item `index` is edited,
   * every other item and every other field of the form stays, and the total
   * amount becomes the sum of the item totals.
   */
  function HandleItemChange(products: seq<Product>, form: Transaction, index: nat, edit: ItemEdit): (r: Transaction)
    requires index < |form.items|
    ensures |r.items| == |form.items|
    ensures forall j :: 0 <= j < |form.items| && j != index ==> r.items[j] == form.items[j]
    ensures r.items[index] == EditItem(products, form.items[index], edit)
    ensures r == form.(items := r.items, totalAmount := r.totalAmount)
    ensures TotalsAgree(r)
    ensures TotalsAgree(form) ==> r.totalAmount == form.totalAmount - form.items[index].total + r.items[index].total
  {
    var items := form.items[index := EditItem(products, form.items[index], edit)];
    SumTotalsUpdate(form.items, index, items[index]);
    form.(items := items, totalAmount := SumTotals(items))
  }

  /** `addItem` (Transactions.tsx:124-129): one blank item at the end; the total amount is left as it was. */
  function AddItem(form: Transaction, itemId: string): (r: Transaction)
    ensures |r.items| == |form.items| + 1 && r.items[..|form.items|] == form.items
    ensures r.items[|form.items|] == BlankItem(itemId)
    ensures r == form.(items := r.items)
    ensures SumTotals(r.items) == SumTotals(form.items)
    ensures TotalsAgree(form) ==> TotalsAgree(r)
  {
    SumTotalsAppend(form.items, [BlankItem(itemId)]);
    assert SumTotals([BlankItem(itemId)]) == 0;
    form.(items := form.items + [BlankItem(itemId)])
  }

  /**
   * `removeItem` (Transactions.tsx:131-142): item `index` goes; the list is
   * never left empty, a blank item taking the last one's place; the total
   * amount is the sum of the remaining totals.
   */
  function RemoveItem(form: Transaction, index: nat, itemId: string): (r: Transaction)
    requires index < |form.items|
    ensures |r.items| >= 1
    ensures |form.items| > 1 ==> r.items == form.items[..index] + form.items[index + 1..]
    ensures |form.items| == 1 ==> r.items == [BlankItem(itemId)]
    ensures r == form.(items := r.items, totalAmount := r.totalAmount)
    ensures r.totalAmount == SumTotals(form.items) - form.items[index].total
    ensures TotalsAgree(r)
  {
    var rest := form.items[..index] + form.items[index + 1..];
    SumTotalsRemove(form.items, index);
    assert SumTotals([BlankItem(itemId)]) == 0;
    form.(items := if |rest| > 0 then rest else [BlankItem(itemId)], totalAmount := SumTotals(rest))
  }

  /** What a submitted form asks the engine for. */
  datatype Submission = RecordRequest(tx: Transaction) | ReviseRequest(tx: Transaction)

  /**
   * `handleSubmit` (Transactions.tsx:144-160): while editing, the form revises
   * the transaction it was opened on, under that transaction's id; otherwise
   * it records a new transaction under the fresh id. Only the id differs from
   * the form.
   */
  function Submit(form: Transaction, editing: Option<Transaction>, freshId: string): (r: Submission)
    ensures r.ReviseRequest? <==> editing.Some?
    ensures r.tx.id == (if editing.Some? then editing.value.id else freshId)
    ensures r.tx == form.(id := r.tx.id)
    ensures TotalsAgree(form) ==> TotalsAgree(r.tx)
  {
    match editing
    case Some(t) => ReviseRequest(form.(id := t.id))
    case None => RecordRequest(form.(id := freshId))
  }
}
