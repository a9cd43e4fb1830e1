/**
 * The capital linker: the profit or loss movement a sale produces, the
 * description text that carries the sale's identifier, and the filter that
 * finds those movements again by that text.
 */
module CapitalLink {
  import opened Wrappers
  import opened Types
  import opened Text
  import opened Stock
  import opened Attribution

  /** The label the capital page looks for (`includes` and `startsWith`). */
  const LinkLabel: string := "İşlem No:"
  /** The label with its trailing space, as written before the identifier. */
  const LinkMarker: string := "İşlem No: "

  /** The first line of a generated description: the label and the transaction identifier. */
  function LinkToken(transactionId: string): (r: string)
    ensures StartsWith(r, LinkLabel) && StartsWith(r, LinkMarker)
    ensures r[|LinkMarker|..] == transactionId
  {
    assert (LinkMarker + transactionId)[..|LinkLabel|] == LinkLabel;
    LinkMarker + transactionId
  }

  function Abs(x: int): nat {
    if x < 0 then -x else x
  }

  /** One line of the item details: product name, quantity, purchase price and unit price; a missing value reads "undefined". */
  function ItemDetail(products: seq<Product>, item: TransactionItem): string {
    var name := match FindProduct(products, item.productId) case Some(p) => p.name case None => "undefined";
    var bought := match item.purchasePrice case Some(price) => IntToString(price) case None => "undefined";
    name + ": " + IntToString(item.quantity) + " adet, Alış: " + bought + "₺, Satış: " + IntToString(item.unitPrice) + "₺"
  }

  /**
   * The description of a sale's profit or loss movement (AppContext.tsx:171-187):
   * the link line, a summary line, the sale total, the cost, the signed
   * outcome, a blank line, a heading and one detail line per item.
   */
  function ProfitDescription(products: seq<Product>, tx: Transaction): (d: string)
    ensures StartsWith(d, LinkToken(tx.id) + "\n")
  {
    var profit := SaleProfit(tx);
    var details := seq(|tx.items|, i requires 0 <= i < |tx.items| => ItemDetail(products, tx.items[i]));
    var rest :=
      IntToString(|tx.items|) + " ürün satışından " + (if profit > 0 then "kar" else "zarar") + "\n"
      + "Toplam Satış: " + IntToString(tx.totalAmount) + "₺\n"
      + "Toplam Maliyet: " + IntToString(SaleCost(tx.items)) + "₺\n"
      + (if profit > 0 then "Kar" else "Zarar") + ": " + IntToString(Abs(profit)) + "₺\n\n"
      + "Ürün Detayları:\n" + Join(details, "\n");
    var line := LinkToken(tx.id) + "\n";
    assert (line + rest)[..|line|] == line;
    line + rest
  }

  /**
   * The capital movement recorded for a sale with a non-zero profit
   * (AppContext.tsx:171-189): a profit for a gain and a loss otherwise, for
   * the absolute amount, dated like the sale and linked to it.
   */
  function ProfitMovement(products: seq<Product>, tx: Transaction, capitalId: string): (m: CapitalMovement)
    requires SaleProfit(tx) != 0
    ensures m.amount > 0 && m.amount == Abs(SaleProfit(tx))
    ensures m.kind == Profit <==> SaleProfit(tx) > 0
    ensures m.kind == Loss <==> SaleProfit(tx) < 0
    ensures m.id == capitalId && m.date == tx.date
    ensures m.description.Some? && StartsWith(m.description.value, LinkToken(tx.id) + "\n")
  {
    var profit := SaleProfit(tx);
    CapitalMovement(capitalId, tx.date, if profit > 0 then Profit else Loss, Abs(profit), Some(ProfitDescription(products, tx)))
  }

  /** `addCapitalMovement` (AppContext.tsx:327-329): the movement goes to the end of the list. */
  function AddCapitalMovement(movements: seq<CapitalMovement>, m: CapitalMovement): (r: seq<CapitalMovement>)
    ensures |r| == |movements| + 1 && r[..|movements|] == movements && r[|movements|] == m
  {
    movements + [m]
  }

  /** Whether a sale produces a capital movement: only a sale, and only with a non-zero profit. */
  predicate MakesCapitalMovement(tx: Transaction) {
    tx.kind == Sale && SaleProfit(tx) != 0
  }

  /**
   * The capital step of recording or revising (AppContext.tsx:160-191 and
   * :223-254): a sale with a non-zero profit appends its linked profit or
   * loss movement; anything else leaves the list alone.
   */
  function AppendProfitMovement(movements: seq<CapitalMovement>, products: seq<Product>, tx: Transaction, capitalId: string): (r: seq<CapitalMovement>)
    ensures |r| == |movements| + (if MakesCapitalMovement(tx) then 1 else 0)
    ensures r[..|movements|] == movements
    ensures MakesCapitalMovement(tx) ==> r[|movements|].id == capitalId && r[|movements|].amount == Abs(SaleProfit(tx))
    ensures MakesCapitalMovement(tx) ==> IsLinked(r[|movements|], tx.id)
    ensures MakesCapitalMovement(tx) ==>
              (r[|movements|].kind == Profit <==> SaleProfit(tx) > 0) && (r[|movements|].kind == Loss <==> SaleProfit(tx) < 0)
  {
    if MakesCapitalMovement(tx) then
      var m := ProfitMovement(products, tx, capitalId);
      LinkedByPrefix(m.description.value, LinkToken(tx.id) + "\n", tx.id);
      AddCapitalMovement(movements, m)
    else movements
  }

  /** A description that starts with the link line is linked to that transaction. */
  lemma {:induction false} LinkedByPrefix(description: string, line: string, transactionId: string)
    requires line == LinkToken(transactionId) + "\n"
    ensures StartsWith(description, line) ==> Contains(description, LinkToken(transactionId))
  {
    if StartsWith(description, line) {
      var token := LinkToken(transactionId);
      assert description[..|token|] == line[..|token|];
      assert StartsWith(description[0..], token);
    }
  }

  /** The test in `updateTransaction` (AppContext.tsx:217): the description contains the label, a space and the identifier. */
  predicate IsLinked(m: CapitalMovement, transactionId: string) {
    m.description.Some? && Contains(m.description.value, LinkToken(transactionId))
  }

  /** Removal of a sale's capital movements by their description (AppContext.tsx:216-218). */
  function DropLinked(movements: seq<CapitalMovement>, transactionId: string): (r: seq<CapitalMovement>)
    ensures |r| <= |movements|
    ensures forall m :: m in r <==> m in movements && !IsLinked(m, transactionId)
  {
    if |movements| == 0 then []
    else
      assert forall m :: m in movements <==> m == movements[0] || m in movements[1..];
      (if IsLinked(movements[0], transactionId) then [] else [movements[0]]) + DropLinked(movements[1..], transactionId)
  }

  /** Number of movements linked to a transaction. */
  function LinkedCount(movements: seq<CapitalMovement>, transactionId: string): (n: nat)
    ensures n <= |movements|
    ensures n == 0 <==> forall i :: 0 <= i < |movements| ==> !IsLinked(movements[i], transactionId)
  {
    if |movements| == 0 then 0
    else
      assert forall i :: 1 <= i < |movements| ==> movements[i] == movements[1..][i - 1];
      (if IsLinked(movements[0], transactionId) then 1 else 0) + LinkedCount(movements[1..], transactionId)
  }

  /** The filter keeps order: dropping from a concatenation drops from each part. */
  lemma {:induction false} DropLinkedAppend(a: seq<CapitalMovement>, b: seq<CapitalMovement>, transactionId: string)
    ensures DropLinked(a + b, transactionId) == DropLinked(a, transactionId) + DropLinked(b, transactionId)
  {
    if |a| > 0 {
      assert (a + b)[0] == a[0] && (a + b)[1..] == a[1..] + b;
      DropLinkedAppend(a[1..], b, transactionId);
    } else {
      assert a + b == b;
    }
  }

  lemma {:induction false} LinkedCountAppend(a: seq<CapitalMovement>, b: seq<CapitalMovement>, transactionId: string)
    ensures LinkedCount(a + b, transactionId) == LinkedCount(a, transactionId) + LinkedCount(b, transactionId)
  {
    if |a| > 0 {
      assert (a + b)[0] == a[0] && (a + b)[1..] == a[1..] + b;
      LinkedCountAppend(a[1..], b, transactionId);
    } else {
      assert a + b == b;
    }
  }

  /** After the removal, nothing linked to the transaction is left. */
  lemma {:induction false} DropLinkedLeavesNone(movements: seq<CapitalMovement>, transactionId: string)
    ensures LinkedCount(DropLinked(movements, transactionId), transactionId) == 0
  {
    var r := DropLinked(movements, transactionId);
    forall i | 0 <= i < |r| ensures !IsLinked(r[i], transactionId) {
      assert r[i] in r;
    }
  }

  /** Removing the links of a sale, then appending its new movement, leaves at most one link. */
  lemma {:induction false} AtMostOneLinkAfterReplace(movements: seq<CapitalMovement>, products: seq<Product>, tx: Transaction, capitalId: string)
    ensures LinkedCount(AppendProfitMovement(DropLinked(movements, tx.id), products, tx, capitalId), tx.id)
            == (if MakesCapitalMovement(tx) then 1 else 0)
  {
    var dropped := DropLinked(movements, tx.id);
    var r := AppendProfitMovement(dropped, products, tx, capitalId);
    DropLinkedLeavesNone(movements, tx.id);
    if MakesCapitalMovement(tx) {
      assert r == dropped + [r[|dropped|]];
      LinkedCountAppend(dropped, [r[|dropped|]], tx.id);
    }
  }

  /** Removing a sale's links right after appending its movement gives back the list before the append. */
  lemma {:induction false} DropLinkedUndoesAppend(movements: seq<CapitalMovement>, products: seq<Product>, tx: Transaction, capitalId: string)
    requires LinkedCount(movements, tx.id) == 0
    ensures DropLinked(AppendProfitMovement(movements, products, tx, capitalId), tx.id) == movements
  {
    DropUnlinked(movements, tx.id);
    var r := AppendProfitMovement(movements, products, tx, capitalId);
    if MakesCapitalMovement(tx) {
      assert r == movements + [r[|movements|]];
      DropLinkedAppend(movements, [r[|movements|]], tx.id);
      assert [r[|movements|]][1..] == [];
    }
  }

  /** Removing links from a list with none leaves it unchanged. */
  lemma {:induction false} DropUnlinked(movements: seq<CapitalMovement>, transactionId: string)
    requires LinkedCount(movements, transactionId) == 0
    ensures DropLinked(movements, transactionId) == movements
  {
    if |movements| > 0 {
      assert !IsLinked(movements[0], transactionId);
      DropUnlinked(movements[1..], transactionId);
    }
  }

  /**
   * The description test matches by containment, so a sale whose identifier
   * extends another's is linked to both: "İşlem No: 12" contains "İşlem No: 1".
   */
  lemma LinkMatchesLongerIdentifier()
    ensures LinkToken("12") == LinkToken("1") + "2"
    ensures Contains(LinkToken("12"), LinkToken("1"))
  {
    assert StartsWith(LinkToken("12")[0..], LinkToken("1"));
  }
}
