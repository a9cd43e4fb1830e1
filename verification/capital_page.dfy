/**
 * The capital page's reading of the capital ledger: the four totals and the
 * balance, and the rendering of a description, where a line that starts
 * with the link label becomes a link to the transaction it names.
 */
module CapitalPage {
  import opened Wrappers
  import opened Types
  import opened Text
  import opened Attribution
  import opened CapitalLink

  datatype Summary = Summary(investments: int, withdrawals: int, profit: int, loss: int)

  /** Total amount of the movements of one kind, summed from the last one back. */
  function KindTotal(movements: seq<CapitalMovement>, kind: CapitalType): int {
    if |movements| == 0 then 0
    else
      var last := movements[|movements| - 1];
      KindTotal(movements[..|movements| - 1], kind) + (if last.kind == kind then last.amount else 0)
  }

  /** Reference summary: each bucket is the total of its kind. */
  function Summarize(movements: seq<CapitalMovement>): Summary {
    Summary(KindTotal(movements, Investment), KindTotal(movements, Withdrawal),
            KindTotal(movements, Profit), KindTotal(movements, Loss))
  }

  /** One step of the `summary` reduce (Capital.tsx:51-66): the amount goes to the one bucket its kind names. */
  function AddToSummary(acc: Summary, m: CapitalMovement): (r: Summary)
    ensures r.investments == acc.investments + (if m.kind == Investment then m.amount else 0)
    ensures r.withdrawals == acc.withdrawals + (if m.kind == Withdrawal then m.amount else 0)
    ensures r.profit == acc.profit + (if m.kind == Profit then m.amount else 0)
    ensures r.loss == acc.loss + (if m.kind == Loss then m.amount else 0)
  {
    match m.kind
    case Investment => acc.(investments := acc.investments + m.amount)
    case Withdrawal => acc.(withdrawals := acc.withdrawals + m.amount)
    case Profit => acc.(profit := acc.profit + m.amount)
    case Loss => acc.(loss := acc.loss + m.amount)
  }

  /** The `summary` reduce (Capital.tsx:51-72), from four zero buckets, in list order. */
  method SummarizeCapital(movements: seq<CapitalMovement>) returns (summary: Summary)
    ensures summary == Summarize(movements)
    ensures |movements| == 0 ==> summary == Summary(0, 0, 0, 0)
  {
    summary := Summary(0, 0, 0, 0);
    var i := 0;
    while i < |movements|
      invariant 0 <= i <= |movements|
      invariant summary == Summarize(movements[..i])
    {
      assert movements[..i + 1][..i] == movements[..i];
      summary := AddToSummary(summary, movements[i]);
      i := i + 1;
    }
    assert movements[..i] == movements;
  }

  /** `currentBalance` (Capital.tsx:74). */
  function Balance(summary: Summary): int {
    summary.investments - summary.withdrawals + summary.profit - summary.loss
  }

  /** A movement's effect on the balance: money in for investments and profits, out for withdrawals and losses. */
  function SignedAmount(m: CapitalMovement): int {
    match m.kind
    case Investment => m.amount
    case Withdrawal => -m.amount
    case Profit => m.amount
    case Loss => -m.amount
  }

  /** Reference balance: the signed amounts added up. */
  function SignedSum(movements: seq<CapitalMovement>): int {
    if |movements| == 0 then 0 else SignedSum(movements[..|movements| - 1]) + SignedAmount(movements[|movements| - 1])
  }

  /** The balance of the summary is the sum of the signed amounts. */
  lemma {:induction false} BalanceIsSignedSum(movements: seq<CapitalMovement>)
    ensures Balance(Summarize(movements)) == SignedSum(movements)
  {
    if |movements| > 0 {
      BalanceIsSignedSum(movements[..|movements| - 1]);
    }
  }

  /** Appending a movement moves the balance by its signed amount: up by a
      profit's amount, down by a loss's. */
  lemma {:induction false} BalanceAppend(movements: seq<CapitalMovement>, m: CapitalMovement)
    ensures Balance(Summarize(movements + [m])) == Balance(Summarize(movements)) + SignedAmount(m)
    ensures m.kind == Profit ==> Balance(Summarize(movements + [m])) == Balance(Summarize(movements)) + m.amount
    ensures m.kind == Loss ==> Balance(Summarize(movements + [m])) == Balance(Summarize(movements)) - m.amount
  {
    assert (movements + [m])[..|movements|] == movements;
  }

  /** The capital step of a record or revise moves the balance by the sale's profit, and leaves it for a purchase. */
  lemma {:induction false} ProfitMovementMovesBalance(movements: seq<CapitalMovement>, products: seq<Product>, tx: Transaction, capitalId: string)
    ensures Balance(Summarize(AppendProfitMovement(movements, products, tx, capitalId)))
            == Balance(Summarize(movements)) + (if tx.kind == Sale then SaleProfit(tx) else 0)
  {
    var r := AppendProfitMovement(movements, products, tx, capitalId);
    if MakesCapitalMovement(tx) {
      assert r == movements + [ProfitMovement(products, tx, capitalId)];
      BalanceAppend(movements, ProfitMovement(products, tx, capitalId));
    }
  }

  /** Appending a movement adds its amount to its own kind's total. */
  lemma {:induction false} KindTotalSnoc(movements: seq<CapitalMovement>, m: CapitalMovement, kind: CapitalType)
    ensures KindTotal(movements + [m], kind) == KindTotal(movements, kind) + (if m.kind == kind then m.amount else 0)
  {
    assert (movements + [m])[..|movements|] == movements;
  }

  /** Taking out the movement at position `i` takes its amount off its kind's total. */
  lemma {:induction false} KindTotalRemove(movements: seq<CapitalMovement>, i: nat, kind: CapitalType)
    requires i < |movements|
    ensures KindTotal(movements, kind)
         == KindTotal(movements[..i] + movements[i + 1..], kind) + (if movements[i].kind == kind then movements[i].amount else 0)
    decreases |movements|
  {
    var n := |movements| - 1;
    var front := movements[..n];
    var last := movements[n];
    assert movements == front + [last];
    KindTotalSnoc(front, last, kind);
    if i < n {
      var shorter := front[..i] + front[i + 1..];
      assert movements[..i] + movements[i + 1..] == shorter + [last];
      KindTotalSnoc(shorter, last, kind);
      KindTotalRemove(front, i, kind);
      assert front[i] == movements[i];
    } else {
      assert movements[..i] + movements[i + 1..] == front;
    }
  }

  /** Taking out the element at position `i` takes one copy of it out of the multiset. */
  lemma {:induction false} MultisetRemove(s: seq<CapitalMovement>, i: nat)
    requires i < |s|
    ensures multiset(s[..i] + s[i + 1..]) == multiset(s) - multiset{s[i]}
  {
    assert s == s[..i] + [s[i]] + s[i + 1..];
    assert multiset(s) == multiset(s[..i]) + multiset{s[i]} + multiset(s[i + 1..]);
  }

  /** The totals do not depend on the order of the list. */
  lemma {:induction false} KindTotalPermutation(a: seq<CapitalMovement>, b: seq<CapitalMovement>, kind: CapitalType)
    requires multiset(a) == multiset(b)
    ensures KindTotal(a, kind) == KindTotal(b, kind)
    decreases |a|
  {
    if |a| > 0 {
      var n := |a| - 1;
      var x := a[n];
      assert x in multiset(b);
      var i :| 0 <= i < |b| && b[i] == x;
      MultisetRemove(a, n);
      assert a[..n] + a[n + 1..] == a[..n];
      MultisetRemove(b, i);
      KindTotalPermutation(a[..n], b[..i] + b[i + 1..], kind);
      KindTotalRemove(a, n, kind);
      KindTotalRemove(b, i, kind);
    } else {
      assert |b| == |multiset(b)| == 0;
    }
  }

  /** The summary and the balance do not depend on the order of the list. */
  lemma {:induction false} SummaryPermutation(a: seq<CapitalMovement>, b: seq<CapitalMovement>)
    requires multiset(a) == multiset(b)
    ensures Summarize(a) == Summarize(b)
    ensures Balance(Summarize(a)) == Balance(Summarize(b))
  {
    KindTotalPermutation(a, b, Investment);
    KindTotalPermutation(a, b, Withdrawal);
    KindTotalPermutation(a, b, Profit);
    KindTotalPermutation(a, b, Loss);
  }

  /** One displayed line of a description. */
  datatype DescriptionLine = TransactionLink(transactionId: Option<string>) | TextLine(text: string)

  /** Capital.tsx:179-193: a line starting with the label becomes a link to
      element 1 of its split on the label and a space; any other line is text. */
  function RenderLine(line: string): (r: DescriptionLine)
    ensures r.TransactionLink? <==> StartsWith(line, LinkLabel)
    ensures r.TransactionLink? ==> (r.transactionId.Some? <==> Contains(line, LinkMarker))
    ensures r.TextLine? ==> r.text == line
  {
    if StartsWith(line, LinkLabel) then TransactionLink(SplitSecond(line, LinkMarker)) else TextLine(line)
  }

  /**
   * The description cell (Capital.tsx:177-197): a description containing the
   * label is shown line by line; any other description is shown as it is,
   * and a missing or empty one as "-".
   */
  function RenderDescription(description: Option<string>): (r: seq<DescriptionLine>)
    ensures |r| >= 1
    ensures description.Some? && Contains(description.value, LinkLabel) ==>
              |r| == |Split(description.value, '\n')| && Join(Split(description.value, '\n'), "\n") == description.value
    ensures description.Some? && Contains(description.value, LinkLabel) ==>
              forall i :: 0 <= i < |r| ==> r[i] == RenderLine(Split(description.value, '\n')[i])
    ensures !(description.Some? && Contains(description.value, LinkLabel)) ==>
              r == [TextLine(if description.None? || description.value == "" then "-" else description.value)]
  {
    match description
    case Some(d) =>
      if Contains(d, LinkLabel) then
        var lines := Split(d, '\n');
        JoinSplit(d, '\n');
        seq(|lines|, i requires 0 <= i < |lines| => RenderLine(lines[i]))
      else if d == "" then [TextLine("-")]
      else [TextLine(d)]
    case None => [TextLine("-")]
  }

  /**
   * Link round trip: for a description whose first line is the link line of
   * a transaction id without a line break, the first displayed line is a
   * link to exactly that id if and only if the id does not itself contain
   * the label followed by a space.
   */
  lemma {:induction false} LinkRoundTrip(transactionId: string, rest: string)
    requires '\n' !in transactionId
    ensures var shown := RenderDescription(Some(LinkToken(transactionId) + "\n" + rest));
      shown[0] == TransactionLink(Some(transactionId)) <==> !Contains(transactionId, LinkMarker)
  {
    var token := LinkToken(transactionId);
    var d := token + "\n" + rest;
    assert '\n' !in token by {
      assert token == LinkMarker + transactionId;
      assert '\n' !in LinkMarker;
    }
    assert d[..|LinkLabel|] == token[..|LinkLabel|];
    assert StartsWith(d[0..], LinkLabel);
    SplitFirst(token, rest, '\n');
    SplitSecondAfterSeparator(LinkMarker, transactionId);
  }

  /** The profit or loss movement the engine writes for a sale links back to
      that sale on the capital page, when the id holds no line break and no label. */
  lemma {:induction false} ProfitMovementLinksBack(products: seq<Product>, tx: Transaction, capitalId: string)
    requires MakesCapitalMovement(tx)
    requires '\n' !in tx.id && !Contains(tx.id, LinkMarker)
    ensures RenderDescription(ProfitMovement(products, tx, capitalId).description)[0] == TransactionLink(Some(tx.id))
  {
    var d := ProfitMovement(products, tx, capitalId).description.value;
    var line := LinkToken(tx.id) + "\n";
    assert d == line + d[|line|..];
    LinkRoundTrip(tx.id, d[|line|..]);
    assert LinkToken(tx.id) + "\n" + d[|line|..] == d;
  }
}
