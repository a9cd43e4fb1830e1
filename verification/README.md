# Inventory ledger engine — a Dafny model

This project models the transaction ledger of a small inventory and
bookkeeping application (envanter-sistemi). A store holds four lists:

- products, each with a current stock level;
- transactions (purchases and sales), each a list of items with a quantity
  and a unit price;
- stock movements, one row per item, carrying the signed change and the
  balance it left;
- capital movements (investments, withdrawals, profits and losses).

The engine has three handlers:

- **record** (`addTransaction`): a sale must pass the insufficient-stock
  guard; a refused sale keeps the stock updates its earlier items made.
  Each item then moves its product's stock and writes a movement.
  A sale's items get their purchase price attributed: the highest unit
  price any stored purchase paid for the product. A sale with a non-zero
  profit adds a profit or loss capital movement. That movement's
  description starts with the line `İşlem No: <id>`.
- **revise** (`updateTransaction`):
  1. takes the old items back out of stock;
  2. drops the old movements;
  3. drops the capital movements linked to an old sale;
  4. replaces the transaction in place;
  5. adds the new version's profit or loss movement;
  6. re-applies the new items, with no stock guard.
- **retract** (`deleteTransaction`): takes the items back out of stock and
  drops the transaction and its movements. Its capital movement stays.

Around the engine the model also covers:

- the transaction form, which keeps `totalAmount` equal to the sum of the
  item totals;
- the capital page, which sums the capital movements into four buckets and
  a balance, and turns the `İşlem No:` line back into a link to the
  transaction;
- the transaction detail page, which recomputes cost and profit, labels
  the result `Kar` or `Zarar`, and saves edits of the exchange rate and
  the extra information through revise.

Modules, in dependency order:

- `Wrappers` (`Option`, `Result`).
- `Types`, the entities of `src/types.ts`.
- `Text`, the JavaScript string operations the link relies on.
- `Movements`, the stock-movement ledger and its sums.
- `Stock`, the stock projector: lookup, update, the forward pass, the
  reversal pass and the sale guard.
- `StockFacts`, what those passes do.
- `Attribution`, purchase prices, cost and profit.
- `CapitalLink`, the profit movement, its description and the link filter.
- `Ledger`, the three handlers over an immutable `Store`.
- `LedgerFacts`, what each handler does.
- `LedgerInvariant`, the consistency every handler keeps.
- `TransactionForm`, `CapitalPage` and `TransactionDetail`, the three pages.
- `LedgerScenarios`, a worked walk-through on concrete values.

Modelling decisions:

- **Sequential reading of each handler.** A lookup inside a handler sees
  the writes that handler already made. So a later item of the same
  transaction sees the stock the earlier items left, and revise applies
  the new items to the reverted stock.
  - The source reads a stale `products` closure. Its non-functional state
    setters can lose all but the last update, and revise's second
    `setStockMovements` reuses the stale list. That React scheduling
    behaviour is not modelled.
  - The sale guard is read the same way: each item is checked against the
    balance the earlier items of the sale left.
    `StockFacts.CheckSaleReadsSnapshot` proves that this reading and the
    source's reading against the stock before the call agree whenever the
    items of a sale name distinct products.
- **Units.** Money and quantities are integers (minor units). The exchange
  rate is an optional `real` that is only stored.
- **Fresh identifiers are parameters.** `movementIds[i]` is the id of item
  `i`'s movement, `capitalId` the id of the capital movement, and
  `freshId` the id of a new transaction.
- **A refused record keeps the earlier items' stock updates.** The guard
  runs inside the same loop that moves stock, so when a later item of a
  sale is short, the items before it have already updated their products.
  A refused record returns `Err(Rejection(error, store))`. `store` is the
  store as the handler left it when it threw: the earlier items' stock
  updates are kept, and no movement, transaction or capital movement is
  written (`LedgerFacts.RecordRefusal`,
  `LedgerScenarios.FailedSaleKeepsEarlierUpdate`).
- **Purchase-price truthiness.** A purchase price contributes to the cost
  only when it is set and non-zero (`if (item.purchasePrice)`).
  `Attribution.SaleCostIsResolvedCost` shows that skipping zero never
  changes the sum.
- **The link test works by containment.** Revise drops every capital
  movement whose description contains `İşlem No: <id>`. So the link of
  id `1` also matches the description of id `12`
  (`CapitalLink.LinkMatchesLongerIdentifier`). With the application's
  fixed-length random ids this never arises; the model keeps the
  source's test as written.

## Model

| member | source | states |
|---|---|---|
| Stock.QuantityChange | src/context/AppContext.tsx:120 | for a positive quantity, the signed change is positive exactly for a purchase and negative exactly for a sale; its size is the quantity |
| Stock.FindProduct | src/context/AppContext.tsx:111-112 | the lookup finds the first product in the list with the requested id, and finds nothing exactly when no product has that id |
| Stock.Moved | src/context/AppContext.tsx:137-141 | the updated product equals the old one in every field but the stock, and its stock differs by exactly the item's signed change |
| Stock.FindAfterUpdate | src/context/AppContext.tsx:98-100 | after `updateProduct`, a lookup of the updated id finds the new product when that id was known, and any other lookup finds what it found before |
| Stock.FindAfterUpdateKnown | src/context/AppContext.tsx:98-100 | an update never changes which ids are known |
| StockFacts.StockAfterUpdate | src/context/AppContext.tsx:98-100 | after an update of a known product, that product's stock is the new value and every other product's stock is unchanged |
| Stock.AdjustedInverse | src/context/AppContext.tsx:289-302 | moving every product's stock forward by the items' net change and then back (or back, then forward) restores the product list |
| Stock.CheckSale | src/context/AppContext.tsx:110-117 | a reported shortage is below the requested quantity, and names the product and quantity of one of the sale's items; the products it leaves have the same length |
| StockFacts.CheckSaleReports | src/context/AppContext.tsx:110-141 | a refusal reports the first short item: that item's product id and name, the stock the product holds after the earlier items, and the quantity asked; the products it leaves are the forward pass over the items before it |
| StockFacts.CheckSaleIff | src/context/AppContext.tsx:110-117 | the sale guard fails if and only if some item's known product holds less than the item's quantity once the earlier items of the same sale are taken out |
| StockFacts.CheckSaleReadsSnapshot | src/context/AppContext.tsx:111-117 | for a sale whose items name distinct products, the guard fails if and only if some known product's stock before the sale is below its item's quantity |
| Stock.Apply | src/context/AppContext.tsx:119-151 | the forward pass keeps the length of the product list and writes at most one movement per item |
| StockFacts.ApplyStock | src/context/AppContext.tsx:119-151 | the forward pass keeps the set of known products, moves each known product's stock by the items' net signed change, and writes movements whose quantities add up to exactly that change (to nothing for an unknown product) |
| StockFacts.ApplyTagsMovements | src/context/AppContext.tsx:143-151 | every movement the forward pass writes carries the transaction's id and date and names a known product |
| StockFacts.ApplyMovementRow | src/context/AppContext.tsx:143-151 | when every product is known, row `i` carries item `i`'s fresh id, its product, the transaction's id and date, its signed change, and the product's balance after the first `i + 1` items |
| StockFacts.ApplyMovementRows | src/context/AppContext.tsx:143-151 | when every product is known, the forward pass writes exactly one movement per item, in item order, each row as stated for a single row |
| StockFacts.ApplyAdjusts | src/context/AppContext.tsx:119-141 | with unique product ids, the forward pass leaves exactly the products moved forward by the items' net change (the reference adjustment) |
| Stock.Revert | src/context/AppContext.tsx:198-210 | the reversal pass keeps the length of the product list |
| StockFacts.RevertStock | src/context/AppContext.tsx:289-302 | the reversal pass keeps the set of known products and takes each known product's stock back by the items' net change, with no lower bound |
| StockFacts.RevertAdjusts | src/context/AppContext.tsx:198-210 | with unique product ids, the reversal pass leaves exactly the products moved back by the items' net change, so it is the inverse of the forward pass (Stock.AdjustedInverse) |
| Movements.MovementsOfProduct | src/context/AppContext.tsx:323-325 | a product's history holds exactly the ledger rows for that product |
| Movements.MovementSumIsHistorySum | src/context/AppContext.tsx:323-325 | the net quantity the ledger records for a product is the sum of the quantities in that product's history |
| Movements.DropTransactionMovements | src/context/AppContext.tsx:304-305 | the filtered ledger holds exactly the rows not tagged with the transaction |
| Movements.DropTransactionMovementsAppend | src/context/AppContext.tsx:304-305 | the filter keeps order: filtering a concatenation filters each part and concatenates the results |
| Movements.DropTransactionMovementsSums | src/context/AppContext.tsx:304-305 | dropping a transaction's rows takes exactly that transaction's tagged quantities off each product's total and leaves every other transaction's tagged sums as they were |
| Movements.DropAppendedTagged | src/context/AppContext.tsx:304-305 | dropping a transaction's rows from a ledger with only that transaction's rows appended gives back the ledger without them |
| Movements.DropUntagged | src/context/AppContext.tsx:304-305 | dropping the rows of a transaction with no rows leaves the ledger unchanged |
| Attribution.MaxItemPrice | src/context/AppContext.tsx:128-130 | among the items for one product: no price if and only if there is no such item; otherwise the price is one of theirs and no item for the product has a higher one |
| Attribution.MaxPurchasePrice | src/context/AppContext.tsx:126-130 | no price if and only if no stored purchase bought the product; otherwise the highest unit price any stored purchase paid for it |
| Attribution.AttributeItems | src/context/AppContext.tsx:124-134 | only purchase prices change; an item whose product is known and was bought before gets the highest price paid for it, and every other item is kept as given |
| Attribution.SaleCostIsResolvedCost | src/context/AppContext.tsx:162-167 | the cost that skips unset and zero purchase prices equals the sum of price × quantity over every item with a purchase price |
| CapitalLink.LinkToken | src/context/AppContext.tsx:182 | the link line starts with the label the capital page tests for, and what follows the label and its space is exactly the transaction id |
| CapitalLink.ProfitDescription | src/context/AppContext.tsx:172-187 | the description of a profit or loss movement starts with the link line followed by a line break |
| CapitalLink.ProfitMovement | src/context/AppContext.tsx:171-189 | the movement is a profit if and only if the profit is positive and a loss if and only if it is negative; its amount is the absolute profit (positive); it carries the fresh id and the sale's date; its description starts with the link line |
| CapitalLink.AddCapitalMovement | src/context/AppContext.tsx:327-329 | the movement is appended at the end and the earlier movements are kept in order |
| CapitalLink.AppendProfitMovement | src/context/AppContext.tsx:160-191 | one movement is appended if and only if the transaction is a sale with a non-zero profit; it is linked to the transaction and its kind follows the profit's sign; the earlier movements are kept |
| CapitalLink.LinkedByPrefix | src/context/AppContext.tsx:182 | a description that starts with a transaction's link line is matched by the link test for that transaction |
| CapitalLink.DropLinked | src/context/AppContext.tsx:216-218 | the filtered list holds exactly the movements not linked to the transaction |
| CapitalLink.DropLinkedAppend | src/context/AppContext.tsx:216-218 | the filter keeps order: filtering a concatenation filters each part and concatenates the results |
| CapitalLink.LinkedCount | src/context/AppContext.tsx:217 | no movement is linked to the transaction if and only if the count is zero |
| CapitalLink.DropLinkedLeavesNone | src/context/AppContext.tsx:216-218 | after the filter, no movement is linked to the transaction |
| CapitalLink.AtMostOneLinkAfterReplace | src/context/AppContext.tsx:216-254 | dropping a sale's links and then appending its new movement leaves exactly one link if the new version makes a movement, and none otherwise |
| CapitalLink.DropLinkedUndoesAppend | src/context/AppContext.tsx:177-218 | in a list with no links to the sale, dropping the links right after appending its movement gives back the list |
| CapitalLink.DropUnlinked | src/context/AppContext.tsx:216-218 | the filter leaves a list with no links to the transaction unchanged |
| CapitalLink.LinkMatchesLongerIdentifier | src/context/AppContext.tsx:217 | example, not a general property: the link line of id `12` contains the link line of id `1`, so the containment test links id `1` to it |
| Ledger.FindTransaction | src/context/AppContext.tsx:194 | the lookup finds the first stored transaction with the requested id, and finds nothing exactly when no transaction has that id |
| Ledger.ReplaceTransaction | src/context/AppContext.tsx:221 | replacement in place: ids stay at their positions, the transaction with the id becomes the new version, and every other transaction is unchanged |
| Ledger.DropTransaction | src/context/AppContext.tsx:308 | the filtered list holds exactly the transactions with another id |
| LedgerFacts.DropTransactionAppend | src/context/AppContext.tsx:308 | the filter keeps order: filtering a concatenation filters each part and concatenates the results |
| Ledger.Record | src/context/AppContext.tsx:106-191 | a failure is a sale with a short item and changes only the products, and a purchase never fails; success appends the transaction (unchanged for a purchase), appends at most one movement per item and at most one capital movement, and keeps the earlier entries of each list |
| LedgerFacts.RecordFailsIff | src/context/AppContext.tsx:110-117 | record fails if and only if the transaction is a sale and some item is short against the balance the earlier items left |
| LedgerFacts.StoredForm | src/context/AppContext.tsx:123-135 | the stored transaction differs from the submitted one only in its items' purchase prices: every other field of the transaction and of each item is kept; a purchase is stored exactly as submitted |
| LedgerFacts.RecordRefusal | src/context/AppContext.tsx:110-141 | a refused record reports the sale's first short item with its product name and running stock, and leaves the store with only the earlier items' stock updates: each known product moved by those items' net change, nothing else written |
| LedgerFacts.RecordStock | src/context/AppContext.tsx:119-155 | after a record, known products stay known and each one's stock and ledger total both move by the transaction's net signed change; unknown products are untouched |
| LedgerFacts.RecordMovements | src/context/AppContext.tsx:143-155 | when every product is known, record appends exactly one movement per item, in order, each with the item's fresh id, product, the transaction's id and date, the signed quantity and the balance after that item |
| LedgerFacts.RecordSkipsUnknown | src/context/AppContext.tsx:111-112 | an item whose product is unknown gets no movement, its product stays unknown, and it is stored exactly as submitted, with no purchase price attributed |
| LedgerFacts.RecordAttributes | src/context/AppContext.tsx:124-134 | a recorded sale's items differ from the submitted ones only in purchase price; an item of a known product bought by some stored purchase carries the highest price paid for it |
| LedgerFacts.RecordCapital | src/context/AppContext.tsx:160-190 | record adds one capital movement if and only if the transaction is a sale with a non-zero profit; it is a profit exactly for a gain and a loss exactly for a deficit, for the absolute profit, with the fresh id and the sale's date, and its description starts with `İşlem No: <id>` and a line break |
| LedgerFacts.DropTransactionAppendFresh | src/context/AppContext.tsx:308 | removing a freshly appended transaction by its (unused) id gives back the earlier list |
| LedgerFacts.RecordRetractRoundTrip | src/context/AppContext.tsx:120-308 | recording a transaction under a fresh id and then retracting it restores every product, the movement list and the transaction list; the capital list keeps what the record added |
| Ledger.Revise | src/context/AppContext.tsx:193-283 | an unknown id changes nothing; otherwise the list lengths of products and transactions are kept, movements of other transactions are exactly kept, and at most one capital movement is added |
| Ledger.ApplyMovementsTagged | src/context/AppContext.tsx:271-279 | every movement revise writes carries the revised transaction's id |
| LedgerFacts.ReviseStock | src/context/AppContext.tsx:198-280 | revise keeps the set of known products and moves each one's stock back by the old version's net change and forward by the new one's, with no guard; each product's ledger total loses the id's old rows and gains the new version's change |
| LedgerFacts.ReviseReplacesMovements | src/context/AppContext.tsx:212-282 | revise replaces rather than accumulates: other transactions' rows are left as they were, and the rows tagged with the id add up to the new version's change alone |
| LedgerFacts.ReviseReplacesCapital | src/context/AppContext.tsx:215-254 | when the stored version was a sale, exactly one movement stays linked to the id if the new version makes one and none otherwise; a stored purchase loses no links |
| Ledger.Retract | src/context/AppContext.tsx:285-309 | an unknown id changes nothing; otherwise the transactions and rows with that id are removed and all the others kept; the capital list is never touched |
| LedgerFacts.RetractStock | src/context/AppContext.tsx:287-300 | retracting a stored transaction keeps the known products and takes its net signed change back out of each one's stock, with no lower bound |
| LedgerInvariant.EmptyStoreConsistent | src/types.ts:42-49 | a store with zero stock, no transactions and no movements satisfies the ledger invariant |
| LedgerInvariant.RecordKeepsStockMatching | src/context/AppContext.tsx:119-155 | record keeps every known product's stock equal to the sum of its movements |
| LedgerInvariant.RecordKeepsMovementsMatching | src/context/AppContext.tsx:143-158 | record under a fresh id keeps each stored transaction's tagged rows adding up, per product, to its net change |
| LedgerInvariant.RecordKeepsOwnership | src/context/AppContext.tsx:143-158 | record under a fresh id keeps every row tagged with a stored transaction, and transaction ids unique |
| LedgerInvariant.RecordPreservesConsistency | src/context/AppContext.tsx:106-191 | recording under a fresh id keeps the store consistent: unique ids, stock equal to the movement sums, each transaction's rows equal to its change, every row owned |
| LedgerInvariant.RetractKeepsStockMatching | src/context/AppContext.tsx:289-305 | retract keeps every known product's stock equal to the sum of its movements |
| LedgerInvariant.RetractKeepsMovementsMatching | src/context/AppContext.tsx:304-308 | retract keeps each remaining transaction's rows equal to its net change |
| LedgerInvariant.RetractKeepsOwnership | src/context/AppContext.tsx:304-308 | retract keeps every row owned by a stored transaction and ids unique |
| LedgerInvariant.RetractPreservesConsistency | src/context/AppContext.tsx:285-309 | retracting keeps the store consistent |
| LedgerInvariant.ReviseKeepsStockMatching | src/context/AppContext.tsx:198-282 | revise keeps every known product's stock equal to the sum of its movements |
| LedgerInvariant.ReviseKeepsMovementsMatching | src/context/AppContext.tsx:212-282 | revise keeps each stored transaction's rows equal to its (new) net change |
| LedgerInvariant.ReviseKeepsOwnership | src/context/AppContext.tsx:212-282 | revise keeps every row owned by a stored transaction and ids unique |
| LedgerInvariant.RevisePreservesConsistency | src/context/AppContext.tsx:193-283 | revising keeps the store consistent, whatever the new version holds |
| TransactionForm.SumTotalsUpdate | src/pages/Transactions.tsx:115 | replacing one item changes the sum of totals by exactly the difference of the two totals |
| TransactionForm.SumTotalsRemove | src/pages/Transactions.tsx:135 | removing one item takes exactly its total off the sum |
| TransactionForm.BlankItem | src/pages/Transactions.tsx:33-39 | a blank item has the fresh id, no product, quantity 1, unit price 0, total 0 and no purchase price |
| TransactionForm.InitialForm | src/pages/Transactions.tsx:41-51 | the initial form is a purchase with one blank item and a total amount of 0 that agrees with the item totals |
| TransactionForm.QuantityOrOne | src/pages/Transactions.tsx:100 | `quantity \|\| 1` is never zero and keeps a non-zero quantity |
| TransactionForm.EditItem | src/pages/Transactions.tsx:87-113 | selecting a product keeps the unit price if the product exists and zeroes it otherwise; a number edit stores the parsed value (0 if unparsable); the total is quantity × unit price unless a stored zero quantity was read as 1 |
| TransactionForm.ZeroQuantityPriceEdit | src/pages/Transactions.tsx:98-107 | example, not a general property: a price edit on an item whose quantity is 0 leaves a total of one unit's price, not quantity × unit price |
| TransactionForm.HandleItemChange | src/pages/Transactions.tsx:83-122 | only item `index` changes, by that edit; no other field of the form changes but the total amount, which becomes the sum of the item totals |
| TransactionForm.AddItem | src/pages/Transactions.tsx:124-129 | exactly one blank item is appended, the existing items are kept, and the sum of totals is unchanged |
| TransactionForm.RemoveItem | src/pages/Transactions.tsx:131-142 | item `index` is removed; removing the only item leaves one blank item instead; the total amount becomes the sum of the remaining totals |
| TransactionForm.Submit | src/pages/Transactions.tsx:144-160 | an edit submits a revise under the original id, a new form submits a record under the fresh id, and nothing else differs from the form |
| CapitalPage.AddToSummary | src/pages/Capital.tsx:51-66 | each movement's amount goes to exactly the one bucket its kind names |
| CapitalPage.SummarizeCapital | src/pages/Capital.tsx:51-72 | the fold over the list equals the per-kind totals, and the empty list gives four zero buckets |
| CapitalPage.BalanceIsSignedSum | src/pages/Capital.tsx:74 | the balance is the sum of the movements' signed amounts: plus for investments and profits, minus for withdrawals and losses |
| CapitalPage.BalanceAppend | src/pages/Capital.tsx:74 | appending a movement moves the balance by its signed amount: a profit raises it by its amount and a loss lowers it by its amount |
| CapitalPage.ProfitMovementMovesBalance | src/pages/Capital.tsx:74 | the capital step of record or revise moves the balance by exactly the sale's profit and leaves it alone for a purchase |
| CapitalPage.KindTotalRemove | src/pages/Capital.tsx:51-72 | taking one movement out of the list takes its amount off its own kind's total |
| CapitalPage.KindTotalPermutation | src/pages/Capital.tsx:51-72 | each kind's total does not depend on the order of the list |
| CapitalPage.SummaryPermutation | src/pages/Capital.tsx:51-74 | the summary and the balance do not depend on the order of the list |
| Text.SplitJoin | src/pages/Capital.tsx:179 | splitting the join of lines that hold no line break gives back the lines |
| Text.JoinSplit | src/pages/Capital.tsx:179 | joining the lines of a split on line breaks gives back the text |
| Text.SplitSecond | src/pages/Capital.tsx:181 | element 1 of the split exists if and only if the separator occurs, and never holds the separator |
| Text.SplitSecondAfterSeparator | src/pages/Capital.tsx:181 | element 1 of the split of separator + `x` is `x` if and only if `x` does not hold the separator |
| CapitalPage.RenderLine | src/pages/Capital.tsx:179-194 | a line becomes a link if and only if it starts with the label; the link has a target if and only if the line contains the label and a space; any other line is shown as it is |
| CapitalPage.RenderDescription | src/pages/Capital.tsx:177-199 | a description containing the label is shown as one entry per line, losing no text, each entry the rendering of its line; any other description is shown as it is, a missing or empty one as "-" |
| CapitalPage.LinkRoundTrip | src/pages/Capital.tsx:177-181 | for a description whose first line is the link line of an id with no line break, the first shown line links to exactly that id if and only if the id does not hold the label and a space |
| CapitalPage.ProfitMovementLinksBack | src/pages/Capital.tsx:177-193 | the profit or loss movement the engine writes for a sale links back to that sale on the capital page |
| TransactionDetail.DetailFigures | src/pages/TransactionDetail.tsx:97-108 | a purchase shows cost 0 and profit 0; a sale shows the engine's cost and profit, which equal the sum over items with a purchase price |
| TransactionDetail.ProfitDisplay | src/pages/TransactionDetail.tsx:216-224 | the label is `Kar` if and only if the profit is zero or more, and the amount shown is the absolute profit |
| TransactionDetail.DisplayMatchesLedger | src/pages/TransactionDetail.tsx:97-108 | for a recorded sale with non-zero profit, the page's label and amount match the kind and amount of the capital movement the engine wrote |
| TransactionDetail.BreakEvenShowsKar | src/pages/TransactionDetail.tsx:216-224 | a recorded sale that breaks even shows `Kar` and 0, while the engine wrote no capital movement for it |
| TransactionDetail.SaveChanges | src/pages/TransactionDetail.tsx:74-83 | saving an unknown id changes nothing, and saving keeps the number of transactions |
| TransactionDetail.SaveChangesKeepsStock | src/pages/TransactionDetail.tsx:74-80 | saving only the exchange rate and extra information leaves every product's stock and known-ness as it was |
| TransactionDetail.SaveChangesKeepsProducts | src/pages/TransactionDetail.tsx:74-80 | with unique product ids, saving gives back exactly the same product list |
| LedgerScenarios.BoughtTen | src/context/AppContext.tsx:106-158 | buying 10 units at 5 raises stock from 0 to 10, stores the purchase, writes one movement of +10 leaving 10, and adds no capital movement |
| LedgerScenarios.SoldThree | src/context/AppContext.tsx:106-191 | selling 3 of them at 8 leaves 7, attributes purchase price 5, and records a profit movement of 24 − 15 = 9 |
| LedgerScenarios.RetractedSale | src/context/AppContext.tsx:285-309 | retracting that sale restores the stock to 10 and the movements to those of the purchase, and keeps the profit movement |
| LedgerScenarios.BoughtTwo | src/context/AppContext.tsx:119-158 | buying 2 units raises stock from 0 to 2, stores the purchase and writes one movement of +2 leaving 2 |
| LedgerScenarios.ReviseHasNoGuard | src/context/AppContext.tsx:258-280 | revising that purchase into a sale of 5 drives the stock to −5, while recording the same sale as new fails |
| LedgerScenarios.FailedSaleKeepsEarlierUpdate | src/context/AppContext.tsx:110-141 | with 5 of A and none of B, selling 3 of A then 1 of B is refused on B, and the store keeps A at 2 with nothing else written |

## Left out

- React state scheduling (src/context/AppContext.tsx:98-100, 213, 282): each handler is modelled as the sequential program its comments describe. Stale closures, batched updates and lost updates are not modelled.
- localStorage persistence and JSON (de)serialisation (src/context/AppContext.tsx:37-80): I/O.
- `crypto.randomUUID`: fresh ids are parameters.
- Floating-point money: `parseFloat`, `toLocaleString`, `toFixed` and the dollar conversion. Amounts are integers, and an unparsable number input is `None`, read as 0. A NaN amount cannot arise.
- Dates: stored as given strings, with no parsing, formatting or sorting.
- Number rendering: numbers in the profit description are rendered as decimal integers, not JavaScript's number formatting.
- The manual capital entry form (src/pages/Capital.tsx:39-49): a form around `addCapitalMovement`, which is modelled.
- Contact CRUD, `addProduct`, `deleteProduct`, the lookup helpers used only for display, and all pages' layout, search and filters: not part of the ledger engine.
- The generic `else` branch of `handleItemChange` (src/pages/Transactions.tsx:108-113) and the form-level `handleChange`/`handleOpenModal` (src/pages/Transactions.tsx:55-81): the item rows only have product, quantity and unit-price inputs, and the form-level fields do not touch the items or the total.
- TransactionForm.RemoveItem: requires the index to be within the list. The page only calls it from a row's own button, so JavaScript's negative or out-of-range `splice` indices are not modelled.
- CapitalLink.ProfitDescription: its contract states only the first line, which is the line the link depends on. The summary and item-detail lines are built as the source writes them, but no property is stated about them.
- Ledger.Revise: its own contract gives lengths and the untouched movements only. The stock, the movements and the capital links are stated by LedgerFacts.ReviseStock, LedgerFacts.ReviseReplacesMovements and LedgerFacts.ReviseReplacesCapital.
- Ledger.Record: before a refused sale throws, the source has also written purchase prices into the caller's own item objects in place (src/context/AppContext.tsx:133). Items are values here and the refused transaction is not stored, so those writes are not modelled.
