/**
 * The ledger's entities (src/types.ts). Money and quantities are whole
 * numbers of minor units; the exchange rate is a display-only `real`.
 */
module Types {
  import opened Wrappers

  /** Exactly two kinds of transaction. */
  datatype TransactionType = Purchase | Sale

  datatype PaymentMethod = Cash | Credit | BankTransfer | OtherMethod

  datatype Product = Product(
    id: string,
    name: string,
    description: Option<string>,
    category: Option<string>,
    currentStock: int)

  /** One line of a transaction; `purchasePrice` is the attributed cost of a sold unit. */
  datatype TransactionItem = TransactionItem(
    id: string,
    productId: string,
    quantity: int,
    unitPrice: int,
    total: int,
    purchasePrice: Option<int>)

  datatype Transaction = Transaction(
    id: string,
    kind: TransactionType,
    date: string,
    contactId: string,
    items: seq<TransactionItem>,
    paymentMethod: PaymentMethod,
    notes: Option<string>,
    totalAmount: int,
    exchangeRate: Option<real>,
    additionalInfo: Option<string>)

  /** One row of a product's stock history: a signed change and the balance it left. */
  datatype StockMovement = StockMovement(
    id: string,
    productId: string,
    transactionId: string,
    date: string,
    quantity: int,
    balanceAfter: int)

  datatype CapitalType = Investment | Withdrawal | Profit | Loss

  datatype CapitalMovement = CapitalMovement(
    id: string,
    date: string,
    kind: CapitalType,
    amount: int,
    description: Option<string>)
}
