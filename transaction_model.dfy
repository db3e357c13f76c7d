/** The transactions and withdrawals tables. */
module TransactionModel {
  import opened Wrappers

  datatype TransactionType = Earning | Fee | Withdrawal | Refund
  {
    /** Withdrawals and fees take money out; earnings and refunds bring it in. */
    predicate IsExpense()
    {
      this == Withdrawal || this == Fee
    }
  }

  datatype TransactionStatus = TxPending | TxCompleted | TxCancelled | TxFailed

  datatype ReferenceType = TaskReference | WithdrawalReference | RefundReference

  datatype WithdrawalStatus = WdPending | WdProcessing | WdCompleted | WdRejected | WdFailed

  const DefaultCurrency: string := "CNY"

  /** A stored transactions row; its primary key is its position plus one. */
  datatype TransactionRow = TransactionRow(
    uuid: string,
    userId: nat,
    taskAssignmentId: Option<nat>,
    kind: TransactionType,
    amount: real,
    currency: string,
    status: TransactionStatus,
    title: string,
    description: Option<string>,
    referenceId: Option<nat>,
    referenceType: Option<ReferenceType>,
    referenceUuid: Option<string>,
    createdAt: int,
    completedAt: Option<int>)

  /** The currency column: an empty currency is stored as the default. */
  function StoredCurrency(c: string): (r: string)
    ensures r != ""
    ensures c != "" ==> r == c
    ensures c == "" ==> r == DefaultCurrency
  {
    if c == "" then DefaultCurrency else c
  }

  /** A stored withdrawals row. */
  datatype WithdrawalRow = WithdrawalRow(
    uuid: string,
    userId: nat,
    transactionId: nat,
    amount: real,
    accountId: nat,
    status: WithdrawalStatus,
    notes: Option<string>,
    adminId: Option<nat>,
    requestedAt: int,
    completedAt: Option<int>)
}
