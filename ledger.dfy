/**
 * Sums over the transactions table: the per-user totals the payments page
 * reports, and the part of the history that the handlers have applied to
 * a user's balance.
 */
module Ledger {
  import opened TransactionModel

  /**
   * Rows the handlers apply to the balance in the same unit of work that
   * writes them: completed earnings (task confirmation) and pending
   * withdrawals (withdrawal request).
   */
  predicate MovesBalance(t: TransactionRow)
  {
    (t.kind == Earning && t.status == TxCompleted) || (t.kind == Withdrawal && t.status == TxPending)
  }

  function Abs(x: real): real
  {
    if x < 0.0 then -x else x
  }

  /** The per-user sums kept over the transactions table. */
  datatype Measure =
    | Applied(key: nat)     // signed amounts of the user's rows that moved its balance
    | Completed(key: nat)   // signed amounts of the user's completed rows
    | Income(key: nat)      // amounts of the user's earnings, whatever their status
    | Expense(key: nat)     // absolute amounts of the user's withdrawals and fees

  /** What one row adds to a measure. */
  function Contribution(m: Measure, t: TransactionRow): real
  {
    if t.userId != m.key then 0.0
    else
      match m
      case Applied(_) => if MovesBalance(t) then t.amount else 0.0
      case Completed(_) => if t.status == TxCompleted then t.amount else 0.0
      case Income(_) => if t.kind == Earning then t.amount else 0.0
      case Expense(_) => if t.kind.IsExpense() then Abs(t.amount) else 0.0
  }

  /** The measure summed over the table. */
  function Total(txs: seq<TransactionRow>, m: Measure): real
  {
    if txs == [] then 0.0
    else Total(txs[..|txs| - 1], m) + Contribution(m, txs[|txs| - 1])
  }

  /** Appending a row adds its own contribution and nothing else. */
  lemma TotalSnoc(txs: seq<TransactionRow>, t: TransactionRow, m: Measure)
    ensures Total(txs + [t], m) == Total(txs, m) + Contribution(m, t)
  {
    assert (txs + [t])[..|txs|] == txs;
  }

  /** Sums of several appended rows. */
  lemma {:induction false} TotalAppend(txs: seq<TransactionRow>, more: seq<TransactionRow>, m: Measure)
    ensures Total(txs + more, m) == Total(txs, m) + Total(more, m)
    decreases |more|
  {
    if more == [] {
      assert txs + more == txs;
    } else {
      var init := more[..|more| - 1];
      assert txs + more == (txs + init) + [more[|more| - 1]];
      TotalSnoc(txs + init, more[|more| - 1], m);
      TotalAppend(txs, init, m);
    }
  }

  /** The expense total is never negative. */
  lemma {:induction false} ExpenseNonNegative(txs: seq<TransactionRow>, key: nat)
    ensures Total(txs, Expense(key)) >= 0.0
    decreases |txs|
  {
    if txs != [] {
      ExpenseNonNegative(txs[..|txs| - 1], key);
    }
  }

  /** Rows of other users do not count towards a user's measures. */
  lemma {:induction false} OtherUsersIgnored(txs: seq<TransactionRow>, m: Measure)
    requires forall k :: 0 <= k < |txs| ==> txs[k].userId != m.key
    ensures Total(txs, m) == 0.0
    decreases |txs|
  {
    if txs != [] {
      OtherUsersIgnored(txs[..|txs| - 1], m);
    }
  }
}
