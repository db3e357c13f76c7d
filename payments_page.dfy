/**
 * The payments page (frontend/app/dashboard/payments/page.tsx).
 * - The withdraw button checks the balance and the withdrawal accounts
 *   before it announces that withdrawal is not available yet.
 * - The three tabs (all, income, expense) list the overview's recent
 *   transactions through one chain of filters: by tab, by the search box,
 *   and by the date range chosen.
 *
 * `new Date(text).getTime()` is a parameter `parseTime`: the engine's
 * date parser, None where it gives NaN. Comparisons with NaN are false,
 * so an unparseable date is kept only when no date range is chosen.
 */
module PaymentsPage {
  import opened Wrappers
  import opened Strings
  import opened Seqs
  import PaymentHandlers

  /** A transaction as the page receives it. */
  datatype Transaction = Transaction(id: string, date: string, description: string, kind: string)

  /**
   * The page's data: the balance, the number of withdrawal accounts when
   * the field is there, and the transactions when the field is there.
   */
  datatype PaymentData = PaymentData(balance: real, accounts: Option<nat>, transactions: Option<seq<Transaction>>)

  // ---------------------------------------------------------------------
  // The withdraw button
  // ---------------------------------------------------------------------

  /** The toast the withdraw button shows. */
  datatype WithdrawNotice = LowBalance | NoAccount | ComingSoon

  function HandleWithdraw(data: PaymentData): (r: WithdrawNotice)
    ensures r == LowBalance <==> data.balance <= 0.0
    ensures r == NoAccount <==> data.balance > 0.0 && (data.accounts.None? || data.accounts.value == 0)
    ensures r == ComingSoon <==> data.balance > 0.0 && data.accounts.Some? && data.accounts.value > 0
  {
    if data.balance <= 0.0 then LowBalance
    else if data.accounts.None? || data.accounts.value == 0 then NoAccount
    else ComingSoon
  }

  // ---------------------------------------------------------------------
  // The transaction filters
  // ---------------------------------------------------------------------

  const DayMillis: int := 24 * 60 * 60 * 1000

  /** The tab keeps the transactions of its kind; a tab other than income or expense keeps all. */
  predicate OnTab(tab: string, t: Transaction)
  {
    (tab == "income" || tab == "expense") ==> t.kind == tab
  }

  /** A non-empty search keeps what holds it, ignoring case, in the description or the id. */
  predicate MatchesSearch(search: string, t: Transaction)
  {
    search != "" ==>
      Contains(ToLower(t.description), ToLower(search)) || Contains(ToLower(t.id), ToLower(search))
  }

  /**
   * The earliest time a date range keeps, counted from `today`, the local
   * midnight that began the current day: today, a week back, 30 days back.
   * Any other range has no bound.
   */
  function RangeStart(range: string, today: int): (r: Option<int>)
    ensures r.Some? <==> range in {"today", "week", "month"}
    ensures range == "today" ==> r == Some(today)
    ensures range == "week" ==> r == Some(today - 7 * DayMillis)
    ensures range == "month" ==> r == Some(today - 30 * DayMillis)
  {
    if range == "today" then Some(today)
    else if range == "week" then Some(today - 7 * DayMillis)
    else if range == "month" then Some(today - 30 * DayMillis)
    else None
  }

  /** A bounded range keeps the transactions whose date parses to a time no earlier than its start. */
  predicate InRange(range: string, today: int, parseTime: string -> Option<int>, t: Transaction)
  {
    RangeStart(range, today).Some? ==>
      parseTime(t.date).Some? && parseTime(t.date).value >= RangeStart(range, today).value
  }

  /** Everything a transaction must pass to be listed. */
  predicate Listed(tab: string, search: string, range: string, today: int, parseTime: string -> Option<int>, t: Transaction)
  {
    OnTab(tab, t) && MatchesSearch(search, t) && InRange(range, today, parseTime, t)
  }

  function OfKind(kind: string): Transaction -> bool
  {
    (t: Transaction) => t.kind == kind
  }

  function Searching(query: string): Transaction -> bool
  {
    (t: Transaction) => Contains(ToLower(t.description), query) || Contains(ToLower(t.id), query)
  }

  function OnTabOf(tab: string): Transaction -> bool
  {
    (t: Transaction) => OnTab(tab, t)
  }

  function MatchingSearch(search: string): Transaction -> bool
  {
    (t: Transaction) => MatchesSearch(search, t)
  }

  function Dated(range: string, today: int, parseTime: string -> Option<int>): Transaction -> bool
  {
    (t: Transaction) => InRange(range, today, parseTime, t)
  }

  /** The tab step: income and expense filter by kind, other tabs keep the list. */
  function ByTab(all: seq<Transaction>, tab: string): (r: seq<Transaction>)
    ensures r == Filter(all, OnTabOf(tab))
  {
    if tab == "income" then FilterAgrees(all, OfKind("income"), OnTabOf(tab)); Filter(all, OfKind("income"))
    else if tab == "expense" then FilterAgrees(all, OfKind("expense"), OnTabOf(tab)); Filter(all, OfKind("expense"))
    else FilterAll(all, OnTabOf(tab)); all
  }

  /** The search step: a non-empty search, lower-cased, filters by description and id. */
  function BySearch(s: seq<Transaction>, search: string): (r: seq<Transaction>)
    ensures r == Filter(s, MatchingSearch(search))
  {
    if search != "" then FilterAgrees(s, Searching(ToLower(search)), MatchingSearch(search)); Filter(s, Searching(ToLower(search)))
    else FilterAll(s, MatchingSearch(search)); s
  }

  /** The date step: any range but "all" filters by the parsed date. */
  function ByRange(s: seq<Transaction>, range: string, today: int, parseTime: string -> Option<int>): (r: seq<Transaction>)
    ensures r == Filter(s, Dated(range, today, parseTime))
  {
    if range != "all" then Filter(s, Dated(range, today, parseTime))
    else
      assert RangeStart(range, today).None?;
      FilterAll(s, Dated(range, today, parseTime)); s
  }

  /**
   * filterTransactions: no transactions field lists nothing; otherwise the
   * tab, the search box and the date range filter in turn.
   */
  function FilterTransactions(data: PaymentData, tab: string, search: string, range: string, today: int,
                              parseTime: string -> Option<int>): (r: seq<Transaction>)
    ensures data.transactions.None? ==> r == []
  {
    if data.transactions.None? then []
    else ByRange(BySearch(ByTab(data.transactions.value, tab), search), range, today, parseTime)
  }

  function ListedBy(tab: string, search: string, range: string, today: int, parseTime: string -> Option<int>): Transaction -> bool
  {
    (t: Transaction) => Listed(tab, search, range, today, parseTime, t)
  }

  /** The chain of filters is one filter by all three conditions. */
  lemma {:induction false} FilterChainIsOneFilter(txs: seq<Transaction>, tab: string, search: string, range: string,
                                                  today: int, parseTime: string -> Option<int>)
    ensures FilterTransactions(PaymentData(0.0, None, Some(txs)), tab, search, range, today, parseTime)
         == Filter(txs, ListedBy(tab, search, range, today, parseTime))
  {
    var tabP, searchP, rangeP := OnTabOf(tab), MatchingSearch(search), Dated(range, today, parseTime);
    FilterFilter(txs, tabP, searchP);
    FilterFilter(txs, Both(tabP, searchP), rangeP);
    FilterAgrees(txs, Both(Both(tabP, searchP), rangeP), ListedBy(tab, search, range, today, parseTime));
  }

  /**
   * A transaction is listed exactly when it is among the page's
   * transactions and passes the tab, the search and the date range; the
   * list keeps the order the transactions came in.
   */
  lemma ListedIff(data: PaymentData, tab: string, search: string, range: string, today: int,
                  parseTime: string -> Option<int>, t: Transaction)
    requires data.transactions.Some?
    ensures var r := FilterTransactions(data, tab, search, range, today, parseTime);
      && IsSubsequence(r, data.transactions.value)
      && (t in r <==> t in data.transactions.value && Listed(tab, search, range, today, parseTime, t))
  {
    var txs := data.transactions.value;
    FilterChainIsOneFilter(txs, tab, search, range, today, parseTime);
    FilterIsSubsequence(txs, ListedBy(tab, search, range, today, parseTime));
  }

  /** With no search and no date range, the "all" tab lists every transaction as it came. */
  lemma NoFilterListsAll(data: PaymentData, today: int, parseTime: string -> Option<int>)
    requires data.transactions.Some?
    ensures FilterTransactions(data, "all", "", "all", today, parseTime) == data.transactions.value
  {
  }

  /** The ranges nest: what today keeps, the week keeps; what the week keeps, the month keeps. */
  lemma RangesNest(today: int, parseTime: string -> Option<int>, t: Transaction)
    ensures InRange("today", today, parseTime, t) ==> InRange("week", today, parseTime, t)
    ensures InRange("week", today, parseTime, t) ==> InRange("month", today, parseTime, t)
  {
  }

  /** A transaction whose date does not parse is dropped by every bounded range. */
  lemma UnparseableDateDropped(data: PaymentData, tab: string, search: string, range: string, today: int,
                               parseTime: string -> Option<int>, t: Transaction)
    requires data.transactions.Some? && range in {"today", "week", "month"} && parseTime(t.date).None?
    ensures t !in FilterTransactions(data, tab, search, range, today, parseTime)
  {
    ListedIff(data, tab, search, range, today, parseTime, t);
  }

  // ---------------------------------------------------------------------
  // The page over the backend's overview
  // ---------------------------------------------------------------------

  /** An overview item as the page reads it; `show` writes the creation time as RFC 3339 text. */
  function FromItem(i: PaymentHandlers.PaymentItem, show: int -> string): (t: Transaction)
    ensures t.kind in {"income", "expense"}
    ensures t.kind == "expense" <==> i.flow == PaymentHandlers.Outflow
  {
    Transaction(i.id, show(i.date), i.description, i.flow.Label())
  }

  /** The page's data from the overview: it has no withdrawal accounts field. */
  function FromOverview(o: PaymentHandlers.PaymentsOverview, show: int -> string): (d: PaymentData)
    ensures d.balance == o.balance && d.accounts.None?
    ensures d.transactions.Some? && |d.transactions.value| == |o.transactions|
    ensures forall k :: 0 <= k < |o.transactions| ==> d.transactions.value[k] == FromItem(o.transactions[k], show)
  {
    PaymentData(o.balance, None, Some(seq(|o.transactions|, k requires 0 <= k < |o.transactions| => FromItem(o.transactions[k], show))))
  }

  /**
   * Over the backend's overview the withdraw button never gets past its
   * checks: the overview lists no withdrawal accounts.
   */
  lemma OverviewNeverOffersWithdrawal(o: PaymentHandlers.PaymentsOverview, show: int -> string)
    ensures HandleWithdraw(FromOverview(o, show)) in {LowBalance, NoAccount}
    ensures o.balance > 0.0 ==> HandleWithdraw(FromOverview(o, show)) == NoAccount
  {
  }

  /**
   * Over the backend's overview the income and expense tabs split the
   * "all" tab: every listed transaction is on exactly one of them.
   */
  lemma TabsSplitOverview(o: PaymentHandlers.PaymentsOverview, show: int -> string, search: string, range: string,
                          today: int, parseTime: string -> Option<int>, t: Transaction)
    ensures var d := FromOverview(o, show);
      t in FilterTransactions(d, "all", search, range, today, parseTime) <==>
        (t in FilterTransactions(d, "income", search, range, today, parseTime) ||
         t in FilterTransactions(d, "expense", search, range, today, parseTime))
    ensures var d := FromOverview(o, show);
      !(t in FilterTransactions(d, "income", search, range, today, parseTime) &&
        t in FilterTransactions(d, "expense", search, range, today, parseTime))
  {
    var d := FromOverview(o, show);
    ListedIff(d, "all", search, range, today, parseTime, t);
    ListedIff(d, "income", search, range, today, parseTime, t);
    ListedIff(d, "expense", search, range, today, parseTime, t);
    if t in d.transactions.value {
      var k :| 0 <= k < |d.transactions.value| && d.transactions.value[k] == t;
      assert t.kind in {"income", "expense"};
    }
  }
}
