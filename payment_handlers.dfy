/**
 * The payment handlers: a withdrawal request, which checks the amount
 * against the caller's balance and then, in one transaction, records a
 * pending withdrawal and debits the balance; the payments overview of a
 * user (balance, income and expense totals, the ten newest transactions);
 * and the check on a new withdrawal account.
 */
module PaymentHandlers {
  import opened Wrappers
  import opened Http
  import opened Numbers
  import opened Seqs
  import opened TransactionModel
  import opened UserModel
  import opened Db
  import opened Ledger
  import Settlement

  // ----------------------------------------------------------- request bodies

  /** A decoded JSON value as Go holds it in an `interface{}` field. */
  datatype JsonValue =
    | JNull
    | JBool(b: bool)
    | JNumber(n: real)
    | JString(s: string)
    | JArray(length: nat)
    | JObject(size: nat)

  /**
   * The zero value of the Go type a JSON value decodes to: nil, false, 0
   * and "". The `required` binding rule rejects these; an empty array or
   * object is a non-nil value and passes.
   */
  predicate IsZero(v: JsonValue)
  {
    v == JNull || v == JBool(false) || v == JNumber(0.0) || v == JString("")
  }

  /** The withdrawal body: `amount` of any JSON type, absent as None; `alipay_account`, absent as "". */
  datatype WithdrawalRequest = WithdrawalRequest(amount: Option<JsonValue>, alipayAccount: string)

  /** Binding succeeds when both required fields are present and not zero. */
  predicate WithdrawalBinds(req: WithdrawalRequest)
  {
    req.amount.Some? && !IsZero(req.amount.value) && req.alipayAccount != ""
  }

  /**
   * The amount's type switch: a JSON number is taken as it is, a string
   * goes through strconv.ParseFloat, anything else is the wrong type.
   */
  function ParseAmount(v: JsonValue): (r: Result<Float, Reason>)
    ensures r == Err(BadAmountType) <==> !(v.JNumber? || v.JString?)
    ensures r == Err(BadAmountFormat) <==> v.JString? && GoParseFloat(v.s).None?
    ensures r.Ok? && v.JNumber? ==> r.value == Finite(v.n)
    ensures r.Ok? && v.JString? ==> Some(r.value) == GoParseFloat(v.s)
  {
    match v
    case JNumber(n) => Ok(Finite(n))
    case JString(s) =>
      (match GoParseFloat(s)
       case Some(f) => Ok(f)
       case None => Err(BadAmountFormat))
    case _ => Err(BadAmountType)
  }

  /** The text "NaN" parses, without error, to NaN. */
  lemma NaNTextParses()
    ensures ParseAmount(JString("NaN")) == Ok(NaN)
  {
    assert LowerAscii("NaN") == "nan";
  }

  /** The caller and the amount, before any user is read. */
  function RequestedAmount(userId: Option<nat>, req: WithdrawalRequest): (r: Result<Float, Reason>)
    ensures r == Err(NotLoggedIn) <==> userId.None?
    ensures r == Err(InvalidRequest) <==> userId.Some? && !WithdrawalBinds(req)
    ensures r.Ok? <==> userId.Some? && WithdrawalBinds(req) && ParseAmount(req.amount.value).Ok?
    ensures r.Ok? ==> r.value == ParseAmount(req.amount.value).value
    ensures r.Err? ==> r.error in {NotLoggedIn, InvalidRequest, BadAmountType, BadAmountFormat}
  {
    if userId.None? then Err(NotLoggedIn)
    else if !WithdrawalBinds(req) then Err(InvalidRequest)
    else ParseAmount(req.amount.value)
  }

  // ----------------------------------------------------------- the amount guard

  /**
   * The withdrawal check as the handler writes it: `amount <= 0` rejects
   * before the user is read, then `balance < amount` rejects. Both
   * comparisons are false for NaN.
   */
  function WithdrawalCheckAsWritten(users: seq<UserRow>, userId: Option<nat>, req: WithdrawalRequest)
    : (r: Result<(nat, Float), Reason>)
    ensures r.Ok? ==> userId.Some? && r.value.0 < |users| && r.value.0 == userId.value - 1
    ensures r.Ok? ==> !Le(r.value.1, Finite(0.0)) && !Lt(Finite(users[r.value.0].balance), r.value.1)
  {
    match RequestedAmount(userId, req)
    case Err(e) => Err(e)
    case Ok(amount) =>
      if Le(amount, Finite(0.0)) then Err(NonPositiveAmount)
      else match ByKey(users, userId.value)
        case None => Err(StorageError)
        case Some(user) =>
          if Lt(Finite(user.balance), amount) then Err(InsufficientBalance)
          else Ok((userId.value - 1, amount))
  }

  /** As written, the text "NaN" withdraws NaN from any user on file, whatever the balance. */
  lemma NaNWithdrawalAdmittedAsWritten(users: seq<UserRow>, key: nat, account: string)
    requires 1 <= key <= |users| && account != ""
    ensures WithdrawalCheckAsWritten(users, Some(key), WithdrawalRequest(Some(JString("NaN")), account))
            == Ok((key - 1, NaN))
  {
    NaNTextParses();
  }

  /**
   * The withdrawal check as intended: the amount must be above zero and
   * no more than the balance, so that NaN is refused with the zero check.
   */
  function WithdrawalCheck(users: seq<UserRow>, userId: Option<nat>, req: WithdrawalRequest)
    : (r: Result<(nat, real), Reason>)
    ensures r == Err(NotLoggedIn) <==> userId.None?
    ensures r == Err(InvalidRequest) <==> userId.Some? && !WithdrawalBinds(req)
    ensures r == Err(NonPositiveAmount) <==>
      RequestedAmount(userId, req).Ok? && !Lt(Finite(0.0), RequestedAmount(userId, req).value)
    ensures r == Err(StorageError) <==>
      RequestedAmount(userId, req).Ok? && Lt(Finite(0.0), RequestedAmount(userId, req).value)
      && !(1 <= userId.value <= |users|)
    ensures r == Err(InsufficientBalance) <==>
      RequestedAmount(userId, req).Ok? && Lt(Finite(0.0), RequestedAmount(userId, req).value)
      && 1 <= userId.value <= |users|
      && !Le(RequestedAmount(userId, req).value, Finite(users[userId.value - 1].balance))
    ensures r.Ok? ==> var (ui, amount) := r.value;
      && userId == Some(ui + 1) && ui < |users|
      && RequestedAmount(userId, req) == Ok(Finite(amount))
      && 0.0 < amount <= users[ui].balance
  {
    match RequestedAmount(userId, req)
    case Err(e) => Err(e)
    case Ok(amount) =>
      if !Lt(Finite(0.0), amount) then Err(NonPositiveAmount)
      else match ByKey(users, userId.value)
        case None => Err(StorageError)
        case Some(user) =>
          if !Le(amount, Finite(user.balance)) then Err(InsufficientBalance)
          else Ok((userId.value - 1, amount.value))
  }

  /** The intended check refuses the "NaN" withdrawal as a non-positive amount. */
  lemma NaNWithdrawalRefused(users: seq<UserRow>, key: nat, account: string)
    requires account != ""
    ensures WithdrawalCheck(users, Some(key), WithdrawalRequest(Some(JString("NaN")), account)) == Err(NonPositiveAmount)
  {
    NaNTextParses();
  }

  /** On every amount but NaN the two checks give the same answer. */
  lemma ChecksAgreeBesideNaN(users: seq<UserRow>, userId: Option<nat>, req: WithdrawalRequest)
    requires RequestedAmount(userId, req) != Ok(NaN)
    ensures var intended := WithdrawalCheck(users, userId, req);
      var written := WithdrawalCheckAsWritten(users, userId, req);
      && (intended.Err? <==> written.Err?)
      && (intended.Err? ==> intended.error == written.error)
      && (intended.Ok? ==> written.value == (intended.value.0, Finite(intended.value.1)))
  {
  }

  // ----------------------------------------------------------- the withdrawal

  /** The database writes of a withdrawal whose failure aborts it. */
  const WithdrawWrites: set<Step> := {BeginTx, InsertTransaction, SaveUser, CommitTx}

  /** The pending withdrawal recorded for the user with key `userKey`: the amount, negated. */
  function WithdrawalRow(userKey: nat, amount: real, uuid: string, description: string, now: int): (t: TransactionRow)
    ensures t.userId == userKey && t.kind == Withdrawal && t.status == TxPending && t.amount == -amount
    ensures MovesBalance(t) && t.completedAt.None? && t.currency == DefaultCurrency
  {
    TransactionRow(uuid, userKey, None, Withdrawal, -amount, StoredCurrency(""), TxPending, "提现到支付宝",
      Some(description), None, None, None, now, None)
  }

  /** The users and the transactions after the user at `ui` withdrew `amount`. */
  function Withdrawn(users: seq<UserRow>, txs: seq<TransactionRow>, ui: nat, amount: real,
                     uuid: string, description: string, now: int): (r: (seq<UserRow>, seq<TransactionRow>))
    requires ui < |users|
    ensures |r.0| == |users| && r.0[ui].balance == users[ui].balance - amount
    ensures forall v :: 0 <= v < |users| && v != ui ==> r.0[v] == users[v]
    ensures r.0[ui] == users[ui].(balance := r.0[ui].balance)
    ensures r.1 == txs + [WithdrawalRow(ui + 1, amount, uuid, description, now)]
  {
    (users[ui := users[ui].(balance := users[ui].balance - amount)],
     txs + [WithdrawalRow(ui + 1, amount, uuid, description, now)])
  }

  /** What the caller is told of an accepted withdrawal. */
  datatype WithdrawalView = WithdrawalView(
    uuid: string, amount: real, alipayAccount: string, status: string, createdAt: int, balance: real)

  /**
   * The withdrawal request. The check runs before the transaction opens;
   * inside it the pending withdrawal is inserted, then the balance is
   * debited, and a failing write rolls both back. The answer reports the
   * balance read before the transaction less the amount. The description
   * text (the amount printed with two decimals) is passed in.
   */
  method RequestWithdrawal(db: Database, userId: Option<nat>, req: WithdrawalRequest, uuid: string,
                           description: string, now: int, fails: set<Step>)
    returns (r: Result<WithdrawalView, Reason>)
    requires db.Valid()
    modifies db
    ensures db.Valid()
    ensures db.tasks == old(db.tasks) && db.applications == old(db.applications)
    ensures db.assignments == old(db.assignments) && db.reviews == old(db.reviews)
    ensures var check := WithdrawalCheck(old(db.users), userId, req);
      && (check.Err? ==> r == Err(check.error) && unchanged(db))
      && (check.Ok? && fails * WithdrawWrites != {} ==> r == Err(StorageError) && unchanged(db))
      && (check.Ok? && fails * WithdrawWrites == {} ==>
            var (ui, amount) := check.value;
            && (db.users, db.transactions) == Withdrawn(old(db.users), old(db.transactions), ui, amount, uuid, description, now)
            && r == Ok(WithdrawalView(uuid, amount, req.alipayAccount, "pending", now, old(db.users)[ui].balance - amount)))
  {
    var check := WithdrawalCheck(db.users, userId, req);
    if check.Err? {
      return Err(check.error);
    }
    var (ui, amount) := check.value;
    var user := db.users[ui];
    if BeginTx in fails {
      assert BeginTx in fails * WithdrawWrites;
      return Err(StorageError);
    }
    var txs := db.transactions + [WithdrawalRow(ui + 1, amount, uuid, description, now)];
    if InsertTransaction in fails {
      assert InsertTransaction in fails * WithdrawWrites;
      return Err(StorageError);
    }
    var users := db.users[ui := db.users[ui].(balance := db.users[ui].balance - amount)];
    if SaveUser in fails {
      assert SaveUser in fails * WithdrawWrites;
      return Err(StorageError);
    }
    if CommitTx in fails {
      assert CommitTx in fails * WithdrawWrites;
      return Err(StorageError);
    }
    db.users, db.transactions := users, txs;
    r := Ok(WithdrawalView(uuid, amount, req.alipayAccount, "pending", now, user.balance - amount));
  }

  /** An accepted withdrawal never takes a balance below zero. */
  lemma WithdrawalNeverOverdraws(users: seq<UserRow>, txs: seq<TransactionRow>, userId: Option<nat>,
                                 req: WithdrawalRequest, uuid: string, description: string, now: int)
    requires WithdrawalCheck(users, userId, req).Ok?
    ensures var (ui, amount) := WithdrawalCheck(users, userId, req).value;
      && Withdrawn(users, txs, ui, amount, uuid, description, now).0[ui].balance >= 0.0
      && Withdrawn(users, txs, ui, amount, uuid, description, now).0[ui].balance < users[ui].balance
  {
  }

  /**
   * A withdrawal debits the balance by exactly the amount it records, so
   * every user's balance stays as far from the applied rows as it was.
   */
  lemma WithdrawalKeepsDrift(users: seq<UserRow>, asgs: seq<AssignmentModel.AssignmentRow>, txs: seq<TransactionRow>,
                             ui: nat, amount: real, uuid: string, description: string, now: int)
    requires ui < |users|
    ensures var (users', txs') := Withdrawn(users, txs, ui, amount, uuid, description, now);
      forall key :: 1 <= key <= |users| ==>
        Settlement.Drift(Settlement.Books(users', asgs, txs'), key) == Settlement.Drift(Settlement.Books(users, asgs, txs), key)
  {
    var (users', txs') := Withdrawn(users, txs, ui, amount, uuid, description, now);
    var t := WithdrawalRow(ui + 1, amount, uuid, description, now);
    forall key | 1 <= key <= |users|
      ensures Settlement.Drift(Settlement.Books(users', asgs, txs'), key) == Settlement.Drift(Settlement.Books(users, asgs, txs), key)
    {
      TotalSnoc(txs, t, Applied(key));
    }
  }

  /** An accepted withdrawal adds its amount to the user's expense total and leaves the income total alone. */
  lemma WithdrawalCountsAsExpense(users: seq<UserRow>, txs: seq<TransactionRow>, ui: nat, amount: real,
                                  uuid: string, description: string, now: int)
    requires ui < |users| && amount > 0.0
    ensures var txs' := Withdrawn(users, txs, ui, amount, uuid, description, now).1;
      && Total(txs', Expense(ui + 1)) == Total(txs, Expense(ui + 1)) + amount
      && Total(txs', Income(ui + 1)) == Total(txs, Income(ui + 1))
  {
    var t := WithdrawalRow(ui + 1, amount, uuid, description, now);
    TotalSnoc(txs, t, Expense(ui + 1));
    TotalSnoc(txs, t, Income(ui + 1));
  }

  // ----------------------------------------------------------- the overview

  /** The two labels of the recent list. */
  datatype Flow = Inflow | Outflow
  {
    function Label(): string
    {
      if this == Inflow then "income" else "expense"
    }
  }

  /** One entry of the recent list. */
  datatype PaymentItem = PaymentItem(
    id: string, flow: Flow, amount: real, status: TransactionStatus, date: int, description: string)

  /** A stored transaction as the overview lists it: withdrawals and fees as expenses, amounts without sign. */
  function Item(t: TransactionRow): (i: PaymentItem)
    ensures i.flow == Outflow <==> t.kind.IsExpense()
    ensures i.amount >= 0.0 && (i.amount == t.amount || i.amount == -t.amount)
    ensures i.id == t.uuid && i.status == t.status && i.date == t.createdAt && i.description == t.title
  {
    PaymentItem(t.uuid, if t.kind.IsExpense() then Outflow else Inflow, Abs(t.amount), t.status, t.createdAt, t.title)
  }

  /** The creation time, the key of the overview's ordering. */
  function CreatedAt(t: TransactionRow): int
  {
    t.createdAt
  }

  /** The user's rows, in table order. */
  function RowsOf(txs: seq<TransactionRow>, key: nat): (r: seq<TransactionRow>)
  {
    Filter(txs, (t: TransactionRow) => t.userId == key)
  }

  /**
   * `WHERE user_id = ? ORDER BY created_at DESC LIMIT 10`. The query
   * leaves the order of rows created at the same time to the database;
   * this ordering puts the later-stored row first.
   */
  function RecentRows(txs: seq<TransactionRow>, key: nat): (r: seq<TransactionRow>)
    ensures |r| <= 10
  {
    Top(RowsOf(txs, key), CreatedAt, 10)
  }

  /**
   * The recent rows are the user's own, newest first, as many as the user
   * has up to ten, and none of the user's rows left out is newer than any
   * listed one.
   */
  lemma RecentAreNewest(txs: seq<TransactionRow>, key: nat)
    ensures var recent := RecentRows(txs, key);
      && (forall k :: 0 <= k < |recent| ==> recent[k] in txs && recent[k].userId == key)
      && (forall i, j :: 0 <= i < j < |recent| ==> recent[i].createdAt >= recent[j].createdAt)
      && |recent| == (if |RowsOf(txs, key)| <= 10 then |RowsOf(txs, key)| else 10)
      && (forall t :: t in RowsOf(txs, key) && t !in recent ==>
            forall k :: 0 <= k < |recent| ==> t.createdAt <= recent[k].createdAt)
  {
    var recent := RecentRows(txs, key);
    TopAreLargest(RowsOf(txs, key), CreatedAt, 10);
    forall k | 0 <= k < |recent|
      ensures recent[k] in txs && recent[k].userId == key
    {
      assert recent[k] in RowsOf(txs, key);
    }
  }

  /** The formatting loop over the rows the query returned. */
  method FormatRecent(rows: seq<TransactionRow>) returns (items: seq<PaymentItem>)
    ensures |items| == |rows|
    ensures forall k :: 0 <= k < |rows| ==> items[k] == Item(rows[k])
  {
    items := [];
    for k := 0 to |rows|
      invariant |items| == k
      invariant forall j :: 0 <= j < k ==> items[j] == Item(rows[j])
    {
      items := items + [Item(rows[k])];
    }
  }

  /** The payments overview of a user. */
  datatype PaymentsOverview = PaymentsOverview(
    balance: real, totalIncome: real, totalExpense: real, currency: string, transactions: seq<PaymentItem>)

  /**
   * The overview: the user's balance, the sum of the user's earnings
   * whatever their status, the sum of the absolute amounts of the user's
   * withdrawals and fees, and the ten newest transactions listed.
   */
  method GetPaymentsData(db: Database, userId: Option<nat>) returns (r: Result<PaymentsOverview, Reason>)
    ensures r == Err(NotLoggedIn) <==> userId.None?
    ensures r == Err(StorageError) <==> userId.Some? && !(1 <= userId.value <= |db.users|)
    ensures r.Ok? ==> var key := userId.value;
      && 1 <= key <= |db.users|
      && r.value.balance == db.users[key - 1].balance
      && r.value.totalIncome == Total(db.transactions, Income(key))
      && r.value.totalExpense == Total(db.transactions, Expense(key)) && r.value.totalExpense >= 0.0
      && r.value.currency == DefaultCurrency
      && |r.value.transactions| == |RecentRows(db.transactions, key)| <= 10
      && forall k :: 0 <= k < |r.value.transactions| ==> r.value.transactions[k] == Item(RecentRows(db.transactions, key)[k])
  {
    if userId.None? {
      return Err(NotLoggedIn);
    }
    var key := userId.value;
    var user := ByKey(db.users, key);
    if user.None? {
      return Err(StorageError);
    }
    var income := Total(db.transactions, Income(key));
    var expense := Total(db.transactions, Expense(key));
    ExpenseNonNegative(db.transactions, key);
    var items := FormatRecent(RecentRows(db.transactions, key));
    r := Ok(PaymentsOverview(user.value.balance, income, expense, DefaultCurrency, items));
  }

  // ----------------------------------------------------------- withdrawal accounts

  /** The body of a new withdrawal account; absent strings are "". */
  datatype AccountRequest = AccountRequest(
    accountType: string, account: string, realName: string, bankName: string, isDefault: bool)

  /** The account as the handler echoes it back. */
  datatype AccountView = AccountView(uuid: string, accountType: string, account: string, isDefault: bool, createdAt: int)

  /**
   * Adding a withdrawal account: the type must be alipay, wechat or bank,
   * the account must be given, and a bank account also needs the bank and
   * the holder's real name. Nothing is stored.
   */
  function AddWithdrawalAccount(req: AccountRequest, uuid: string, now: int): (r: Result<AccountView, Reason>)
    ensures r.Ok? <==>
      && req.accountType in {"alipay", "wechat", "bank"} && req.account != ""
      && (req.accountType == "bank" ==> req.bankName != "" && req.realName != "")
    ensures r.Ok? ==> r.value == AccountView(uuid, req.accountType, req.account, req.isDefault, now)
    ensures r.Err? ==> Status(r.error) == 400
  {
    if req.accountType !in {"alipay", "wechat", "bank"} || req.account == "" then Err(InvalidRequest)
    else if req.accountType == "bank" && (req.bankName == "" || req.realName == "") then Err(MissingParameter)
    else Ok(AccountView(uuid, req.accountType, req.account, req.isDefault, now))
  }
}
