/** The tasks table: location, payment and lifecycle enums, the row, its hook and its budget label. */
module TaskModel {
  import opened Wrappers
  import Uuids
  import opened Dates

  datatype LocationType = Online | Offline

  datatype PaymentType = Hourly | Daily | Fixed
  {
    /** The value stored in the payment_type column. */
    function Name(): string
    {
      match this
      case Hourly => "hourly"
      case Daily => "daily"
      case Fixed => "fixed"
    }
  }

  /** The seven lifecycle states of a task. */
  datatype TaskStatus =
    | PendingApproval
    | Recruiting
    | InProgress
    | PaymentPending
    | Completed
    | Closed
    | Rejected
  {
    function Name(): string
    {
      match this
      case PendingApproval => "pending_approval"
      case Recruiting => "recruiting"
      case InProgress => "in_progress"
      case PaymentPending => "payment_pending"
      case Completed => "completed"
      case Closed => "closed"
      case Rejected => "rejected"
    }
  }

  /** Column defaults of the tasks table. */
  const DefaultCurrency: string := "CNY"
  const DefaultHeadcount: nat := 1
  const DefaultStatus: TaskStatus := PendingApproval

  /**
   * A stored tasks row. Dates are calendar days, instants are seconds; the
   * row's primary key is its position in the table plus one.
   */
  datatype TaskRow = TaskRow(
    uuid: string,
    employerId: nat,
    title: string,
    description: string,
    locationType: LocationType,
    locationDetails: Option<string>,
    startDate: Date,
    endDate: Date,
    paymentType: PaymentType,
    budget: real,
    estimatedHours: real,
    currency: string,
    headcount: nat,
    status: TaskStatus,
    isPublic: bool,
    isUrgent: bool,
    publishedAt: Option<int>)

  /**
   * What the database stores for a new row: the currency and the headcount
   * fall back to their column defaults when the insert leaves them zero.
   */
  function WithColumnDefaults(t: TaskRow): (r: TaskRow)
    ensures r.currency != "" && r.headcount >= 1
    ensures t.currency != "" ==> r.currency == t.currency
    ensures t.headcount != 0 ==> r.headcount == t.headcount
    ensures r.(currency := t.currency, headcount := t.headcount) == t
  {
    t.(currency := if t.currency == "" then DefaultCurrency else t.currency,
       headcount := if t.headcount == 0 then DefaultHeadcount else t.headcount)
  }

  /** The BeforeCreate hook: a task without a uuid gets the generated one. */
  function BeforeCreate(t: TaskRow, generated: string): (r: TaskRow)
    ensures r.uuid == Uuids.FillUuid(t.uuid, generated)
    ensures r.(uuid := t.uuid) == t
  {
    t.(uuid := Uuids.FillUuid(t.uuid, generated))
  }

  /**
   * The unit suffix of a budget label, chosen by the payment_type column:
   * per hour, per day, and per project for fixed or any other value.
   */
  function BudgetSuffix(paymentType: string): (s: string)
    ensures s == "/小时" <==> paymentType == "hourly"
    ensures s == "/天" <==> paymentType == "daily"
    ensures s == "/项目" <==> paymentType != "hourly" && paymentType != "daily"
  {
    if paymentType == "hourly" then "/小时"
    else if paymentType == "daily" then "/天"
    else "/项目"
  }

  /**
   * The budget label: the amount printed with two decimals (`amountText`,
   * which the model takes as given), the currency, and the unit suffix.
   */
  function BudgetDisplay(t: TaskRow, amountText: string): (shown: string)
    ensures |shown| == |amountText| + |t.currency| + |BudgetSuffix(t.paymentType.Name())|
    ensures shown[..|amountText|] == amountText
    ensures shown[|amountText|..|amountText| + |t.currency|] == t.currency
    ensures shown[|amountText| + |t.currency|..] == BudgetSuffix(t.paymentType.Name())
  {
    amountText + t.currency + BudgetSuffix(t.paymentType.Name())
  }

  /**
   * Two tasks with the same amount text and currency get the same label
   * exactly when they are paid in the same unit: the three payment types
   * are told apart by their labels alone.
   */
  lemma {:induction false} LabelsTellUnitsApart(t: TaskRow, u: TaskRow, amountText: string)
    requires t.currency == u.currency
    ensures BudgetDisplay(t, amountText) == BudgetDisplay(u, amountText) <==> t.paymentType == u.paymentType
  {
    var a, b := BudgetDisplay(t, amountText), BudgetDisplay(u, amountText);
    var k := |amountText| + |t.currency|;
    if a == b {
      assert a[k..] == b[k..];
      assert BudgetSuffix(t.paymentType.Name()) == BudgetSuffix(u.paymentType.Name());
    }
  }

  /** How a listing shows a task's place: the offline address, or "线上远程". */
  function LocationDisplay(t: TaskRow): (s: string)
    ensures t.locationType == Offline && t.locationDetails.Some? ==> s == t.locationDetails.value
    ensures t.locationType == Online || t.locationDetails.None? ==> s == "线上远程"
  {
    if t.locationType == Offline && t.locationDetails.Some? then t.locationDetails.value else "线上远程"
  }
}
