/**
 * The new-task page (frontend/app/dashboard/tasks/create/page.tsx).
 * - The skill list is the shared skill editor, with recommended skills.
 * - Submitting checks the required fields and shapes the form into the
 *   body of POST /tasks.
 * - The backend's Go binding reads that body into the create-task
 *   request, and the create handler's checks decide.
 */
module CreateTaskPage {
  import opened Wrappers
  import opened Numbers
  import opened JsonValues
  import opened Http
  import opened Dates
  import opened UserModel
  import opened TaskHandlers

  /** The form as typed: numbers are the text of their inputs. */
  datatype TaskForm = TaskForm(
    title: string, description: string, locationType: string, location: string,
    startDate: string, endDate: string, paymentType: string,
    budget: string, headcount: string, skills: seq<string>,
    isPublic: bool, isUrgent: bool)

  /** handleSubmit stops when a required field is empty, or the location of an offline task. */
  predicate SubmitBlocked(f: TaskForm)
  {
    || f.title == "" || f.description == ""
    || (f.locationType == "offline" && f.location == "")
    || f.startDate == "" || f.endDate == "" || f.budget == ""
  }

  /** The location sent: the one typed for an offline task, "线上远程" otherwise. */
  function LocationText(f: TaskForm): (r: string)
    ensures f.locationType == "offline" ==> r == f.location
    ensures f.locationType != "offline" ==> r == "线上远程"
    ensures !SubmitBlocked(f) ==> r != ""
  {
    if f.locationType == "offline" then f.location else "线上远程"
  }

  /**
   * The keys of a new task's body: those the page writes and those the
   * create-task request reads. `Name` is the key's text in the JSON.
   */
  datatype Key =
    | Title | Description | LocationType | Location | LocationDetails | StartDate | EndDate
    | PaymentType | Budget | BudgetAmount | EstimatedHours | Headcount | Skills | IsPublic | IsUrgent
  {
    function Name(): string
    {
      match this
      case Title => "title"
      case Description => "description"
      case LocationType => "location_type"
      case Location => "location"
      case LocationDetails => "location_details"
      case StartDate => "start_date"
      case EndDate => "end_date"
      case PaymentType => "payment_type"
      case Budget => "budget"
      case BudgetAmount => "budget_amount"
      case EstimatedHours => "estimated_hours"
      case Headcount => "headcount"
      case Skills => "skills"
      case IsPublic => "is_public"
      case IsUrgent => "is_urgent"
    }
  }

  /** The keys the create-task request's fields are tagged with. */
  const RequestKeys: set<Key> :=
    {Title, Description, LocationType, LocationDetails, StartDate, EndDate, PaymentType,
     BudgetAmount, EstimatedHours, Headcount, Skills, IsPublic, IsUrgent}

  /** The page's budget and location keys are not keys the request reads. */
  lemma PageKeysUnread()
    ensures Budget !in RequestKeys && Location !in RequestKeys
    ensures forall k :: k in RequestKeys ==> k.Name() != Budget.Name() && k.Name() != Location.Name()
  {
  }

  /** The fields both bodies share, given how the headcount and the skills are written. */
  function CommonFields(f: TaskForm, headcount: Json, skills: Json): map<Key, Json>
  {
    map[Title := JStr(f.title), Description := JStr(f.description),
        LocationType := JStr(f.locationType),
        StartDate := JStr(f.startDate), EndDate := JStr(f.endDate),
        PaymentType := JStr(f.paymentType),
        Headcount := headcount, Skills := skills,
        IsPublic := JBool(f.isPublic), IsUrgent := JBool(f.isUrgent)]
  }

  /** Budget and headcount go through Number(); the skills are a string array. */
  function BudgetJson(f: TaskForm): Json { NumberJson(JsNumber(f.budget)) }
  function HeadcountJson(f: TaskForm): Json { NumberJson(JsNumber(f.headcount)) }

  /** The body as written: the location under `location`, the budget under `budget`. */
  function BodyAsWritten(f: TaskForm): map<Key, Json>
  {
    CommonFields(f, HeadcountJson(f), StringsJson(f.skills))[Location := JStr(LocationText(f))][Budget := BudgetJson(f)]
  }

  /** A body under the keys the create-task request reads, given how the numbers and skills are written. */
  function BodyWith(f: TaskForm, budget: Json, headcount: Json, skills: Json): map<Key, Json>
  {
    CommonFields(f, headcount, skills)[LocationDetails := JStr(LocationText(f))][BudgetAmount := budget]
  }

  /** The body under the keys the request reads: `location_details` and `budget_amount`. */
  function Body(f: TaskForm): map<Key, Json>
  {
    BodyWith(f, BudgetJson(f), HeadcountJson(f), StringsJson(f.skills))
  }

  /**
   * The backend's binding of a new task's body: each field by its Go type,
   * zero when missing or null; a value of the wrong type fails the binding
   * (None). The binding rules of the request are checked by the handler.
   */
  function BindTask(body: map<Key, Json>): (r: Option<CreateTaskRequest>)
    ensures r.Some? ==> DecodeFloat(Get(body, BudgetAmount)) == Ok(r.value.budgetAmount)
    ensures r.Some? ==> DecodeString(Get(body, LocationDetails)) == Ok(r.value.locationDetails)
    ensures r.Some? ==> DecodeStrings(Get(body, Skills)) == Ok(r.value.skills)
  {
    var title, description := DecodeString(Get(body, Title)), DecodeString(Get(body, Description));
    var locationType, details := DecodeString(Get(body, LocationType)), DecodeString(Get(body, LocationDetails));
    var start, end := DecodeString(Get(body, StartDate)), DecodeString(Get(body, EndDate));
    var payment := DecodeString(Get(body, PaymentType));
    var budget, hours := DecodeFloat(Get(body, BudgetAmount)), DecodeFloat(Get(body, EstimatedHours));
    var headcount, skills := DecodeInt(Get(body, Headcount)), DecodeStrings(Get(body, Skills));
    var isPublic, isUrgent := DecodeBool(Get(body, IsPublic)), DecodeBool(Get(body, IsUrgent));
    if && title.Ok? && description.Ok? && locationType.Ok? && details.Ok? && start.Ok? && end.Ok?
       && payment.Ok? && budget.Ok? && hours.Ok? && headcount.Ok? && skills.Ok? && isPublic.Ok? && isUrgent.Ok?
    then
      Some(CreateTaskRequest(title.value, description.value, locationType.value, details.value, start.value,
                             end.value, payment.value, budget.value, hours.value, headcount.value, skills.value,
                             isPublic.value, isUrgent.value))
    else None
  }

  /**
   * As written, no task is ever created from the page: the body has no
   * `budget_amount`, which binds as 0, and the request requires a positive
   * budget; an employer gets 400.
   */
  lemma CreateRefusedAsWritten(f: TaskForm, users: seq<UserRow>, key: nat, today: Date)
    requires 1 <= key <= |users| && users[key - 1].userType == Employer
    ensures CreateCheck(users, BindTask(BodyAsWritten(f)), Some(key), today) == Err(InvalidRequest)
    ensures Status(InvalidRequest) == 400
  {
    var body := BodyAsWritten(f);
    assert BudgetAmount !in body;
    var bound := BindTask(body);
    assert bound.Some? ==> bound.value.budgetAmount == 0.0;
  }

  /** The request a form binds to, given its budget and its whole headcount. */
  function RequestWith(f: TaskForm, budget: real, headcount: int): CreateTaskRequest
  {
    CreateTaskRequest(f.title, f.description, f.locationType, LocationText(f), f.startDate, f.endDate, f.paymentType,
                      budget, 0.0, headcount, Some(f.skills), f.isPublic, f.isUrgent)
  }

  /** A form whose budget and headcount are numbers, as the backend reads it. */
  function Request(f: TaskForm): CreateTaskRequest
    requires JsNumber(f.budget).Finite? && JsNumber(f.headcount).Finite?
  {
    RequestWith(f, JsNumber(f.budget).value, JsNumber(f.headcount).value.Floor)
  }

  /** Numbers for budget and headcount, the headcount whole, and the skills' array bind field by field. */
  lemma BodyWithBinds(f: TaskForm, budget: real, headcount: real, skills: Json)
    requires Integral(headcount) && DecodeStrings(Some(skills)) == Ok(Some(f.skills))
    ensures BindTask(BodyWith(f, JNum(budget), JNum(headcount), skills)) == Some(RequestWith(f, budget, headcount.Floor))
  {
    var body := BodyWith(f, JNum(budget), JNum(headcount), skills);
    assert Get(body, Title) == Some(JStr(f.title)) && Get(body, Description) == Some(JStr(f.description));
    assert Get(body, LocationType) == Some(JStr(f.locationType));
    assert Get(body, LocationDetails) == Some(JStr(LocationText(f)));
    assert Get(body, StartDate) == Some(JStr(f.startDate)) && Get(body, EndDate) == Some(JStr(f.endDate));
    assert Get(body, PaymentType) == Some(JStr(f.paymentType));
    assert Get(body, BudgetAmount) == Some(JNum(budget)) && Get(body, EstimatedHours) == None;
    assert Get(body, Headcount) == Some(JNum(headcount)) && Get(body, Skills) == Some(skills);
    assert Get(body, IsPublic) == Some(JBool(f.isPublic)) && Get(body, IsUrgent) == Some(JBool(f.isUrgent));
    assert DecodeInt(Get(body, Headcount)) == Ok(headcount.Floor);
  }

  /** The body under the request's keys binds to the form's fields, skills in order. */
  lemma BodyBinds(f: TaskForm)
    requires JsNumber(f.budget).Finite? && JsNumber(f.headcount).Finite? && Integral(JsNumber(f.headcount).value)
    ensures BindTask(Body(f)) == Some(Request(f))
  {
    StringsRoundTrip(f.skills);
    BodyWithBinds(f, JsNumber(f.budget).value, JsNumber(f.headcount).value, StringsJson(f.skills));
  }

  /**
   * A form that passes the page's check, with one of the offered location
   * and payment types, a positive budget and a positive whole headcount,
   * meets the request's binding rules.
   */
  lemma SubmittedFormBinds(f: TaskForm)
    requires !SubmitBlocked(f)
    requires f.locationType in {"online", "offline"} && f.paymentType in {"hourly", "daily", "fixed"}
    requires JsNumber(f.budget).Finite? && JsNumber(f.budget).value > 0.0
    requires JsNumber(f.headcount).Finite? && Integral(JsNumber(f.headcount).value) && JsNumber(f.headcount).value >= 1.0
    ensures BindTask(Body(f)).Some? && BindingOk(BindTask(Body(f)).value)
  {
    BodyBinds(f);
  }

  /** With dates the handler accepts, the handler's checks pass for an employer's such form. */
  lemma SubmittedFormAccepted(f: TaskForm, users: seq<UserRow>, key: nat, today: Date, start: Date, end: Date)
    requires 1 <= key <= |users| && users[key - 1].userType == Employer
    requires !SubmitBlocked(f)
    requires f.locationType in {"online", "offline"} && f.paymentType in {"hourly", "daily", "fixed"}
    requires JsNumber(f.budget).Finite? && JsNumber(f.budget).value > 0.0
    requires JsNumber(f.headcount).Finite? && Integral(JsNumber(f.headcount).value) && JsNumber(f.headcount).value >= 1.0
    requires ParseDate(f.startDate) == Some(start) && ParseDate(f.endDate) == Some(end)
    requires !Before(start, today) && !Before(end, start)
    ensures CreateCheck(users, BindTask(Body(f)), Some(key), today) == Ok((key, start, end))
  {
    SubmittedFormBinds(f);
    BodyBinds(f);
    var req := Request(f);
    assert req.startDate == f.startDate && req.endDate == f.endDate;
  }

  /**
   * With dates the handler accepts, an employer's task from such a form
   * is created, and the stored task keeps the budget typed and, for an
   * offline task, the location typed.
   */
  lemma SubmittedFormCreates(f: TaskForm, users: seq<UserRow>, key: nat, today: Date, start: Date, end: Date,
                             uuid: string, generated: string, now: int)
    requires 1 <= key <= |users| && users[key - 1].userType == Employer
    requires !SubmitBlocked(f)
    requires f.locationType in {"online", "offline"} && f.paymentType in {"hourly", "daily", "fixed"}
    requires JsNumber(f.budget).Finite? && JsNumber(f.budget).value > 0.0
    requires JsNumber(f.headcount).Finite? && Integral(JsNumber(f.headcount).value) && JsNumber(f.headcount).value >= 1.0
    requires ParseDate(f.startDate) == Some(start) && ParseDate(f.endDate) == Some(end)
    requires !Before(start, today) && !Before(end, start)
    ensures CreateCheck(users, BindTask(Body(f)), Some(key), today) == Ok((key, start, end))
    ensures var t := TaskHandlers.Stored(NewTask(key, BindTask(Body(f)).value, start, end, uuid, now), generated);
      && t.budget == JsNumber(f.budget).value
      && (f.locationType == "offline" <==> t.locationType == TaskModel.Offline)
      && (f.locationType == "offline" ==> t.locationDetails == Some(f.location))
  {
    SubmittedFormAccepted(f, users, key, today, start, end);
    SubmittedFormBinds(f);
    BodyBinds(f);
    var req := Request(f);
    StoredNewTask(key, req, start, end, uuid, generated, now);
  }
}
