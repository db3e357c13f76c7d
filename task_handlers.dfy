/**
 * The task handlers: listing pagination, task creation, and the lifecycle
 * a task goes through - workers apply, the employer accepts an
 * application, the assigned worker completes, the employer confirms and
 * the workers are paid.
 *
 * Each handler is a guard chain, written as a function returning the rows
 * it found or the first failing reason, followed by its writes. Writes
 * inside a database transaction go to working copies of the tables that
 * replace the stored tables only when the transaction commits.
 */
module TaskHandlers {
  import opened Wrappers
  import Uuids
  import opened Http
  import opened Seqs
  import opened Dates
  import opened TaskModel
  import opened ApplicationModel
  import opened AssignmentModel
  import opened TransactionModel
  import opened UserModel
  import opened Db
  import opened Settlement

  // ---------------------------------------------------------------- listing

  /** The requested page, or the first page when it is below 1. */
  function PageOrFirst(page: int): (p: nat)
    ensures p >= 1
    ensures page >= 1 ==> p == page
    ensures page < 1 ==> p == 1
  {
    if page < 1 then 1 else page
  }

  /** The requested page size when it lies in 1..50, else 10. */
  function LimitOrDefault(limit: int): (l: nat)
    ensures 1 <= l <= 50
    ensures 1 <= limit <= 50 ==> l == limit
    ensures !(1 <= limit <= 50) ==> l == 10
  {
    if limit < 1 || limit > 50 then 10 else limit
  }

  /** How many rows the listing skips before the page. */
  function Offset(page: nat, limit: nat): nat
    requires page >= 1
  {
    (page - 1) * limit
  }

  /** Page `page + 1` starts where page `page` ends. */
  lemma OffsetsAdjacent(page: nat, limit: nat)
    requires page >= 1
    ensures Offset(page + 1, limit) == Offset(page, limit) + limit
  {
    assert (page + 1 - 1) * limit == (page - 1) * limit + limit;
  }

  /** The number of pages: total divided by the page size, rounded up. */
  function TotalPages(total: nat, limit: nat): (n: nat)
    requires limit >= 1
    ensures n * limit >= total
    ensures n == 0 || (n - 1) * limit < total
    ensures n == 0 <==> total == 0
  {
    var n := (total + limit - 1) / limit;
    var rem := (total + limit - 1) % limit;
    assert n * limit + rem == total + limit - 1;
    assert n * limit == total + limit - 1 - rem;
    assert n == 0 || (n - 1) * limit == n * limit - limit;
    n
  }

  /** Every row of the result set lies on exactly one page that exists. */
  lemma PagesCover(total: nat, limit: nat, row: nat)
    requires limit >= 1 && row < total
    ensures var page := row / limit + 1;
      1 <= page <= TotalPages(total, limit) && Offset(page, limit) <= row < Offset(page, limit) + limit
  {
    var q, r := row / limit, row % limit;
    assert q * limit + r == row && r < limit;
    assert Offset(q + 1, limit) == q * limit;
    var n := TotalPages(total, limit);
    if n <= q {
      MulMonotone(n, q, limit);
      assert false;
    }
  }

  lemma MulMonotone(a: nat, b: nat, c: nat)
    requires a <= b
    ensures a * c <= b * c
  {
  }

  // ---------------------------------------------------------- the lifecycle

  /** The status changes the handlers make: apply or accept, complete, confirm. */
  predicate TaskEdge(from: TaskStatus, to: TaskStatus)
  {
    || (from == Recruiting && to == TaskStatus.InProgress)
    || (from == TaskStatus.InProgress && to == TaskStatus.PaymentPending)
    || (from == TaskStatus.PaymentPending && to == TaskStatus.Completed)
  }

  /** Position of a status along the lifecycle. */
  function Rank(s: TaskStatus): nat
  {
    match s
    case PendingApproval => 0
    case Recruiting => 1
    case InProgress => 2
    case PaymentPending => 3
    case Completed => 4
    case Closed => 5
    case Rejected => 5
  }

  /** Every edge moves forward, so no status is ever entered twice. */
  lemma EdgesMoveForward(from: TaskStatus, to: TaskStatus)
    requires TaskEdge(from, to)
    ensures Rank(from) < Rank(to)
    ensures to != Recruiting && to != PendingApproval
  {
  }

  /**
   * The tasks table after a handler: existing tasks keep every column but
   * the status, which stays or moves along one edge; new tasks are
   * recruiting.
   */
  ghost predicate TasksAdvance(before: seq<TaskRow>, after: seq<TaskRow>)
  {
    && |before| <= |after|
    && (forall k :: 0 <= k < |before| ==>
          after[k] == before[k] || (after[k] == before[k].(status := after[k].status) && TaskEdge(before[k].status, after[k].status)))
    && (forall k :: |before| <= k < |after| ==> after[k].status == Recruiting)
  }

  /** One status change along an edge, and nothing else, advances the tasks. */
  lemma AdvanceOne(tasks: seq<TaskRow>, ti: nat, to: TaskStatus)
    requires ti < |tasks| && TaskEdge(tasks[ti].status, to)
    ensures TasksAdvance(tasks, tasks[ti := tasks[ti].(status := to)])
  {
  }

  /** Along any number of handler calls, a task's status never moves back. */
  lemma {:induction false} AdvanceNeverReturns(history: seq<seq<TaskRow>>, k: nat)
    requires |history| >= 1 && k < |history[0]|
    requires forall h :: 0 <= h < |history| - 1 ==> TasksAdvance(history[h], history[h + 1])
    ensures k < |history[|history| - 1]|
    ensures Rank(history[0][k].status) <= Rank(history[|history| - 1][k].status)
    ensures history[|history| - 1][k].uuid == history[0][k].uuid
    ensures history[|history| - 1][k].employerId == history[0][k].employerId
    decreases |history|
  {
    if |history| > 1 {
      var n := |history| - 1;
      AdvanceNeverReturns(history[..n], k);
      assert history[..n][n - 1] == history[n - 1];
      var a, b := history[n - 1][k], history[n][k];
      assert TasksAdvance(history[n - 1], history[n]);
      if b != a {
        EdgesMoveForward(a.status, b.status);
      }
    }
  }

  // --------------------------------------------------------------- lookups

  function WithUuid(taskUuid: string): TaskRow -> bool
  {
    (t: TaskRow) => t.uuid == taskUuid
  }

  function RecruitingWithUuid(taskUuid: string): TaskRow -> bool
  {
    (t: TaskRow) => t.uuid == taskUuid && t.status == Recruiting
  }

  function ApplicationWithUuid(appUuid: string): ApplicationRow -> bool
  {
    (a: ApplicationRow) => a.uuid == appUuid
  }

  function ApplicationOf(taskKey: nat, workerId: nat): ApplicationRow -> bool
  {
    (a: ApplicationRow) => a.taskId == taskKey && a.workerId == workerId
  }

  function ApplicationFor(taskKey: nat): ApplicationRow -> bool
  {
    (a: ApplicationRow) => a.taskId == taskKey
  }

  function AssignmentOf(taskKey: nat, workerId: nat): AssignmentRow -> bool
  {
    (a: AssignmentRow) => a.taskId == taskKey && a.workerId == workerId
  }

  function AwaitingReview(taskKey: nat): AssignmentRow -> bool
  {
    (a: AssignmentRow) => a.taskId == taskKey && a.employerStatus == ReviewPending
  }

  /** A user that exists and whose identity card number is on file and not empty. */
  predicate HasIdCard(u: UserRow)
  {
    u.idCard.Some? && u.idCard.value != ""
  }

  // ---------------------------------------------------------------- guards

  /** The caller may apply: a stored worker with an identity card number. */
  predicate MayApply(users: seq<UserRow>, uid: nat)
  {
    1 <= uid <= |users| && users[uid - 1].userType == Worker && HasIdCard(users[uid - 1])
  }

  /**
   * The checks of applying to the task `taskUuid`, in the handler's order:
   * the caller's key and the index of the first recruiting task with that
   * uuid, or the first failing check.
   */
  function ApplyCheck(users: seq<UserRow>, tasks: seq<TaskRow>, apps: seq<ApplicationRow>,
                      taskUuid: string, userId: Option<nat>): (r: Result<(nat, nat), Reason>)
    ensures r == Err(MissingParameter) <==> taskUuid == ""
    ensures r == Err(NotLoggedIn) <==> taskUuid != "" && userId.None?
    ensures r == Err(UnknownUser) <==> taskUuid != "" && userId.Some? && !(1 <= userId.value <= |users|)
    ensures r == Err(WrongRole) <==>
      taskUuid != "" && userId.Some? && 1 <= userId.value <= |users| && users[userId.value - 1].userType != Worker
    ensures r == Err(IdentityNotVerified) <==>
      taskUuid != "" && userId.Some? && 1 <= userId.value <= |users| && users[userId.value - 1].userType == Worker
      && !HasIdCard(users[userId.value - 1])
    ensures r == Err(TaskUnavailable) <==>
      taskUuid != "" && userId.Some? && MayApply(users, userId.value)
      && forall k :: 0 <= k < |tasks| ==> !(tasks[k].uuid == taskUuid && tasks[k].status == Recruiting)
    ensures r.Err? ==> r.error in {MissingParameter, NotLoggedIn, UnknownUser, WrongRole, IdentityNotVerified,
                                   TaskUnavailable, AlreadyApplied}
    ensures r == Err(AlreadyApplied) ==>
      exists ti, k :: 0 <= ti < |tasks| && tasks[ti].uuid == taskUuid && tasks[ti].status == Recruiting
        && 0 <= k < |apps| && apps[k].taskId == ti + 1 && apps[k].workerId == userId.value
    ensures r.Ok? ==> var (uid, ti) := r.value;
      && userId == Some(uid) && taskUuid != "" && MayApply(users, uid)
      && ti < |tasks| && tasks[ti].uuid == taskUuid && tasks[ti].status == Recruiting
      && (forall k :: 0 <= k < ti ==> !(tasks[k].uuid == taskUuid && tasks[k].status == Recruiting))
      && (forall k :: 0 <= k < |apps| ==> !(apps[k].taskId == ti + 1 && apps[k].workerId == uid))
  {
    if taskUuid == "" then Err(MissingParameter)
    else if userId.None? then Err(NotLoggedIn)
    else
      var uid := userId.value;
      match ByKey(users, uid)
      case None => Err(UnknownUser)
      case Some(user) =>
        if user.userType != Worker then Err(WrongRole)
        else if !HasIdCard(user) then Err(IdentityNotVerified)
        else
          match FirstIndex(tasks, RecruitingWithUuid(taskUuid))
          case None => Err(TaskUnavailable)
          case Some(ti) =>
            if FirstIndex(apps, ApplicationOf(ti + 1, uid)).Some? then Err(AlreadyApplied)
            else Ok((uid, ti))
  }

  /** `ti` is the first task with uuid `taskUuid`, the one a lookup by uuid finds. */
  predicate FirstTask(tasks: seq<TaskRow>, taskUuid: string, ti: nat)
  {
    ti < |tasks| && tasks[ti].uuid == taskUuid && forall k :: 0 <= k < ti ==> tasks[k].uuid != taskUuid
  }

  /** `ai` is the first application with uuid `appUuid`. */
  predicate FirstApplication(apps: seq<ApplicationRow>, appUuid: string, ai: nat)
  {
    ai < |apps| && apps[ai].uuid == appUuid && forall k :: 0 <= k < ai ==> apps[k].uuid != appUuid
  }

  /** `ai` is the first assignment of the worker `uid` on the task with key `taskKey`. */
  predicate FirstAssignment(asgs: seq<AssignmentRow>, taskKey: nat, uid: nat, ai: nat)
  {
    ai < |asgs| && asgs[ai].taskId == taskKey && asgs[ai].workerId == uid
    && forall k :: 0 <= k < ai ==> !(asgs[k].taskId == taskKey && asgs[k].workerId == uid)
  }

  /**
   * The checks of accepting the application `appUuid`: the indices of the
   * application and of its task, or the first failing check.
   */
  function AcceptCheck(tasks: seq<TaskRow>, apps: seq<ApplicationRow>, appUuid: string, userId: Option<nat>)
    : (r: Result<(nat, nat), Reason>)
    ensures r == Err(NotLoggedIn) <==> userId.None?
    ensures r == Err(MissingParameter) <==> userId.Some? && appUuid == ""
    ensures r == Err(ApplicationNotFound) <==>
      userId.Some? && appUuid != "" && forall k :: 0 <= k < |apps| ==> apps[k].uuid != appUuid
    ensures r == Err(StorageError) ==>
      exists ai: nat :: FirstApplication(apps, appUuid, ai) && !(1 <= apps[ai].taskId <= |tasks|)
    ensures r == Err(NotTaskOwner) ==>
      exists ai: nat :: FirstApplication(apps, appUuid, ai) && 1 <= apps[ai].taskId <= |tasks|
        && tasks[apps[ai].taskId - 1].employerId != userId.value
    ensures r == Err(TaskNotRecruiting) ==>
      exists ai: nat :: FirstApplication(apps, appUuid, ai) && 1 <= apps[ai].taskId <= |tasks|
        && tasks[apps[ai].taskId - 1].status != Recruiting
    ensures r == Err(ApplicationHandled) ==>
      exists ai: nat :: FirstApplication(apps, appUuid, ai) && apps[ai].status != Pending
    ensures r.Err? ==> r.error in {NotLoggedIn, MissingParameter, ApplicationNotFound, StorageError, NotTaskOwner,
                                   TaskNotRecruiting, ApplicationHandled}
    ensures r.Ok? ==> var (ai, ti) := r.value;
      && userId.Some? && appUuid != "" && FirstApplication(apps, appUuid, ai)
      && ti < |tasks| && apps[ai].taskId == ti + 1
      && tasks[ti].employerId == userId.value
      && tasks[ti].status == Recruiting
      && apps[ai].status == Pending
  {
    if userId.None? then Err(NotLoggedIn)
    else if appUuid == "" then Err(MissingParameter)
    else
      match FirstIndex(apps, ApplicationWithUuid(appUuid))
      case None => Err(ApplicationNotFound)
      case Some(ai) =>
        assert FirstApplication(apps, appUuid, ai);
        var app := apps[ai];
        match ByKey(tasks, app.taskId)
        case None => Err(StorageError)
        case Some(task) =>
          if task.employerId != userId.value then Err(NotTaskOwner)
          else if task.status != Recruiting then Err(TaskNotRecruiting)
          else if app.status != Pending then Err(ApplicationHandled)
          else Ok((ai, app.taskId - 1))
  }

  /**
   * The checks of the assigned worker handing in the task `taskUuid`: the
   * indices of the task and of the caller's assignment on it, or the first
   * failing check.
   */
  function CompleteCheck(tasks: seq<TaskRow>, asgs: seq<AssignmentRow>, taskUuid: string, userId: Option<nat>)
    : (r: Result<(nat, nat), Reason>)
    ensures r == Err(NotLoggedIn) <==> userId.None?
    ensures r == Err(MissingParameter) <==> userId.Some? && taskUuid == ""
    ensures r == Err(TaskUnavailable) <==>
      userId.Some? && taskUuid != "" && forall k :: 0 <= k < |tasks| ==> tasks[k].uuid != taskUuid
    ensures r == Err(NotAssignee) ==>
      exists ti: nat :: FirstTask(tasks, taskUuid, ti)
        && forall k :: 0 <= k < |asgs| ==> !(asgs[k].taskId == ti + 1 && asgs[k].workerId == userId.value)
    ensures r == Err(TaskNotInProgress) ==>
      exists ti: nat :: FirstTask(tasks, taskUuid, ti) && tasks[ti].status != TaskStatus.InProgress
    ensures r.Err? ==> r.error in {NotLoggedIn, MissingParameter, TaskUnavailable, NotAssignee, TaskNotInProgress}
    ensures r.Ok? ==> var (ti, ai) := r.value;
      && userId.Some? && taskUuid != "" && FirstTask(tasks, taskUuid, ti)
      && FirstAssignment(asgs, ti + 1, userId.value, ai)
      && tasks[ti].status == TaskStatus.InProgress
  {
    if userId.None? then Err(NotLoggedIn)
    else if taskUuid == "" then Err(MissingParameter)
    else
      match FirstIndex(tasks, WithUuid(taskUuid))
      case None => Err(TaskUnavailable)
      case Some(ti) =>
        assert FirstTask(tasks, taskUuid, ti);
        match FirstIndex(asgs, AssignmentOf(ti + 1, userId.value))
        case None => Err(NotAssignee)
        case Some(ai) =>
          assert FirstAssignment(asgs, ti + 1, userId.value, ai);
          if tasks[ti].status != TaskStatus.InProgress then Err(TaskNotInProgress)
          else Ok((ti, ai))
  }

  /**
   * The checks of the employer confirming the task `taskUuid`: the index of
   * the task and the indices, in key order, of its assignments awaiting
   * review, or the first failing check.
   */
  function ConfirmCheck(tasks: seq<TaskRow>, asgs: seq<AssignmentRow>, taskUuid: string, userId: Option<nat>)
    : (r: Result<(nat, seq<nat>), Reason>)
    ensures r == Err(NotLoggedIn) <==> userId.None?
    ensures r == Err(MissingParameter) <==> userId.Some? && taskUuid == ""
    ensures r == Err(TaskUnavailable) <==>
      userId.Some? && taskUuid != "" && forall k :: 0 <= k < |tasks| ==> tasks[k].uuid != taskUuid
    ensures r == Err(NotTaskOwner) ==>
      exists ti: nat :: FirstTask(tasks, taskUuid, ti) && tasks[ti].employerId != userId.value
    ensures r == Err(TaskNotPaymentPending) ==>
      exists ti: nat :: FirstTask(tasks, taskUuid, ti) && tasks[ti].status != TaskStatus.PaymentPending
    ensures r == Err(NothingToConfirm) ==>
      exists ti: nat :: FirstTask(tasks, taskUuid, ti)
        && forall k :: 0 <= k < |asgs| ==> !(asgs[k].taskId == ti + 1 && asgs[k].employerStatus == ReviewPending)
    ensures r.Err? ==> r.error in {NotLoggedIn, MissingParameter, TaskUnavailable, NotTaskOwner,
                                   TaskNotPaymentPending, NothingToConfirm}
    ensures r.Ok? ==> var (ti, pending) := r.value;
      && userId.Some? && taskUuid != "" && FirstTask(tasks, taskUuid, ti)
      && tasks[ti].employerId == userId.value
      && tasks[ti].status == TaskStatus.PaymentPending
      && |pending| > 0 && InRange(pending, |asgs|)
      && (forall k, l :: 0 <= k < l < |pending| ==> pending[k] < pending[l])
      && (forall j :: 0 <= j < |asgs| ==>
            (j in pending <==> asgs[j].taskId == ti + 1 && asgs[j].employerStatus == ReviewPending))
  {
    if userId.None? then Err(NotLoggedIn)
    else if taskUuid == "" then Err(MissingParameter)
    else
      match FirstIndex(tasks, WithUuid(taskUuid))
      case None => Err(TaskUnavailable)
      case Some(ti) =>
        assert FirstTask(tasks, taskUuid, ti);
        if tasks[ti].employerId != userId.value then Err(NotTaskOwner)
        else if tasks[ti].status != TaskStatus.PaymentPending then Err(TaskNotPaymentPending)
        else
          var pending := Positions(asgs, AwaitingReview(ti + 1));
          if pending == [] then Err(NothingToConfirm)
          else Ok((ti, pending))
  }

  // ----------------------------------------------------------- task creation

  /** The JSON body of a new task; a missing or mistyped body does not decode at all. */
  datatype CreateTaskRequest = CreateTaskRequest(
    title: string,
    description: string,
    locationType: string,
    locationDetails: string,
    startDate: string,
    endDate: string,
    paymentType: string,
    budgetAmount: real,
    estimatedHours: real,
    headcount: int,
    skills: Option<seq<string>>,
    isPublic: bool,
    isUrgent: bool)

  /** The binding rules of the body: required fields present, enums in range, amounts positive. */
  predicate BindingOk(req: CreateTaskRequest)
  {
    && req.title != "" && req.description != ""
    && req.locationType in {"online", "offline"}
    && req.startDate != "" && req.endDate != ""
    && req.paymentType in {"hourly", "daily", "fixed"}
    && req.budgetAmount > 0.0
    && req.estimatedHours >= 0.0
    && req.headcount > 0
    && req.skills.Some?
  }

  /**
   * The checks of creating a task: the caller's key and the two parsed
   * dates, or the first failing check. `today` is the current UTC date.
   */
  function CreateCheck(users: seq<UserRow>, body: Option<CreateTaskRequest>, userId: Option<nat>, today: Date)
    : (r: Result<(nat, Date, Date), Reason>)
    ensures r == Err(NotLoggedIn) <==> userId.None?
    ensures r == Err(UnknownUser) <==> userId.Some? && !(1 <= userId.value <= |users|)
    ensures r == Err(WrongRole) <==>
      userId.Some? && 1 <= userId.value <= |users| && users[userId.value - 1].userType != Employer
    ensures r.Err? ==> r.error in {NotLoggedIn, UnknownUser, WrongRole, InvalidRequest}
    ensures r.Ok? ==> var (uid, start, end) := r.value;
      && userId == Some(uid) && 1 <= uid <= |users| && users[uid - 1].userType == Employer
      && body.Some? && BindingOk(body.value)
      && ParseDate(body.value.startDate) == Some(start) && ParseDate(body.value.endDate) == Some(end)
      && !Before(start, today) && !Before(end, start)
    ensures userId.Some? && 1 <= userId.value <= |users| && users[userId.value - 1].userType == Employer ==>
      (r.Ok? <==> body.Some? && BindingOk(body.value)
                  && ParseDate(body.value.startDate).Some? && ParseDate(body.value.endDate).Some?
                  && !Before(ParseDate(body.value.startDate).value, today)
                  && !Before(ParseDate(body.value.endDate).value, ParseDate(body.value.startDate).value))
  {
    if userId.None? then Err(NotLoggedIn)
    else
      match ByKey(users, userId.value)
      case None => Err(UnknownUser)
      case Some(user) =>
        if user.userType != Employer then Err(WrongRole)
        else if body.None? || !BindingOk(body.value) then Err(InvalidRequest)
        else
          match (ParseDate(body.value.startDate), ParseDate(body.value.endDate))
          case (None, _) => Err(InvalidRequest)
          case (_, None) => Err(InvalidRequest)
          case (Some(start), Some(end)) =>
            if Before(start, today) then Err(InvalidRequest)
            else if Before(end, start) then Err(InvalidRequest)
            else Ok((userId.value, start, end))
  }

  /** The task the handler builds from a checked body, before the insert hook and column defaults. */
  function NewTask(uid: nat, req: CreateTaskRequest, start: Date, end: Date, uuid: string, now: int): TaskRow
  {
    var location := if req.locationType == "offline" then Offline else Online;
    TaskRow(
      uuid, uid, req.title, req.description, location,
      if location == Offline && req.locationDetails != "" then Some(req.locationDetails) else None,
      start, end,
      if req.paymentType == "hourly" then Hourly else if req.paymentType == "daily" then Daily else Fixed,
      req.budgetAmount, req.estimatedHours, "", if req.headcount < 0 then 0 else req.headcount,
      Recruiting, req.isPublic, req.isUrgent, Some(now))
  }

  /** The row the insert stores: the hook fills an empty uuid, the columns fill their defaults. */
  function Stored(t: TaskRow, generated: string): TaskRow
  {
    WithColumnDefaults(TaskModel.BeforeCreate(t, generated))
  }

  /**
   * A task stored from a body that binds: it keeps the body's fields,
   * belongs to the caller, is recruiting and is priced in CNY.
   */
  lemma StoredNewTask(uid: nat, req: CreateTaskRequest, start: Date, end: Date, uuid: string, generated: string, now: int)
    requires BindingOk(req)
    ensures var t := Stored(NewTask(uid, req, start, end, uuid, now), generated);
      && t.employerId == uid && t.status == Recruiting && t.currency == TaskModel.DefaultCurrency
      && t.title == req.title && t.description == req.description
      && t.budget == req.budgetAmount && t.budget > 0.0 && t.headcount == req.headcount
      && (t.locationType == Offline <==> req.locationType == "offline")
      && t.paymentType.Name() == req.paymentType
      && (t.locationDetails.Some? <==> t.locationType == Offline && req.locationDetails != "")
      && t.startDate == start && t.endDate == end && t.publishedAt == Some(now)
      && (uuid != "" ==> t.uuid == uuid)
  {
    assert req.paymentType == "hourly" || req.paymentType == "daily" || req.paymentType == "fixed";
  }

  /**
   * The dates of a body that passes the checks print back exactly as they
   * were sent, so a stored task shows the dates its employer entered.
   */
  lemma CheckedDatesPrintBack(users: seq<UserRow>, body: Option<CreateTaskRequest>, userId: Option<nat>, today: Date,
                              uid: nat, start: Date, end: Date)
    requires CreateCheck(users, body, userId, today) == Ok((uid, start, end))
    ensures Valid(start) && 0 <= start.year <= 9999 && Valid(end) && 0 <= end.year <= 9999
    ensures FormatDate(start) == body.value.startDate && FormatDate(end) == body.value.endDate
  {
    assert ParseDate(body.value.startDate) == Some(start) && ParseDate(body.value.endDate) == Some(end);
    FormatParsed(body.value.startDate);
    FormatParsed(body.value.endDate);
  }

  /**
   * Creates a task: after the checks the task is inserted as recruiting;
   * a failed insert changes nothing.
   */
  method CreateTask(db: Database, userId: Option<nat>, body: Option<CreateTaskRequest>, today: Date,
                    uuid: string, generated: string, now: int, fails: set<Step>)
    returns (r: Result<TaskRow, Reason>)
    requires db.Valid()
    modifies db
    ensures db.Valid() && TasksAdvance(old(db.tasks), db.tasks)
    ensures var check := CreateCheck(old(db.users), body, userId, today);
      && (check.Err? ==> r == Err(check.error) && unchanged(db))
      && (check.Ok? && InsertTask in fails ==> r == Err(StorageError) && unchanged(db))
      && (check.Ok? && InsertTask !in fails ==>
            var (uid, start, end) := check.value;
            && r == Ok(Stored(NewTask(uid, body.value, start, end, uuid, now), generated))
            && db.tasks == old(db.tasks) + [r.value]
            && db.users == old(db.users) && db.applications == old(db.applications)
            && db.assignments == old(db.assignments) && db.transactions == old(db.transactions)
            && db.reviews == old(db.reviews))
  {
    var check := CreateCheck(db.users, body, userId, today);
    if check.Err? {
      return Err(check.error);
    }
    var (uid, start, end) := check.value;
    var task := NewTask(uid, body.value, start, end, uuid, now);
    if InsertTask in fails {
      return Err(StorageError);
    }
    var row := Stored(task, generated);
    db.tasks := db.tasks + [row];
    r := Ok(row);
  }

  // ------------------------------------------------------------- applying

  /** The tasks after the post-apply headcount check flips the task at `ti` to in progress, if it does. */
  function AfterApplyCount(tasks: seq<TaskRow>, apps: seq<ApplicationRow>, ti: nat, saved: bool): (r: seq<TaskRow>)
    requires ti < |tasks|
    ensures |r| == |tasks|
    ensures r != tasks <==>
      saved && tasks[ti].status == Recruiting && Count(apps, ApplicationFor(ti + 1)) >= tasks[ti].headcount
    ensures forall k :: 0 <= k < |tasks| && k != ti ==> r[k] == tasks[k]
    ensures r[ti] == tasks[ti] || r[ti] == tasks[ti].(status := TaskStatus.InProgress)
  {
    if saved && Count(apps, ApplicationFor(ti + 1)) >= tasks[ti].headcount && tasks[ti].status == Recruiting then
      assert tasks[ti].(status := TaskStatus.InProgress) != tasks[ti];
      tasks[ti := tasks[ti].(status := TaskStatus.InProgress)]
    else tasks
  }

  /**
   * A worker applies to a task: after the checks a pending application is
   * inserted, and when the task's applications (of any status) now reach
   * its headcount the task moves to in progress. A failed insert changes
   * nothing; a failed save of the task is ignored.
   */
  method ApplyToTask(db: Database, taskUuid: string, userId: Option<nat>, coverLetter: string,
                     uuid: string, generated: string, now: int, fails: set<Step>)
    returns (r: Result<ApplicationRow, Reason>)
    requires db.Valid()
    modifies db
    ensures db.Valid() && TasksAdvance(old(db.tasks), db.tasks)
    ensures var check := ApplyCheck(old(db.users), old(db.tasks), old(db.applications), taskUuid, userId);
      && (check.Err? ==> r == Err(check.error) && unchanged(db))
      && (check.Ok? && InsertApplication in fails ==> r == Err(StorageError) && unchanged(db))
      && (check.Ok? && InsertApplication !in fails ==>
            var (uid, ti) := check.value;
            && r.Ok?
            && r.value == ApplicationRow(Uuids.FillUuid(uuid, generated), ti + 1, uid, Pending,
                                         if coverLetter == "" then None else Some(coverLetter), now, now)
            && db.applications == old(db.applications) + [r.value]
            && db.tasks == AfterApplyCount(old(db.tasks), db.applications, ti, SaveTask !in fails)
            && db.users == old(db.users) && db.assignments == old(db.assignments)
            && db.transactions == old(db.transactions) && db.reviews == old(db.reviews))
  {
    var check := ApplyCheck(db.users, db.tasks, db.applications, taskUuid, userId);
    if check.Err? {
      return Err(check.error);
    }
    var (uid, ti) := check.value;
    r := AddApplication(db, uid, ti, coverLetter, uuid, generated, now, fails);
  }

  /**
   * The writes of applying, once the checks found the worker `uid` and the
   * recruiting task at `ti`, to which the worker has not applied yet.
   */
  method AddApplication(db: Database, uid: nat, ti: nat, coverLetter: string,
                        uuid: string, generated: string, now: int, fails: set<Step>)
    returns (r: Result<ApplicationRow, Reason>)
    requires db.Valid() && ti < |db.tasks|
    requires forall k :: 0 <= k < |db.applications| ==> !(db.applications[k].taskId == ti + 1 && db.applications[k].workerId == uid)
    modifies db
    ensures db.Valid() && TasksAdvance(old(db.tasks), db.tasks)
    ensures InsertApplication in fails ==> r == Err(StorageError) && unchanged(db)
    ensures InsertApplication !in fails ==>
      && r.Ok?
      && r.value == ApplicationRow(Uuids.FillUuid(uuid, generated), ti + 1, uid, Pending,
                                   if coverLetter == "" then None else Some(coverLetter), now, now)
      && db.applications == old(db.applications) + [r.value]
      && db.tasks == AfterApplyCount(old(db.tasks), db.applications, ti, SaveTask !in fails)
      && db.users == old(db.users) && db.assignments == old(db.assignments)
      && db.transactions == old(db.transactions) && db.reviews == old(db.reviews)
  {
    var application := new TaskApplication.FromRow(
      ApplicationRow(uuid, ti + 1, uid, Pending, if coverLetter == "" then None else Some(coverLetter), now, now));
    application.BeforeCreate(generated);
    if InsertApplication in fails {
      return Err(StorageError);
    }
    var row := application.Row();
    OneApplicationAfterNew(db.applications, row);
    BackedAfterNewApplication(db.applications, db.assignments, row);
    db.applications := db.applications + [row];
    var count := Count(db.applications, ApplicationFor(ti + 1));
    var task := db.tasks[ti];
    if count >= task.headcount && task.status == Recruiting {
      task := task.(status := TaskStatus.InProgress);
      if SaveTask !in fails {
        AdvanceOne(db.tasks, ti, TaskStatus.InProgress);
        db.tasks := db.tasks[ti := task];
      }
    }
    r := Ok(row);
  }

  // ------------------------------------------------------------ accepting

  /** The writes of accepting an application, in order, all in one database transaction. */
  const AcceptWrites: set<Step> := {BeginTx, SaveApplication, InsertAssignment, SaveTask, CommitTx}

  /**
   * The task's employer accepts a pending application: the application
   * becomes accepted, one assignment of its worker to its task is created
   * (working, in progress) and the task moves to in progress, all or
   * nothing. There is no headcount check.
   */
  method AcceptTaskApplication(db: Database, appUuid: string, userId: Option<nat>, uuid: string, now: int,
                               fails: set<Step>)
    returns (r: Result<AssignmentRow, Reason>)
    requires db.Valid()
    modifies db
    ensures db.Valid() && TasksAdvance(old(db.tasks), db.tasks)
    ensures var check := AcceptCheck(old(db.tasks), old(db.applications), appUuid, userId);
      && (check.Err? ==> r == Err(check.error) && unchanged(db))
      && (check.Ok? && fails * AcceptWrites != {} ==> r == Err(StorageError) && unchanged(db))
      && (check.Ok? && fails * AcceptWrites == {} ==>
            var (ai, ti) := check.value;
            var app := old(db.applications)[ai];
            && r == Ok(AssignmentRow(uuid, Some(ai + 1), app.taskId, app.workerId, now, Working,
                                     EmployerStatus.InProgress, None))
            && db.applications == old(db.applications)[ai := app.(status := Accepted)]
            && db.assignments == old(db.assignments) + [r.value]
            && db.tasks == old(db.tasks)[ti := old(db.tasks)[ti].(status := TaskStatus.InProgress)]
            && db.users == old(db.users) && db.transactions == old(db.transactions) && db.reviews == old(db.reviews))
  {
    var check := AcceptCheck(db.tasks, db.applications, appUuid, userId);
    if check.Err? {
      return Err(check.error);
    }
    var (ai, ti) := check.value;
    var apps, asgs, tasks := db.applications, db.assignments, db.tasks;
    if BeginTx in fails {
      assert BeginTx in fails * AcceptWrites;
      return Err(StorageError);
    }
    var application := new TaskApplication.FromRow(apps[ai]);
    application.Accept();
    if SaveApplication in fails {
      assert SaveApplication in fails * AcceptWrites;
      return Err(StorageError);
    }
    apps := apps[ai := application.Row()];
    var assignment := new TaskAssignment.Create(uuid, Some(ai + 1), application.taskId, application.workerId, now,
                                                Some(Working), Some(EmployerStatus.InProgress));
    if InsertAssignment in fails {
      assert InsertAssignment in fails * AcceptWrites;
      return Err(StorageError);
    }
    asgs := asgs + [assignment.Row()];
    var task := tasks[ti].(status := TaskStatus.InProgress);
    if SaveTask in fails {
      assert SaveTask in fails * AcceptWrites;
      return Err(StorageError);
    }
    AdvanceOne(tasks, ti, TaskStatus.InProgress);
    tasks := tasks[ti := task];
    if CommitTx in fails {
      assert CommitTx in fails * AcceptWrites;
      return Err(StorageError);
    }
    BackedAfterAccept(db.applications, db.assignments, ai, assignment.Row());
    OneApplicationAfterStatusChange(db.applications, ai, Accepted);
    r := Ok(assignment.Row());
    Commit(db, db.users, tasks, apps, asgs, db.transactions);
  }

  // ----------------------------------------------------------- completing

  /** The writes of handing in a task, in order, all in one database transaction. */
  const CompleteWrites: set<Step> := {BeginTx, SaveAssignment, SaveTask, CommitTx}

  /**
   * The assigned worker hands in the task: the caller's assignment becomes
   * submitted and awaiting review and the task moves to payment pending,
   * all or nothing.
   */
  method CompleteTask(db: Database, taskUuid: string, userId: Option<nat>, fails: set<Step>)
    returns (r: Result<TaskRow, Reason>)
    requires db.Valid()
    modifies db
    ensures db.Valid() && TasksAdvance(old(db.tasks), db.tasks)
    ensures var check := CompleteCheck(old(db.tasks), old(db.assignments), taskUuid, userId);
      && (check.Err? ==> r == Err(check.error) && unchanged(db))
      && (check.Ok? && fails * CompleteWrites != {} ==> r == Err(StorageError) && unchanged(db))
      && (check.Ok? && fails * CompleteWrites == {} ==>
            var (ti, ai) := check.value;
            && r == Ok(old(db.tasks)[ti].(status := TaskStatus.PaymentPending))
            && db.tasks == old(db.tasks)[ti := r.value]
            && db.assignments == old(db.assignments)[ai := WorkSubmitted(old(db.assignments)[ai])]
            && db.users == old(db.users) && db.applications == old(db.applications)
            && db.transactions == old(db.transactions) && db.reviews == old(db.reviews))
  {
    var check := CompleteCheck(db.tasks, db.assignments, taskUuid, userId);
    if check.Err? {
      return Err(check.error);
    }
    var (ti, ai) := check.value;
    r := SubmitChecked(db, ti, ai, fails);
  }

  /** The writes of handing in, once the checks found the task at `ti` and the caller's assignment at `ai`. */
  method SubmitChecked(db: Database, ti: nat, ai: nat, fails: set<Step>) returns (r: Result<TaskRow, Reason>)
    requires db.Valid() && ti < |db.tasks| && db.tasks[ti].status == TaskStatus.InProgress && ai < |db.assignments|
    modifies db
    ensures db.Valid() && TasksAdvance(old(db.tasks), db.tasks)
    ensures fails * CompleteWrites != {} ==> r == Err(StorageError) && unchanged(db)
    ensures fails * CompleteWrites == {} ==>
      && r == Ok(old(db.tasks)[ti].(status := TaskStatus.PaymentPending))
      && db.tasks == old(db.tasks)[ti := r.value]
      && db.assignments == old(db.assignments)[ai := WorkSubmitted(old(db.assignments)[ai])]
      && db.users == old(db.users) && db.applications == old(db.applications)
      && db.transactions == old(db.transactions) && db.reviews == old(db.reviews)
  {
    var asgs, tasks := db.assignments, db.tasks;
    if BeginTx in fails {
      assert BeginTx in fails * CompleteWrites;
      return Err(StorageError);
    }
    var assignment := new TaskAssignment.FromRow(asgs[ai]);
    assignment.SubmitWork();
    if SaveAssignment in fails {
      assert SaveAssignment in fails * CompleteWrites;
      return Err(StorageError);
    }
    asgs := asgs[ai := assignment.Row()];
    var task := tasks[ti].(status := TaskStatus.PaymentPending);
    if SaveTask in fails {
      assert SaveTask in fails * CompleteWrites;
      return Err(StorageError);
    }
    AdvanceOne(tasks, ti, TaskStatus.PaymentPending);
    tasks := tasks[ti := task];
    if CommitTx in fails {
      assert CommitTx in fails * CompleteWrites;
      return Err(StorageError);
    }
    BackedAfterStatusChanges(db.applications, db.assignments, asgs);
    db.assignments, db.tasks := asgs, tasks;
    r := Ok(task);
  }

  // ----------------------------------------------------------- confirming

  /** The database writes of confirming whose failure aborts it: opening, the task save, the commit. */
  const ConfirmWrites: set<Step> := {BeginTx, SaveTask, CommitTx}

  /**
   * What a confirmation that reached its commit leaves behind: the task at
   * `ti` completed, the books as the payment loop over `pending` settles
   * them with an equal share of the budget each, and the caller told the
   * task when at least one payment went through and payment failed
   * otherwise.
   */
  ghost predicate Confirmed(books: Books, tasks: seq<TaskRow>, ti: nat, pending: seq<nat>, now: int,
                            uuidFor: nat -> string, paymentFaults: map<nat, Step>,
                            books': Books, tasks': seq<TaskRow>, r: Result<TaskRow, Reason>)
  {
    && ti < |tasks| && |pending| > 0 && InRange(pending, |books.assignments|)
    && var task := tasks[ti].(status := TaskStatus.Completed);
       var settled := Settle(books, pending, task, ti + 1, task.budget / (|pending| as real),
                             paymentFaults, uuidFor, now);
       && tasks' == tasks[ti := task]
       && books' == settled.0
       && (r == Ok(task) <==> settled.1 > 0)
       && (r != Ok(task) <==> r == Err(PaymentFailed))
  }

  /**
   * The employer confirms a task awaiting payment: the task becomes
   * completed, and the payment loop then pays every assignment awaiting
   * review `budget / n` for n such assignments, each payment step able to
   * fail on its own (`paymentFaults`, keyed by loop position) without
   * stopping the loop. What the loop wrote is committed even when every
   * payment failed, and then the caller is told payment failed.
   */
  method ConfirmTaskCompletion(db: Database, taskUuid: string, userId: Option<nat>, now: int,
                               uuidFor: nat -> string, paymentFaults: map<nat, Step>, fails: set<Step>)
    returns (r: Result<TaskRow, Reason>)
    requires db.Valid()
    modifies db
    ensures db.Valid() && TasksAdvance(old(db.tasks), db.tasks)
    ensures var check := ConfirmCheck(old(db.tasks), old(db.assignments), taskUuid, userId);
      check.Err? ==> r == Err(check.error) && unchanged(db)
    ensures var check := ConfirmCheck(old(db.tasks), old(db.assignments), taskUuid, userId);
      check.Ok? && fails * ConfirmWrites != {} ==> r == Err(StorageError) && unchanged(db)
    ensures var check := ConfirmCheck(old(db.tasks), old(db.assignments), taskUuid, userId);
      check.Ok? && fails * ConfirmWrites == {} ==>
        && Confirmed(Books(old(db.users), old(db.assignments), old(db.transactions)), old(db.tasks),
                     check.value.0, check.value.1, now, uuidFor, paymentFaults,
                     Books(db.users, db.assignments, db.transactions), db.tasks, r)
        && db.applications == old(db.applications) && db.reviews == old(db.reviews)
  {
    var check := ConfirmCheck(db.tasks, db.assignments, taskUuid, userId);
    if check.Err? {
      return Err(check.error);
    }
    var (ti, pending) := check.value;
    r := SettleConfirmed(db, ti, pending, now, uuidFor, paymentFaults, fails);
  }

  /** The writes of a confirmation whose checks passed: the task at `ti`, then the loop over `pending`. */
  method SettleConfirmed(db: Database, ti: nat, pending: seq<nat>, now: int,
                    uuidFor: nat -> string, paymentFaults: map<nat, Step>, fails: set<Step>)
    returns (r: Result<TaskRow, Reason>)
    requires db.Valid() && ti < |db.tasks| && db.tasks[ti].status == TaskStatus.PaymentPending
    requires |pending| > 0 && InRange(pending, |db.assignments|)
    requires forall a, b :: 0 <= a < b < |pending| ==> pending[a] < pending[b]
    modifies db
    ensures db.Valid() && TasksAdvance(old(db.tasks), db.tasks)
    ensures fails * ConfirmWrites != {} ==> r == Err(StorageError) && unchanged(db)
    ensures fails * ConfirmWrites == {} ==>
      && Confirmed(Books(old(db.users), old(db.assignments), old(db.transactions)), old(db.tasks),
                   ti, pending, now, uuidFor, paymentFaults,
                   Books(db.users, db.assignments, db.transactions), db.tasks, r)
      && db.applications == old(db.applications) && db.reviews == old(db.reviews)
  {
    if BeginTx in fails {
      assert BeginTx in fails * ConfirmWrites;
      return Err(StorageError);
    }
    if SaveTask in fails {
      assert SaveTask in fails * ConfirmWrites;
      return Err(StorageError);
    }
    if CommitTx in fails {
      assert CommitTx in fails * ConfirmWrites;
    }
    r := PayAndCommit(db, ti, pending, now, uuidFor, paymentFaults, CommitTx in fails);
  }

  /**
   * The task save and the payment loop inside the transaction, then the
   * commit, which fails exactly when `commitFails`.
   */
  method PayAndCommit(db: Database, ti: nat, pending: seq<nat>, now: int,
                      uuidFor: nat -> string, paymentFaults: map<nat, Step>, commitFails: bool)
    returns (r: Result<TaskRow, Reason>)
    requires db.Valid() && ti < |db.tasks| && db.tasks[ti].status == TaskStatus.PaymentPending
    requires |pending| > 0 && InRange(pending, |db.assignments|)
    requires forall a, b :: 0 <= a < b < |pending| ==> pending[a] < pending[b]
    modifies db
    ensures db.Valid() && TasksAdvance(old(db.tasks), db.tasks)
    ensures commitFails ==> r == Err(StorageError) && unchanged(db)
    ensures !commitFails ==>
      && Confirmed(Books(old(db.users), old(db.assignments), old(db.transactions)), old(db.tasks),
                   ti, pending, now, uuidFor, paymentFaults,
                   Books(db.users, db.assignments, db.transactions), db.tasks, r)
      && db.applications == old(db.applications) && db.reviews == old(db.reviews)
  {
    var task := db.tasks[ti].(status := TaskStatus.Completed);
    var tasks := db.tasks[ti := task];
    AdvanceOne(db.tasks, ti, TaskStatus.Completed);
    var share := task.budget / (|pending| as real);
    ghost var books := Books(db.users, db.assignments, db.transactions);
    var users, asgs, txs, successCount :=
      PayAll(db.users, db.assignments, db.transactions, pending, task, ti + 1, share, paymentFaults, uuidFor, now);
    if commitFails {
      return Err(StorageError);
    }
    SettledBacked(books, db.applications, pending, task, ti + 1, share, paymentFaults, uuidFor, now,
                  Books(users, asgs, txs));
    r := if successCount == 0 then Err(PaymentFailed) else Ok(task);
    assert Confirmed(books, db.tasks, ti, pending, now, uuidFor, paymentFaults, Books(users, asgs, txs), tasks, r);
    Commit(db, users, tasks, db.applications, asgs, txs);
  }

  /**
   * The commit of a transaction: the working copies of the tables become
   * the stored ones; the reviews are not touched.
   */
  method Commit(db: Database, users: seq<UserRow>, tasks: seq<TaskRow>, apps: seq<ApplicationRow>,
                asgs: seq<AssignmentRow>, txs: seq<TransactionRow>)
    requires OneApplicationPerWorker(apps) && AssignmentsBacked(apps, asgs) && TasksAdvance(db.tasks, tasks)
    modifies db
    ensures db.Valid() && TasksAdvance(old(db.tasks), db.tasks)
    ensures db.users == users && db.tasks == tasks && db.applications == apps
    ensures db.assignments == asgs && db.transactions == txs && db.reviews == old(db.reviews)
  {
    db.users, db.tasks, db.applications, db.assignments, db.transactions := users, tasks, apps, asgs, txs;
  }

  /** The payment loop keeps every assignment backed by its application. */
  lemma SettledBacked(b: Books, apps: seq<ApplicationRow>, pending: seq<nat>, task: TaskRow, taskKey: nat, share: real,
                      faults: map<nat, Step>, uuidFor: nat -> string, now: int, after: Books)
    requires InRange(pending, |b.assignments|) && AssignmentsBacked(apps, b.assignments)
    requires after == Settle(b, pending, task, taskKey, share, faults, uuidFor, now).0
    ensures AssignmentsBacked(apps, after.assignments)
  {
    SettleShape(b, pending, task, taskKey, share, faults, uuidFor, now);
    BackedAfterStatusChanges(apps, b.assignments, after.assignments);
  }

  /**
   * The payment loop over the assignments awaiting review, at the indices
   * `pending` in key order, with the rows as the query loaded them: the
   * tables after it and the number of fully paid assignments are those of
   * Settle.
   */
  method PayAll(users: seq<UserRow>, asgs: seq<AssignmentRow>, txs: seq<TransactionRow>, pending: seq<nat>,
                task: TaskRow, taskKey: nat, share: real, paymentFaults: map<nat, Step>, uuidFor: nat -> string, now: int)
    returns (users': seq<UserRow>, asgs': seq<AssignmentRow>, txs': seq<TransactionRow>, successCount: nat)
    requires InRange(pending, |asgs|)
    requires forall a, b :: 0 <= a < b < |pending| ==> pending[a] < pending[b]
    ensures Books(users', asgs', txs') == Settle(Books(users, asgs, txs), pending, task, taskKey, share, paymentFaults, uuidFor, now).0
    ensures successCount == Settle(Books(users, asgs, txs), pending, task, taskKey, share, paymentFaults, uuidFor, now).1
  {
    var loaded := seq(|pending|, k requires 0 <= k < |pending| => asgs[pending[k]]);
    ghost var books := Books(users, asgs, txs);
    users', asgs', txs', successCount := users, asgs, txs, 0;
    var k := 0;
    while k < |pending|
      invariant 0 <= k <= |pending|
      invariant Settle(books, pending[..k], task, taskKey, share, paymentFaults, uuidFor, now).0 == Books(users', asgs', txs')
      invariant Settle(books, pending[..k], task, taskKey, share, paymentFaults, uuidFor, now).1 == successCount
    {
      var i := pending[k];
      LoadedUnpaid(books, pending, k, task, taskKey, share, paymentFaults, uuidFor, now);
      SettleExtend(books, pending, k, task, taskKey, share, paymentFaults, uuidFor, now);
      var paid;
      users', asgs', txs', paid := PayAssignment(users', asgs', txs', i, loaded[k], task, taskKey, share,
                                                 FaultAt(paymentFaults, k), uuidFor(k), now);
      if paid {
        successCount := successCount + 1;
      }
      k := k + 1;
    }
    assert pending[..k] == pending;
  }

  /**
   * When the loop reaches position k, the assignment it pays is still as
   * the query loaded it: earlier positions name other assignments.
   */
  lemma LoadedUnpaid(books: Books, pending: seq<nat>, k: nat, task: TaskRow, taskKey: nat, share: real,
                     faults: map<nat, Step>, uuidFor: nat -> string, now: int)
    requires k < |pending| && InRange(pending, |books.assignments|)
    requires forall a, b :: 0 <= a < b < |pending| ==> pending[a] < pending[b]
    ensures InRange(pending[..k], |books.assignments|)
    ensures Settle(books, pending[..k], task, taskKey, share, faults, uuidFor, now).0.assignments[pending[k]]
            == books.assignments[pending[k]]
  {
    assert InRange(pending[..k], |books.assignments|);
    SettleShape(books, pending[..k], task, taskKey, share, faults, uuidFor, now);
    assert pending[k] !in pending[..k] by {
      forall a | 0 <= a < k ensures pending[..k][a] != pending[k] {
        assert pending[a] < pending[k];
      }
    }
  }

  /**
   * One turn of the payment loop for the assignment at index `i`, as the
   * query loaded it: mark it paid and save it, insert the worker's
   * earning, load the worker and save the credited balance. A failing step
   * skips the rest; `paid` says whether every step succeeded.
   */
  method PayAssignment(users: seq<UserRow>, asgs: seq<AssignmentRow>, txs: seq<TransactionRow>, i: nat,
                       loaded: AssignmentRow, task: TaskRow, taskKey: nat, share: real, fault: Option<Step>,
                       uuid: string, now: int)
    returns (users': seq<UserRow>, asgs': seq<AssignmentRow>, txs': seq<TransactionRow>, paid: bool)
    requires i < |asgs| && asgs[i] == loaded
    ensures (Books(users', asgs', txs'), paid) == PayOne(Books(users, asgs, txs), i, task, taskKey, share, fault, uuid, now)
  {
    users', asgs', txs', paid := users, asgs, txs, false;
    var assignment := new TaskAssignment.FromRow(loaded);
    assignment.MarkAsPaid(now);
    if fault == Some(SaveAssignment) {
      return;
    }
    asgs' := asgs[i := assignment.Row()];
    if fault == Some(InsertTransaction) {
      return;
    }
    var earning := EarningRow(task, taskKey, assignment.workerId, i + 1, share, uuid, now);
    txs' := txs + [earning];
    if fault == Some(LoadWorker) || !(1 <= assignment.workerId <= |users|) {
      return;
    }
    var worker := users[assignment.workerId - 1];
    worker := worker.(balance := worker.balance + earning.amount);
    if fault == Some(SaveUser) {
      return;
    }
    users' := users[assignment.workerId - 1 := worker];
    paid := true;
  }

  // ------------------------------------------------- lifecycle consequences

  /** A second confirmation of a confirmed task is refused: the first one left it completed. */
  lemma SecondConfirmRejected(tasks: seq<TaskRow>, asgs: seq<AssignmentRow>, asgs': seq<AssignmentRow>,
                              taskUuid: string, userId: Option<nat>)
    requires ConfirmCheck(tasks, asgs, taskUuid, userId).Ok?
    ensures var ti := ConfirmCheck(tasks, asgs, taskUuid, userId).value.0;
      ConfirmCheck(tasks[ti := tasks[ti].(status := TaskStatus.Completed)], asgs', taskUuid, userId)
        == Err(TaskNotPaymentPending)
  {
    var ti := ConfirmCheck(tasks, asgs, taskUuid, userId).value.0;
    var tasks' := tasks[ti := tasks[ti].(status := TaskStatus.Completed)];
    FirstIndexAgrees(tasks, tasks', WithUuid(taskUuid));
  }

  /** Once the task is handed in, nobody can hand it in again. */
  lemma HandInOnce(tasks: seq<TaskRow>, asgs: seq<AssignmentRow>, asgs': seq<AssignmentRow>,
                   taskUuid: string, userId: Option<nat>, other: Option<nat>)
    requires CompleteCheck(tasks, asgs, taskUuid, userId).Ok?
    ensures var ti := CompleteCheck(tasks, asgs, taskUuid, userId).value.0;
      CompleteCheck(tasks[ti := tasks[ti].(status := TaskStatus.PaymentPending)], asgs', taskUuid, other).Err?
  {
    var ti := CompleteCheck(tasks, asgs, taskUuid, userId).value.0;
    var tasks' := tasks[ti := tasks[ti].(status := TaskStatus.PaymentPending)];
    FirstIndexAgrees(tasks, tasks', WithUuid(taskUuid));
  }

  /** Once one application of a task is accepted, no application of that task can be accepted. */
  lemma AcceptOnce(tasks: seq<TaskRow>, apps: seq<ApplicationRow>, apps': seq<ApplicationRow>,
                   appUuid: string, userId: Option<nat>, otherUuid: string, other: Option<nat>)
    requires AcceptCheck(tasks, apps, appUuid, userId).Ok?
    ensures var ti := AcceptCheck(tasks, apps, appUuid, userId).value.1;
      var r := AcceptCheck(tasks[ti := tasks[ti].(status := TaskStatus.InProgress)], apps', otherUuid, other);
      r.Ok? ==> r.value.1 != ti
  {
  }

  /**
   * Every assignment's task exists and has left recruiting, and no task
   * has two assignments: the state every handler keeps.
   */
  ghost predicate Staffed(tasks: seq<TaskRow>, asgs: seq<AssignmentRow>)
  {
    && (forall k :: 0 <= k < |asgs| ==>
          1 <= asgs[k].taskId <= |tasks| && tasks[asgs[k].taskId - 1].status !in {PendingApproval, Recruiting})
    && (forall k, l :: 0 <= k < l < |asgs| ==> asgs[k].taskId != asgs[l].taskId)
  }

  /**
   * Creating, applying, handing in and confirming advance tasks along the
   * lifecycle and keep the assignments' links, and so keep the staffing.
   */
  lemma AdvanceKeepsStaffed(tasks: seq<TaskRow>, tasks': seq<TaskRow>, asgs: seq<AssignmentRow>, asgs': seq<AssignmentRow>)
    requires Staffed(tasks, asgs) && TasksAdvance(tasks, tasks') && LinksKept(asgs, asgs')
    ensures Staffed(tasks', asgs')
  {
    forall k | 0 <= k < |asgs'|
      ensures 1 <= asgs'[k].taskId <= |tasks'| && tasks'[asgs'[k].taskId - 1].status !in {PendingApproval, Recruiting}
    {
      assert SameLinks(asgs[k], asgs'[k]);
      var t := asgs[k].taskId - 1;
      if tasks'[t] != tasks[t] {
        EdgesMoveForward(tasks[t].status, tasks'[t].status);
      }
    }
    forall k, l | 0 <= k < l < |asgs'| ensures asgs'[k].taskId != asgs'[l].taskId {
      assert SameLinks(asgs[k], asgs'[k]) && SameLinks(asgs[l], asgs'[l]);
    }
  }

  /** Accepting adds the only assignment of a task that was recruiting, and the task leaves recruiting. */
  lemma AcceptKeepsStaffed(tasks: seq<TaskRow>, apps: seq<ApplicationRow>, asgs: seq<AssignmentRow>,
                           appUuid: string, userId: Option<nat>, a: AssignmentRow)
    requires Staffed(tasks, asgs) && AcceptCheck(tasks, apps, appUuid, userId).Ok?
    requires a.taskId == AcceptCheck(tasks, apps, appUuid, userId).value.1 + 1
    ensures var ti := a.taskId - 1;
      Staffed(tasks[ti := tasks[ti].(status := TaskStatus.InProgress)], asgs + [a])
  {
    var ti := a.taskId - 1;
    var asgs' := asgs + [a];
    forall k, l | 0 <= k < l < |asgs'| ensures asgs'[k].taskId != asgs'[l].taskId {
      if l == |asgs| {
        assert tasks[asgs[k].taskId - 1].status != Recruiting;
      }
    }
  }

  /**
   * In a staffed database a confirmation finds exactly one assignment
   * awaiting review, so its worker is paid the whole budget.
   */
  lemma ConfirmPaysOne(tasks: seq<TaskRow>, asgs: seq<AssignmentRow>, taskUuid: string, userId: Option<nat>)
    requires Staffed(tasks, asgs) && ConfirmCheck(tasks, asgs, taskUuid, userId).Ok?
    ensures var (ti, pending) := ConfirmCheck(tasks, asgs, taskUuid, userId).value;
      |pending| == 1 && tasks[ti].budget / (|pending| as real) == tasks[ti].budget
  {
    var (ti, pending) := ConfirmCheck(tasks, asgs, taskUuid, userId).value;
    OneAssignmentOfTask(asgs, pending, ti + 1);
  }

  /** Strictly increasing rows of one task, in a table where no two rows share a task, are at most one. */
  lemma {:induction false} OneAssignmentOfTask(asgs: seq<AssignmentRow>, rows: seq<nat>, taskId: nat)
    requires forall k, l :: 0 <= k < l < |asgs| ==> asgs[k].taskId != asgs[l].taskId
    requires InRange(rows, |asgs|) && forall a, b :: 0 <= a < b < |rows| ==> rows[a] < rows[b]
    requires forall k :: 0 <= k < |rows| ==> asgs[rows[k]].taskId == taskId
    ensures |rows| <= 1
  {
    if |rows| > 1 {
      var first, second := RowAt(rows, 0), RowAt(rows, 1);
      assert false;
    }
  }

  /** The row at position `i` of `rows`, or row 0 past its end. */
  function RowAt(rows: seq<nat>, i: nat): nat
  {
    if i < |rows| then rows[i] else 0
  }

  /**
   * A task of headcount one is stranded by its first application: the
   * application count reaches the headcount, the task moves to in progress
   * with nobody assigned, and from then on no application of it can be
   * accepted and nobody can hand it in.
   */
  lemma FirstApplicationStrands(tasks: seq<TaskRow>, apps: seq<ApplicationRow>, asgs: seq<AssignmentRow>,
                                ti: nat, app: ApplicationRow)
    requires Staffed(tasks, asgs) && ti < |tasks| && tasks[ti].status == Recruiting && tasks[ti].headcount <= 1
    requires app.taskId == ti + 1
    ensures var tasks' := AfterApplyCount(tasks, apps + [app], ti, true);
      && tasks'[ti].status == TaskStatus.InProgress
      && (forall appUuid, u :: AcceptCheck(tasks', apps + [app], appUuid, u).Ok? ==>
            AcceptCheck(tasks', apps + [app], appUuid, u).value.1 != ti)
      && (forall u :: CompleteCheck(tasks', asgs, tasks[ti].uuid, u).Ok? ==>
            CompleteCheck(tasks', asgs, tasks[ti].uuid, u).value.0 != ti)
  {
    var apps' := apps + [app];
    CountSnoc(apps, app, ApplicationFor(ti + 1));
    var tasks' := AfterApplyCount(tasks, apps', ti, true);
    assert tasks'[ti].status == TaskStatus.InProgress;
    forall u | CompleteCheck(tasks', asgs, tasks[ti].uuid, u).Ok?
      ensures CompleteCheck(tasks', asgs, tasks[ti].uuid, u).value.0 != ti
    {
      var (tj, ai) := CompleteCheck(tasks', asgs, tasks[ti].uuid, u).value;
      assert asgs[ai].taskId == tj + 1;
      assert tasks[asgs[ai].taskId - 1].status != Recruiting;
    }
  }
}
