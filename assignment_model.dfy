/** The task_assignments table and the TaskAssignment struct's status transitions. */
module AssignmentModel {
  import opened Wrappers

  datatype WorkerStatus = Working | Submitted | Completed | Quit

  datatype EmployerStatus = InProgress | ReviewPending | PaymentPending | Done | Disputed
  {
    function Name(): string
    {
      match this
      case InProgress => "in_progress"
      case ReviewPending => "review_pending"
      case PaymentPending => "payment_pending"
      case Done => "completed"
      case Disputed => "disputed"
    }
  }

  /** A stored task_assignments row; its primary key is its position plus one. */
  datatype AssignmentRow = AssignmentRow(
    uuid: string,
    applicationId: Option<nat>,
    taskId: nat,
    workerId: nat,
    assignedAt: int,
    workerStatus: WorkerStatus,
    employerStatus: EmployerStatus,
    completedAt: Option<int>)

  /** The row after the worker hands in the work. */
  function WorkSubmitted(a: AssignmentRow): (r: AssignmentRow)
    ensures r.workerStatus == Submitted && r.employerStatus == ReviewPending
    ensures r.(workerStatus := a.workerStatus, employerStatus := a.employerStatus) == a
  {
    a.(workerStatus := Submitted, employerStatus := ReviewPending)
  }

  /** The row after the assignment is paid at `now`. */
  function Paid(a: AssignmentRow, now: int): (r: AssignmentRow)
    ensures r.workerStatus == Completed && r.employerStatus == Done && r.completedAt == Some(now)
    ensures r.(workerStatus := a.workerStatus, employerStatus := a.employerStatus, completedAt := a.completedAt) == a
  {
    a.(workerStatus := Completed, employerStatus := Done, completedAt := Some(now))
  }

  /**
   * The transitions look at no earlier status: handing in or paying a row
   * a second time (at the same time) changes nothing more.
   */
  lemma TransitionsIdempotent(a: AssignmentRow, now: int)
    ensures WorkSubmitted(WorkSubmitted(a)) == WorkSubmitted(a)
    ensures Paid(Paid(a, now), now) == Paid(a, now)
  {
  }

  /** The in-memory TaskAssignment a handler creates or loads, changes and saves back. */
  class TaskAssignment {
    var uuid: string
    var applicationId: Option<nat>
    var taskId: nat
    var workerId: nat
    var assignedAt: int
    var workerStatus: WorkerStatus
    var employerStatus: EmployerStatus
    var completedAt: Option<int>

    function Row(): AssignmentRow
      reads this
    {
      AssignmentRow(uuid, applicationId, taskId, workerId, assignedAt, workerStatus, employerStatus, completedAt)
    }

    /** Loads a stored row. */
    constructor FromRow(row: AssignmentRow)
      ensures Row() == row
    {
      uuid, applicationId, taskId, workerId := row.uuid, row.applicationId, row.taskId, row.workerId;
      assignedAt, workerStatus, employerStatus, completedAt := row.assignedAt, row.workerStatus, row.employerStatus, row.completedAt;
    }

    /**
     * A new assignment followed by its insert hook: a status left empty
     * (None) becomes working, respectively in_progress.
     */
    constructor Create(uuid: string, applicationId: Option<nat>, taskId: nat, workerId: nat, assignedAt: int,
                       workerStatus: Option<WorkerStatus>, employerStatus: Option<EmployerStatus>)
      ensures Row() == AssignmentRow(uuid, applicationId, taskId, workerId, assignedAt,
                                     workerStatus.GetOr(Working), employerStatus.GetOr(InProgress), None)
    {
      this.uuid, this.applicationId, this.taskId, this.workerId := uuid, applicationId, taskId, workerId;
      this.assignedAt, this.completedAt := assignedAt, None;
      this.workerStatus := if workerStatus.None? then Working else workerStatus.value;
      this.employerStatus := if employerStatus.None? then InProgress else employerStatus.value;
    }

    /** The worker hands in the work: submitted, and review pending for the employer. */
    method SubmitWork()
      modifies this
      ensures Row() == WorkSubmitted(old(Row()))
    {
      workerStatus := Submitted;
      employerStatus := ReviewPending;
    }

    /** The employer approves: payment pending on the employer side only. */
    method ApproveWork()
      modifies this
      ensures Row() == old(Row()).(employerStatus := PaymentPending)
    {
      employerStatus := PaymentPending;
    }

    /** Both sides completed, stamped with the completion time. */
    method MarkAsPaid(now: int)
      modifies this
      ensures Row() == Paid(old(Row()), now)
    {
      workerStatus := Completed;
      employerStatus := Done;
      completedAt := Some(now);
    }

    /** The employer disputes the work. */
    method ReportDispute()
      modifies this
      ensures Row() == old(Row()).(employerStatus := Disputed)
    {
      employerStatus := Disputed;
    }

    /** The worker quits. */
    method QuitTask()
      modifies this
      ensures Row() == old(Row()).(workerStatus := Quit)
    {
      workerStatus := Quit;
    }
  }
}
