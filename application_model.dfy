/** The task_applications table and the TaskApplication struct's status setters. */
module ApplicationModel {
  import opened Wrappers
  import Uuids

  datatype ApplicationStatus = Pending | Accepted | Rejected | Withdrawn

  /** A stored task_applications row; its primary key is its position plus one. */
  datatype ApplicationRow = ApplicationRow(
    uuid: string,
    taskId: nat,
    workerId: nat,
    status: ApplicationStatus,
    coverLetter: Option<string>,
    appliedAt: int,
    updatedAt: int)

  /** The in-memory TaskApplication a handler loads, changes and saves back. */
  class TaskApplication {
    var uuid: string
    var taskId: nat
    var workerId: nat
    var status: ApplicationStatus
    var coverLetter: Option<string>
    var appliedAt: int
    var updatedAt: int

    /** The row this object is saved as. */
    function Row(): ApplicationRow
      reads this
    {
      ApplicationRow(uuid, taskId, workerId, status, coverLetter, appliedAt, updatedAt)
    }

    /** Loads a stored row. */
    constructor FromRow(row: ApplicationRow)
      ensures Row() == row
    {
      uuid, taskId, workerId, status := row.uuid, row.taskId, row.workerId, row.status;
      coverLetter, appliedAt, updatedAt := row.coverLetter, row.appliedAt, row.updatedAt;
    }

    /** Sets the status to accepted and changes nothing else. */
    method Accept()
      modifies this
      ensures Row() == old(Row()).(status := Accepted)
    {
      status := Accepted;
    }

    /** Sets the status to rejected and changes nothing else. */
    method Reject()
      modifies this
      ensures Row() == old(Row()).(status := Rejected)
    {
      status := Rejected;
    }

    /** Sets the status to withdrawn and changes nothing else. */
    method Withdraw()
      modifies this
      ensures Row() == old(Row()).(status := Withdrawn)
    {
      status := Withdrawn;
    }

    /** The insert hook: an application without a uuid gets the generated one. */
    method BeforeCreate(generated: string)
      modifies this
      ensures Row() == old(Row()).(uuid := Uuids.FillUuid(old(uuid), generated))
    {
      uuid := Uuids.FillUuid(uuid, generated);
    }
  }
}
