/**
 * The relational store the handlers read and write. Every table is a
 * sequence of rows in primary-key order: row i has key i + 1, as the
 * auto-increment ids give them.
 */
module Db {
  import opened Wrappers
  import opened TaskModel
  import opened ApplicationModel
  import opened AssignmentModel
  import opened TransactionModel
  import opened UserModel
  import opened ReviewModel

  /** The writes a handler performs; a handler's `fails` names those the database rejects. */
  datatype Step =
    | InsertTask
    | InsertApplication
    | SaveApplication
    | InsertAssignment
    | SaveAssignment
    | SaveTask
    | InsertTransaction
    | LoadWorker
    | SaveUser
    | InsertReview
    | BeginTx
    | CommitTx
    | QueryUser   // a user lookup that fails with an error other than not-found

  /** The row with primary key `key`, if there is one. */
  function ByKey<T>(table: seq<T>, key: nat): (r: Option<T>)
    ensures r.Some? <==> 1 <= key <= |table|
    ensures r.Some? ==> r.value == table[key - 1]
  {
    if 1 <= key <= |table| then Some(table[key - 1]) else None
  }

  /** A worker has at most one application per task, whatever its status. */
  ghost predicate OneApplicationPerWorker(apps: seq<ApplicationRow>)
  {
    forall i, j :: 0 <= i < j < |apps| ==>
      apps[i].taskId != apps[j].taskId || apps[i].workerId != apps[j].workerId
  }

  /**
   * Every assignment comes from its own accepted application for the same
   * task and worker (task_application_id is a unique column).
   */
  ghost predicate AssignmentsBacked(apps: seq<ApplicationRow>, asgs: seq<AssignmentRow>)
  {
    (forall k :: 0 <= k < |asgs| ==> Backed(apps, asgs[k])) &&
    (forall k, l :: 0 <= k < l < |asgs| ==> asgs[k].applicationId != asgs[l].applicationId)
  }

  ghost predicate Backed(apps: seq<ApplicationRow>, a: AssignmentRow)
  {
    a.applicationId.Some? && 1 <= a.applicationId.value <= |apps| &&
    var app := apps[a.applicationId.value - 1];
    app.status == Accepted && app.taskId == a.taskId && app.workerId == a.workerId
  }

  /** The columns that tie an assignment to its application, task and worker. */
  ghost predicate SameLinks(a: AssignmentRow, b: AssignmentRow)
  {
    a.applicationId == b.applicationId && a.taskId == b.taskId && a.workerId == b.workerId
  }

  ghost predicate LinksKept(before: seq<AssignmentRow>, after: seq<AssignmentRow>)
  {
    |before| == |after| && forall k :: 0 <= k < |before| ==> SameLinks(before[k], after[k])
  }

  /** A task never has two assignments for the same worker. */
  lemma OneAssignmentPerWorker(apps: seq<ApplicationRow>, asgs: seq<AssignmentRow>)
    requires OneApplicationPerWorker(apps) && AssignmentsBacked(apps, asgs)
    ensures forall k, l :: 0 <= k < l < |asgs| ==>
      asgs[k].taskId != asgs[l].taskId || asgs[k].workerId != asgs[l].workerId
  {
    forall k, l | 0 <= k < l < |asgs|
      ensures asgs[k].taskId != asgs[l].taskId || asgs[k].workerId != asgs[l].workerId
    {
      assert Backed(apps, asgs[k]) && Backed(apps, asgs[l]);
      var i, j := asgs[k].applicationId.value - 1, asgs[l].applicationId.value - 1;
      if i < j {
        assert apps[i].taskId != apps[j].taskId || apps[i].workerId != apps[j].workerId;
      } else if j < i {
        assert apps[j].taskId != apps[i].taskId || apps[j].workerId != apps[i].workerId;
      }
    }
  }

  /** Status changes that keep every assignment's links keep the invariant. */
  lemma BackedAfterStatusChanges(apps: seq<ApplicationRow>, asgs: seq<AssignmentRow>, asgs': seq<AssignmentRow>)
    requires AssignmentsBacked(apps, asgs) && LinksKept(asgs, asgs')
    ensures AssignmentsBacked(apps, asgs')
  {
    forall k | 0 <= k < |asgs'|
      ensures Backed(apps, asgs'[k])
    {
      assert Backed(apps, asgs[k]) && SameLinks(asgs[k], asgs'[k]);
    }
  }

  /** An application for a (task, worker) pair not yet applied for keeps one application per pair. */
  lemma OneApplicationAfterNew(apps: seq<ApplicationRow>, app: ApplicationRow)
    requires OneApplicationPerWorker(apps)
    requires forall k :: 0 <= k < |apps| ==> apps[k].taskId != app.taskId || apps[k].workerId != app.workerId
    ensures OneApplicationPerWorker(apps + [app])
  {
    var apps' := apps + [app];
    forall i, j | 0 <= i < j < |apps'|
      ensures apps'[i].taskId != apps'[j].taskId || apps'[i].workerId != apps'[j].workerId
    {
      if j == |apps| {
        assert apps'[i] == apps[i];
      }
    }
  }

  /** A status change of one application keeps one application per pair. */
  lemma OneApplicationAfterStatusChange(apps: seq<ApplicationRow>, i: nat, s: ApplicationStatus)
    requires OneApplicationPerWorker(apps) && i < |apps|
    ensures OneApplicationPerWorker(apps[i := apps[i].(status := s)])
  {
    var apps' := apps[i := apps[i].(status := s)];
    forall k, l | 0 <= k < l < |apps'|
      ensures apps'[k].taskId != apps'[l].taskId || apps'[k].workerId != apps'[l].workerId
    {
      assert apps[k].taskId != apps[l].taskId || apps[k].workerId != apps[l].workerId;
    }
  }

  /** A new application leaves existing assignments backed. */
  lemma BackedAfterNewApplication(apps: seq<ApplicationRow>, asgs: seq<AssignmentRow>, app: ApplicationRow)
    requires AssignmentsBacked(apps, asgs)
    ensures AssignmentsBacked(apps + [app], asgs)
  {
    forall k | 0 <= k < |asgs|
      ensures Backed(apps + [app], asgs[k])
    {
      assert Backed(apps, asgs[k]);
      assert (apps + [app])[asgs[k].applicationId.value - 1] == apps[asgs[k].applicationId.value - 1];
    }
  }

  /**
   * Accepting a pending application and creating its assignment keeps
   * every assignment backed by its own accepted application.
   */
  lemma BackedAfterAccept(apps: seq<ApplicationRow>, asgs: seq<AssignmentRow>, i: nat, a: AssignmentRow)
    requires AssignmentsBacked(apps, asgs)
    requires i < |apps| && apps[i].status == Pending
    requires a.applicationId == Some(i + 1) && a.taskId == apps[i].taskId && a.workerId == apps[i].workerId
    ensures AssignmentsBacked(apps[i := apps[i].(status := Accepted)], asgs + [a])
  {
    var apps' := apps[i := apps[i].(status := Accepted)];
    var asgs' := asgs + [a];
    forall k | 0 <= k < |asgs'|
      ensures Backed(apps', asgs'[k])
    {
      if k < |asgs| {
        assert Backed(apps, asgs[k]);
        assert asgs[k].applicationId != Some(i + 1);
      }
    }
    forall k, l | 0 <= k < l < |asgs'|
      ensures asgs'[k].applicationId != asgs'[l].applicationId
    {
      if l == |asgs| {
        assert Backed(apps, asgs[k]);
      }
    }
  }

  /** The database: one field per table the handlers use. */
  class Database {
    var users: seq<UserRow>
    var tasks: seq<TaskRow>
    var applications: seq<ApplicationRow>
    var assignments: seq<AssignmentRow>
    var transactions: seq<TransactionRow>
    var reviews: seq<ReviewRow>

    /** One application per worker and task; every assignment backed by its own accepted application. */
    ghost predicate Valid()
      reads this
    {
      OneApplicationPerWorker(applications) && AssignmentsBacked(applications, assignments)
    }

    /** A database holding the given users and tasks and nothing else. */
    constructor (users: seq<UserRow>, tasks: seq<TaskRow>)
      ensures Valid()
      ensures this.users == users && this.tasks == tasks
      ensures applications == [] && assignments == [] && transactions == [] && reviews == []
    {
      this.users, this.tasks := users, tasks;
      applications, assignments, transactions, reviews := [], [], [], [];
    }
  }
}
