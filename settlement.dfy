/**
 * The payment loop of task confirmation: every assignment awaiting review
 * is marked paid, gets a completed earning of its share of the budget and
 * has its worker credited, each step of each assignment able to fail on
 * its own while the loop carries on with the next one.
 */
module Settlement {
  import opened Wrappers
  import opened TaskModel
  import opened AssignmentModel
  import opened TransactionModel
  import opened UserModel
  import opened Db
  import opened Ledger

  /** The three tables the payment loop writes. */
  datatype Books = Books(users: seq<UserRow>, assignments: seq<AssignmentRow>, transactions: seq<TransactionRow>)

  /** Every index of `pending` addresses a row of a table of `n` rows. */
  predicate InRange(pending: seq<nat>, n: nat)
  {
    forall k :: 0 <= k < |pending| ==> pending[k] < n
  }

  /** The worker can be loaded: its row exists (a set deleted_at does not hide a row from this lookup). */
  predicate WorkerOnFile(users: seq<UserRow>, workerId: nat)
  {
    1 <= workerId <= |users|
  }

  /** A failure of one of the four writes of a payment. */
  predicate Blocks(fault: Option<Step>)
  {
    fault.Some? && fault.value in {SaveAssignment, InsertTransaction, LoadWorker, SaveUser}
  }

  /** The user table with `amount` added to the balance of the user at index `w`. */
  function Credit(users: seq<UserRow>, w: nat, amount: real): (r: seq<UserRow>)
    requires w < |users|
    ensures |r| == |users|
    ensures r[w].balance == users[w].balance + amount
    ensures forall v :: 0 <= v < |users| ==> r[v] == users[v].(balance := r[v].balance)
    ensures forall v :: 0 <= v < |users| && v != w ==> r[v] == users[v]
  {
    users[w := users[w].(balance := users[w].balance + amount)]
  }

  /** The earning recorded for the worker of assignment `assignmentKey`. */
  function EarningRow(task: TaskRow, taskKey: nat, workerId: nat, assignmentKey: nat, share: real, uuid: string, now: int): (t: TransactionRow)
    ensures t.userId == workerId && t.amount == share && MovesBalance(t)
    ensures t.kind == Earning && t.status == TxCompleted && t.completedAt == Some(now)
    ensures t.taskAssignmentId == Some(assignmentKey) && t.referenceId == Some(taskKey)
    ensures t.referenceType == Some(TaskReference) && t.referenceUuid == Some(task.uuid)
    ensures t.currency != ""
  {
    TransactionRow(uuid, workerId, Some(assignmentKey), Earning, share, StoredCurrency(task.currency),
      TxCompleted, "任务完成报酬", Some("完成任务：" + task.title), Some(taskKey), Some(TaskReference),
      Some(task.uuid), now, Some(now))
  }

  /**
   * One iteration of the loop for the assignment at index `i`: save it as
   * paid, insert the earning, load the worker, save the credited balance.
   * A failing step skips the rest of the iteration but keeps what the
   * earlier steps wrote. The flag says whether every step succeeded.
   */
  function PayOne(b: Books, i: nat, task: TaskRow, taskKey: nat, share: real, fault: Option<Step>, uuid: string, now: int): (r: (Books, bool))
    requires i < |b.assignments|
    ensures |r.0.users| == |b.users| && |r.0.assignments| == |b.assignments|
    ensures r.1 <==> !Blocks(fault) && WorkerOnFile(b.users, b.assignments[i].workerId)
  {
    if fault == Some(SaveAssignment) then (b, false)
    else
      var a := Paid(b.assignments[i], now);
      var asgs := b.assignments[i := a];
      if fault == Some(InsertTransaction) then (b.(assignments := asgs), false)
      else
        var txs := b.transactions + [EarningRow(task, taskKey, a.workerId, i + 1, share, uuid, now)];
        if fault == Some(LoadWorker) || !WorkerOnFile(b.users, a.workerId) || fault == Some(SaveUser) then
          (Books(b.users, asgs, txs), false)
        else
          (Paying(b, i, task, taskKey, share, uuid, now), true)
  }

  /** The books after a fully successful iteration for the assignment at index `i`. */
  function Paying(b: Books, i: nat, task: TaskRow, taskKey: nat, share: real, uuid: string, now: int): (r: Books)
    requires i < |b.assignments| && WorkerOnFile(b.users, b.assignments[i].workerId)
    ensures r.users == Credit(b.users, b.assignments[i].workerId - 1, share)
    ensures r.assignments == b.assignments[i := Paid(b.assignments[i], now)]
    ensures r.transactions == b.transactions + [EarningRow(task, taskKey, b.assignments[i].workerId, i + 1, share, uuid, now)]
  {
    var w := b.assignments[i].workerId;
    Books(Credit(b.users, w - 1, share), b.assignments[i := Paid(b.assignments[i], now)],
      b.transactions + [EarningRow(task, taskKey, w, i + 1, share, uuid, now)])
  }

  /**
   * What one iteration may change: the links of every assignment and every
   * user column but the balance stay, only assignment `i` may become paid,
   * and at most the one earning of its worker is appended. A failed save
   * of the assignment changes nothing; a fully successful iteration does
   * all three writes.
   */
  lemma PayOneEffect(b: Books, i: nat, task: TaskRow, taskKey: nat, share: real, fault: Option<Step>, uuid: string, now: int)
    requires i < |b.assignments|
    ensures var r := PayOne(b, i, task, taskKey, share, fault, uuid, now);
      && LinksKept(b.assignments, r.0.assignments)
      && (forall v :: 0 <= v < |b.users| ==> r.0.users[v] == b.users[v].(balance := r.0.users[v].balance))
      && (forall j :: 0 <= j < |b.assignments| && j != i ==> r.0.assignments[j] == b.assignments[j])
      && (r.0.assignments[i] == b.assignments[i] || r.0.assignments[i] == Paid(b.assignments[i], now))
      && (r.0.transactions == b.transactions ||
          r.0.transactions == b.transactions + [EarningRow(task, taskKey, b.assignments[i].workerId, i + 1, share, uuid, now)])
      && (fault == Some(SaveAssignment) ==> r.0 == b)
  {
  }

  /** A fully successful iteration does all three writes. */
  lemma PayOneSuccess(b: Books, i: nat, task: TaskRow, taskKey: nat, share: real, fault: Option<Step>, uuid: string, now: int)
    requires i < |b.assignments| && !Blocks(fault) && WorkerOnFile(b.users, b.assignments[i].workerId)
    ensures PayOne(b, i, task, taskKey, share, fault, uuid, now) == (Paying(b, i, task, taskKey, share, uuid, now), true)
  {
  }

  /** The fault, if any, of the k-th pending assignment. */
  function FaultAt(faults: map<nat, Step>, k: nat): (f: Option<Step>)
    ensures f.Some? <==> k in faults
    ensures f.Some? ==> f.value == faults[k]
  {
    if k in faults then Some(faults[k]) else None
  }

  /**
   * The loop run over the pending assignment indices in order: the books
   * afterwards and the number of assignments whose every step succeeded.
   */
  function Settle(b: Books, pending: seq<nat>, task: TaskRow, taskKey: nat, share: real,
                  faults: map<nat, Step>, uuidFor: nat -> string, now: int): (r: (Books, nat))
    requires InRange(pending, |b.assignments|)
    ensures |r.0.users| == |b.users| && |r.0.assignments| == |b.assignments|
    ensures r.1 <= |pending|
    decreases |pending|
  {
    if pending == [] then (b, 0)
    else
      var k := |pending| - 1;
      var before := Settle(b, pending[..k], task, taskKey, share, faults, uuidFor, now);
      var after := PayOne(before.0, pending[k], task, taskKey, share, FaultAt(faults, k), uuidFor(k), now);
      (after.0, if after.1 then before.1 + 1 else before.1)
  }

  /** Running the loop one position further pays the assignment at that position. */
  lemma SettleExtend(b: Books, pending: seq<nat>, k: nat, task: TaskRow, taskKey: nat, share: real,
                     faults: map<nat, Step>, uuidFor: nat -> string, now: int)
    requires k < |pending| && InRange(pending, |b.assignments|)
    ensures InRange(pending[..k], |b.assignments|) && InRange(pending[..k + 1], |b.assignments|)
    ensures var before := Settle(b, pending[..k], task, taskKey, share, faults, uuidFor, now);
      var step := PayOne(before.0, pending[k], task, taskKey, share, FaultAt(faults, k), uuidFor(k), now);
      Settle(b, pending[..k + 1], task, taskKey, share, faults, uuidFor, now)
        == (step.0, if step.1 then before.1 + 1 else before.1)
  {
    assert InRange(pending[..k], |b.assignments|);
    assert InRange(pending[..k + 1], |b.assignments|);
    assert pending[..k + 1][..k] == pending[..k];
  }

  /** An earning of `share` for the task with key `taskKey`. */
  predicate EarningFor(t: TransactionRow, taskKey: nat, share: real)
  {
    t.kind == Earning && t.status == TxCompleted && t.amount == share && t.referenceId == Some(taskKey)
  }

  /**
   * Whatever fails, the loop keeps every assignment's links and every user
   * column but the balance, touches only pending assignments, and only
   * appends earnings of one share for this task.
   */
  lemma {:induction false} SettleShape(b: Books, pending: seq<nat>, task: TaskRow, taskKey: nat, share: real,
                                       faults: map<nat, Step>, uuidFor: nat -> string, now: int)
    requires InRange(pending, |b.assignments|)
    ensures var r := Settle(b, pending, task, taskKey, share, faults, uuidFor, now);
      && LinksKept(b.assignments, r.0.assignments)
      && (forall v :: 0 <= v < |b.users| ==> r.0.users[v] == b.users[v].(balance := r.0.users[v].balance))
      && (forall j :: 0 <= j < |b.assignments| && j !in pending ==> r.0.assignments[j] == b.assignments[j])
      && b.transactions <= r.0.transactions
      && (forall k :: |b.transactions| <= k < |r.0.transactions| ==> EarningFor(r.0.transactions[k], taskKey, share))
    decreases |pending|
  {
    if pending != [] {
      var k := |pending| - 1;
      var prefix := pending[..k];
      assert InRange(prefix, |b.assignments|);
      SettleShape(b, prefix, task, taskKey, share, faults, uuidFor, now);
      var before := Settle(b, prefix, task, taskKey, share, faults, uuidFor, now);
      PayOneEffect(before.0, pending[k], task, taskKey, share, FaultAt(faults, k), uuidFor(k), now);
      var r := Settle(b, pending, task, taskKey, share, faults, uuidFor, now);
      forall j | 0 <= j < |b.assignments| && j !in pending
        ensures r.0.assignments[j] == b.assignments[j]
      {
        assert j !in prefix && j != pending[k];
      }
    }
  }

  /** The earnings a fault-free run appends, in loop order. */
  function Payments(asgs: seq<AssignmentRow>, pending: seq<nat>, task: TaskRow, taskKey: nat, share: real,
                    uuidFor: nat -> string, now: int): (r: seq<TransactionRow>)
    requires InRange(pending, |asgs|)
    ensures |r| == |pending|
    decreases |pending|
  {
    if pending == [] then []
    else
      var k := |pending| - 1;
      Payments(asgs, pending[..k], task, taskKey, share, uuidFor, now)
        + [EarningRow(task, taskKey, asgs[pending[k]].workerId, pending[k] + 1, share, uuidFor(k), now)]
  }

  /** How many of the pending assignments belong to the user with key `key`. */
  function PayeeCount(asgs: seq<AssignmentRow>, pending: seq<nat>, key: nat): (n: nat)
    requires InRange(pending, |asgs|)
    ensures n <= |pending|
    decreases |pending|
  {
    if pending == [] then 0
    else
      var k := |pending| - 1;
      PayeeCount(asgs, pending[..k], key) + (if asgs[pending[k]].workerId == key then 1 else 0)
  }

  /** What the pending assignments of the user with key `key` earn at `share` each. */
  function PayeeTotal(asgs: seq<AssignmentRow>, pending: seq<nat>, key: nat, share: real): real
    requires InRange(pending, |asgs|)
    decreases |pending|
  {
    if pending == [] then 0.0
    else
      var k := |pending| - 1;
      PayeeTotal(asgs, pending[..k], key, share) + (if asgs[pending[k]].workerId == key then share else 0.0)
  }

  /** The earnings of a user are the share times the number of their pending assignments. */
  lemma {:induction false} PayeeTotalIsProduct(asgs: seq<AssignmentRow>, pending: seq<nat>, key: nat, share: real)
    requires InRange(pending, |asgs|)
    ensures PayeeTotal(asgs, pending, key, share) == share * (PayeeCount(asgs, pending, key) as real)
    decreases |pending|
  {
    if pending != [] {
      var k := |pending| - 1;
      assert InRange(pending[..k], |asgs|);
      PayeeTotalIsProduct(asgs, pending[..k], key, share);
      var c := PayeeCount(asgs, pending[..k], key);
      assert share * ((c + 1) as real) == share * (c as real) + share;
    }
  }

  /** Every pending assignment's worker is on file. */
  predicate WorkersOnFile(b: Books, pending: seq<nat>)
    requires InRange(pending, |b.assignments|)
  {
    forall k :: 0 <= k < |pending| ==> WorkerOnFile(b.users, b.assignments[pending[k]].workerId)
  }

  /**
   * The last iteration of a fault-free run succeeds: the worker it pays is
   * still on file after the earlier iterations.
   */
  lemma FaultFreeStep(b: Books, pending: seq<nat>, task: TaskRow, taskKey: nat, share: real,
                      uuidFor: nat -> string, now: int)
    requires pending != [] && InRange(pending, |b.assignments|) && WorkersOnFile(b, pending)
    ensures InRange(pending[..|pending| - 1], |b.assignments|)
    ensures var k := |pending| - 1;
      var before := Settle(b, pending[..k], task, taskKey, share, map[], uuidFor, now);
      && before.0.assignments[pending[k]].workerId == b.assignments[pending[k]].workerId
      && WorkerOnFile(before.0.users, b.assignments[pending[k]].workerId)
      && Settle(b, pending, task, taskKey, share, map[], uuidFor, now).0
           == Paying(before.0, pending[k], task, taskKey, share, uuidFor(k), now)
      && Settle(b, pending, task, taskKey, share, map[], uuidFor, now).1 == before.1 + 1
  {
    var k := |pending| - 1;
    assert InRange(pending[..k], |b.assignments|);
    var before := Settle(b, pending[..k], task, taskKey, share, map[], uuidFor, now);
    var i := pending[k];
    WorkerStillOnFile(b, pending[..k], i, task, taskKey, share, uuidFor, now);
    var r := Settle(b, pending, task, taskKey, share, map[], uuidFor, now);
    var p := PayOne(before.0, i, task, taskKey, share, FaultAt(map[], k), uuidFor(k), now);
    assert FaultAt(map[], k) == None;
    assert p.1;
    assert r.1 == before.1 + 1;
    assert r.0 == p.0;
    PayOneSuccess(before.0, i, task, taskKey, share, None, uuidFor(k), now);
  }

  /** The earlier iterations keep the worker of assignment `i` and keep it on file. */
  lemma WorkerStillOnFile(b: Books, prefix: seq<nat>, i: nat, task: TaskRow, taskKey: nat, share: real,
                          uuidFor: nat -> string, now: int)
    requires InRange(prefix, |b.assignments|) && i < |b.assignments|
    requires WorkerOnFile(b.users, b.assignments[i].workerId)
    ensures var before := Settle(b, prefix, task, taskKey, share, map[], uuidFor, now);
      && before.0.assignments[i].workerId == b.assignments[i].workerId
      && WorkerOnFile(before.0.users, b.assignments[i].workerId)
  {
    SettleShape(b, prefix, task, taskKey, share, map[], uuidFor, now);
    var before := Settle(b, prefix, task, taskKey, share, map[], uuidFor, now);
    var w := b.assignments[i].workerId;
    assert SameLinks(b.assignments[i], before.0.assignments[i]);
    assert before.0.users[w - 1] == b.users[w - 1].(balance := before.0.users[w - 1].balance);
  }

  /**
   * Without faults and with every worker on file, every pending assignment
   * is paid and its earning is appended, in loop order.
   */
  lemma {:induction false} SettleWithoutFaultsPays(b: Books, pending: seq<nat>, task: TaskRow, taskKey: nat, share: real,
                                                   uuidFor: nat -> string, now: int)
    requires InRange(pending, |b.assignments|) && WorkersOnFile(b, pending)
    ensures var r := Settle(b, pending, task, taskKey, share, map[], uuidFor, now);
      && r.1 == |pending|
      && r.0.transactions == b.transactions + Payments(b.assignments, pending, task, taskKey, share, uuidFor, now)
    decreases |pending|
  {
    if pending != [] {
      var k := |pending| - 1;
      FaultFreeStep(b, pending, task, taskKey, share, uuidFor, now);
      SettleWithoutFaultsPays(b, pending[..k], task, taskKey, share, uuidFor, now);
    }
  }

  /** Without faults, exactly the pending assignments end up paid. */
  lemma {:induction false} SettleWithoutFaultsMarks(b: Books, pending: seq<nat>, task: TaskRow, taskKey: nat, share: real,
                                                    uuidFor: nat -> string, now: int)
    requires InRange(pending, |b.assignments|) && WorkersOnFile(b, pending)
    ensures var r := Settle(b, pending, task, taskKey, share, map[], uuidFor, now);
      forall j :: 0 <= j < |b.assignments| ==>
        r.0.assignments[j] == if j in pending then Paid(b.assignments[j], now) else b.assignments[j]
    decreases |pending|
  {
    if pending != [] {
      var k := |pending| - 1;
      var prefix := pending[..k];
      FaultFreeStep(b, pending, task, taskKey, share, uuidFor, now);
      SettleWithoutFaultsMarks(b, prefix, task, taskKey, share, uuidFor, now);
      var before := Settle(b, prefix, task, taskKey, share, map[], uuidFor, now);
      var r := Settle(b, pending, task, taskKey, share, map[], uuidFor, now);
      var i := pending[k];
      assert pending == prefix + [i];
      assert r.0.assignments == before.0.assignments[i := Paid(before.0.assignments[i], now)];
      forall j | 0 <= j < |b.assignments|
        ensures r.0.assignments[j] == if j in pending then Paid(b.assignments[j], now) else b.assignments[j]
      {
        assert j in pending <==> j in prefix || j == i;
        if j == i {
          assert Paid(before.0.assignments[i], now) == Paid(b.assignments[i], now);
        }
      }
    }
  }

  /** Without faults, each user is credited one share per pending assignment of theirs. */
  lemma {:induction false} SettleWithoutFaultsCredits(b: Books, pending: seq<nat>, task: TaskRow, taskKey: nat, share: real,
                                                      uuidFor: nat -> string, now: int)
    requires InRange(pending, |b.assignments|) && WorkersOnFile(b, pending)
    ensures var r := Settle(b, pending, task, taskKey, share, map[], uuidFor, now);
      forall v :: 0 <= v < |b.users| ==>
        r.0.users[v].balance == b.users[v].balance + PayeeTotal(b.assignments, pending, v + 1, share)
    decreases |pending|
  {
    if pending != [] {
      var k := |pending| - 1;
      FaultFreeStep(b, pending, task, taskKey, share, uuidFor, now);
      SettleWithoutFaultsCredits(b, pending[..k], task, taskKey, share, uuidFor, now);
    }
  }

  /** What a user's balance holds beyond the rows the handlers applied to it. */
  function Drift(b: Books, key: nat): real
    requires 1 <= key <= |b.users|
  {
    b.users[key - 1].balance - Total(b.transactions, Applied(key))
  }

  /**
   * A payment whose worker is on file and whose worker writes do not fail
   * keeps every user's balance in step with the applied rows: an earning
   * is inserted exactly when the balance is credited with it.
   */
  lemma PayOneKeepsDrift(b: Books, i: nat, task: TaskRow, taskKey: nat, share: real, fault: Option<Step>, uuid: string, now: int)
    requires i < |b.assignments| && WorkerOnFile(b.users, b.assignments[i].workerId)
    requires fault != Some(LoadWorker) && fault != Some(SaveUser)
    ensures var r := PayOne(b, i, task, taskKey, share, fault, uuid, now).0;
      forall key :: 1 <= key <= |b.users| ==> Drift(r, key) == Drift(b, key)
  {
    var r := PayOne(b, i, task, taskKey, share, fault, uuid, now);
    PayOneEffect(b, i, task, taskKey, share, fault, uuid, now);
    var t := EarningRow(task, taskKey, b.assignments[i].workerId, i + 1, share, uuid, now);
    forall key | 1 <= key <= |b.users|
      ensures Drift(r.0, key) == Drift(b, key)
    {
      if r.1 {
        PayOneSuccess(b, i, task, taskKey, share, fault, uuid, now);
        TotalSnoc(b.transactions, t, Applied(key));
      }
    }
  }

  /**
   * Unless a worker load or balance save fails (or a worker is missing),
   * the whole loop keeps every user's balance in step with the applied rows.
   */
  lemma {:induction false} SettleKeepsDrift(b: Books, pending: seq<nat>, task: TaskRow, taskKey: nat, share: real,
                                            faults: map<nat, Step>, uuidFor: nat -> string, now: int)
    requires InRange(pending, |b.assignments|) && WorkersOnFile(b, pending)
    requires forall k :: k in faults ==> faults[k] != LoadWorker && faults[k] != SaveUser
    ensures var r := Settle(b, pending, task, taskKey, share, faults, uuidFor, now).0;
      forall key :: 1 <= key <= |b.users| ==> Drift(r, key) == Drift(b, key)
    decreases |pending|
  {
    if pending != [] {
      var k := |pending| - 1;
      var prefix := pending[..k];
      assert InRange(prefix, |b.assignments|);
      SettleKeepsDrift(b, prefix, task, taskKey, share, faults, uuidFor, now);
      SettleShape(b, prefix, task, taskKey, share, faults, uuidFor, now);
      var before := Settle(b, prefix, task, taskKey, share, faults, uuidFor, now);
      var i := pending[k];
      assert SameLinks(b.assignments[i], before.0.assignments[i]);
      var w := b.assignments[i].workerId;
      assert before.0.users[w - 1] == b.users[w - 1].(balance := before.0.users[w - 1].balance);
      PayOneKeepsDrift(before.0, i, task, taskKey, share, FaultAt(faults, k), uuidFor(k), now);
    }
  }

  /**
   * A failed balance save leaves a completed earning that was never
   * credited: the worker's balance falls behind the applied rows by the
   * share, and the failed payment is not counted.
   */
  lemma SaveUserFaultLosesCredit(b: Books, i: nat, task: TaskRow, taskKey: nat, share: real, uuidFor: nat -> string, now: int)
    requires i < |b.assignments| && WorkerOnFile(b.users, b.assignments[i].workerId)
    ensures var r := Settle(b, [i], task, taskKey, share, map[0 := SaveUser], uuidFor, now);
      && r.1 == 0
      && Drift(r.0, b.assignments[i].workerId) == Drift(b, b.assignments[i].workerId) - share
  {
    var t := EarningRow(task, taskKey, b.assignments[i].workerId, i + 1, share, uuidFor(0), now);
    assert [i][..0] == [];
    TotalSnoc(b.transactions, t, Applied(b.assignments[i].workerId));
  }
}
