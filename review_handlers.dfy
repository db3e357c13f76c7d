/**
 * The review handlers: creating a review of a user after a completed
 * task, listing the reviews a user received, and the user's rating
 * summary with its five-bucket histogram.
 */
module ReviewHandlers {
  import opened Wrappers
  import opened Http
  import opened Seqs
  import TaskModel
  import AssignmentModel
  import opened UserModel
  import opened ReviewModel
  import opened Db

  // ----------------------------------------------------------- creating a review

  /** The review body; absent strings are "", an absent rating is 0. */
  datatype ReviewRequest = ReviewRequest(rating: int, comment: string, taskUuid: string, revieweeUuid: string)

  /** Binding: a rating in 1..5 and every string present. */
  predicate ReviewBinds(req: ReviewRequest)
  {
    1 <= req.rating <= 5 && req.comment != "" && req.taskUuid != "" && req.revieweeUuid != ""
  }

  function CompletedWithUuid(taskUuid: string): TaskModel.TaskRow -> bool
  {
    (t: TaskModel.TaskRow) => t.uuid == taskUuid && t.status == TaskModel.Completed
  }

  function UserWithUuid(userUuid: string): UserRow -> bool
  {
    (u: UserRow) => u.uuid == userUuid
  }

  /** An assignment on the task whose worker is one of the two users. */
  function Involving(taskKey: nat, reviewer: nat, reviewee: nat): AssignmentModel.AssignmentRow -> bool
  {
    (a: AssignmentModel.AssignmentRow) => a.taskId == taskKey && (a.workerId == reviewer || a.workerId == reviewee)
  }

  /** The review of `reviewee` by `reviewer` for the task, if one is stored. */
  predicate HasReviewed(reviews: seq<ReviewRow>, reviewer: nat, reviewee: nat, taskKey: nat)
  {
    exists k :: 0 <= k < |reviews| && reviews[k].reviewerId == reviewer && reviews[k].revieweeId == reviewee
                                  && reviews[k].taskId == taskKey
  }

  /**
   * Who may review whom: an employer may not review the task's employer,
   * anyone else may not review themself.
   */
  predicate RoleAllows(userType: string, reviewer: nat, reviewee: nat, task: TaskModel.TaskRow)
  {
    if userType == "employer" then reviewee != task.employerId else reviewee != reviewer
  }

  /** The rows a permitted review ties together: the task, the reviewee and the assignment. */
  datatype ReviewPlan = ReviewPlan(reviewer: nat, task: nat, reviewee: nat, assignment: nat)

  /**
   * The guards of a new review, in the handler's order: the caller, the
   * body, the first completed task with the uuid, the first user with
   * the reviewee's uuid, the role rule, the first assignment on the task
   * of the caller or the reviewee, and no earlier review of the same
   * reviewee by the same reviewer on the same task. The four refusals
   * that answer 400 share one reason.
   */
  function ReviewCheck(tasks: seq<TaskModel.TaskRow>, users: seq<UserRow>, asgs: seq<AssignmentModel.AssignmentRow>,
                       reviews: seq<ReviewRow>, userId: Option<nat>, userType: string, req: ReviewRequest)
    : (r: Result<ReviewPlan, Reason>)
    ensures r == Err(NotLoggedIn) <==> userId.None?
    ensures r == Err(InvalidRequest) <==> userId.Some? && !ReviewBinds(req)
    ensures r == Err(UserNotFound) ==> forall k :: 0 <= k < |users| ==> users[k].uuid != req.revieweeUuid
    ensures r.Ok? ==> var ReviewPlan(uid, ti, ri, ai) := r.value;
      && userId == Some(uid) && ReviewBinds(req)
      && ti < |tasks| && tasks[ti].uuid == req.taskUuid && tasks[ti].status == TaskModel.Completed
      && ri < |users| && users[ri].uuid == req.revieweeUuid
      && RoleAllows(userType, uid, ri + 1, tasks[ti])
      && ai < |asgs| && asgs[ai].taskId == ti + 1 && asgs[ai].workerId in {uid, ri + 1}
      && !HasReviewed(reviews, uid, ri + 1, ti + 1)
    ensures r == Err(AlreadyReviewed) ==>
      userId.Some? && (exists ti, ri :: 0 <= ti < |tasks| && 0 <= ri < |users| && tasks[ti].uuid == req.taskUuid
                        && users[ri].uuid == req.revieweeUuid && HasReviewed(reviews, userId.value, ri + 1, ti + 1))
    ensures r.Err? ==> r.error in {NotLoggedIn, InvalidRequest, ReviewNotAllowed, UserNotFound, AlreadyReviewed}
  {
    if userId.None? then Err(NotLoggedIn)
    else if !ReviewBinds(req) then Err(InvalidRequest)
    else
      var uid := userId.value;
      match FirstIndex(tasks, CompletedWithUuid(req.taskUuid))
      case None => Err(ReviewNotAllowed)
      case Some(ti) =>
        match FirstIndex(users, UserWithUuid(req.revieweeUuid))
        case None => Err(UserNotFound)
        case Some(ri) =>
          if !RoleAllows(userType, uid, ri + 1, tasks[ti]) then Err(ReviewNotAllowed)
          else match FirstIndex(asgs, Involving(ti + 1, uid, ri + 1))
            case None => Err(ReviewNotAllowed)
            case Some(ai) =>
              if HasReviewed(reviews, uid, ri + 1, ti + 1) then Err(AlreadyReviewed)
              else Ok(ReviewPlan(uid, ti, ri, ai))
  }

  /** The review's direction follows the caller's user type alone. */
  function ReviewTypeFor(userType: string): (t: ReviewType)
    ensures t == EmployerToWorker <==> userType == "employer"
  {
    if userType == "employer" then EmployerToWorker else WorkerToEmployer
  }

  /**
   * The row the handler inserts. It inserts with a raw statement, so the
   * insert hook does not run: the uuid is generated by the handler and
   * the rating is the bound one.
   */
  function NewReview(plan: ReviewPlan, req: ReviewRequest, userType: string, uuid: string, now: int): (row: ReviewRow)
    requires 1 <= req.rating <= 5
    ensures ClampRating(row.rating) == row.rating && row.rating == req.rating
    ensures row.reviewerId == plan.reviewer && row.revieweeId == plan.reviewee + 1 && row.taskId == plan.task + 1
    ensures row.taskAssignmentId == plan.assignment + 1 && row.comment == Some(req.comment)
    ensures row.reviewType == ReviewTypeFor(userType) && row.uuid == uuid && row.createdAt == now
  {
    ReviewRow(uuid, plan.task + 1, plan.assignment + 1, plan.reviewer, plan.reviewee + 1, req.rating as Uint8,
      Some(req.comment), ReviewTypeFor(userType), now)
  }

  /** Creating a review: the guards, then one insert. */
  method CreateReview(db: Database, userId: Option<nat>, userType: string, req: ReviewRequest,
                      uuid: string, now: int, fails: set<Step>)
    returns (r: Result<ReviewRow, Reason>)
    modifies db
    ensures db.users == old(db.users) && db.tasks == old(db.tasks) && db.applications == old(db.applications)
    ensures db.assignments == old(db.assignments) && db.transactions == old(db.transactions)
    ensures var check := ReviewCheck(old(db.tasks), old(db.users), old(db.assignments), old(db.reviews), userId, userType, req);
      && (check.Err? ==> r == Err(check.error) && db.reviews == old(db.reviews))
      && (check.Ok? && InsertReview in fails ==> r == Err(StorageError) && db.reviews == old(db.reviews))
      && (check.Ok? && InsertReview !in fails ==>
            r == Ok(NewReview(check.value, req, userType, uuid, now)) && db.reviews == old(db.reviews) + [r.value])
  {
    var check := ReviewCheck(db.tasks, db.users, db.assignments, db.reviews, userId, userType, req);
    if check.Err? {
      return Err(check.error);
    }
    if InsertReview in fails {
      return Err(StorageError);
    }
    var row := NewReview(check.value, req, userType, uuid, now);
    db.reviews := db.reviews + [row];
    r := Ok(row);
  }

  /** Once a review is stored, the same request is refused as a repeat. */
  lemma ReviewOnce(tasks: seq<TaskModel.TaskRow>, users: seq<UserRow>, asgs: seq<AssignmentModel.AssignmentRow>,
                   reviews: seq<ReviewRow>, userId: Option<nat>, userType: string, req: ReviewRequest,
                   uuid: string, now: int)
    requires ReviewCheck(tasks, users, asgs, reviews, userId, userType, req).Ok?
    ensures var row := NewReview(ReviewCheck(tasks, users, asgs, reviews, userId, userType, req).value, req, userType, uuid, now);
      ReviewCheck(tasks, users, asgs, reviews + [row], userId, userType, req) == Err(AlreadyReviewed)
  {
    var plan := ReviewCheck(tasks, users, asgs, reviews, userId, userType, req).value;
    var row := NewReview(plan, req, userType, uuid, now);
    assert (reviews + [row])[|reviews|] == row;
    assert HasReviewed(reviews + [row], plan.reviewer, plan.reviewee + 1, plan.task + 1);
  }

  /** No stored review repeats a (reviewer, reviewee, task) triple. */
  predicate ReviewsUnique(reviews: seq<ReviewRow>)
  {
    forall i, j :: 0 <= i < j < |reviews| ==>
      reviews[i].reviewerId != reviews[j].reviewerId || reviews[i].revieweeId != reviews[j].revieweeId
      || reviews[i].taskId != reviews[j].taskId
  }

  /** Every stored rating is in 1..5. */
  predicate RatingsInRange(reviews: seq<ReviewRow>)
  {
    forall k :: 0 <= k < |reviews| ==> 1 <= reviews[k].rating <= 5
  }

  /** A created review keeps the triples unique and the ratings in range. */
  lemma CreatedReviewKeepsTable(tasks: seq<TaskModel.TaskRow>, users: seq<UserRow>, asgs: seq<AssignmentModel.AssignmentRow>,
                                reviews: seq<ReviewRow>, userId: Option<nat>, userType: string, req: ReviewRequest,
                                uuid: string, now: int)
    requires ReviewsUnique(reviews) && RatingsInRange(reviews)
    requires ReviewCheck(tasks, users, asgs, reviews, userId, userType, req).Ok?
    ensures var row := NewReview(ReviewCheck(tasks, users, asgs, reviews, userId, userType, req).value, req, userType, uuid, now);
      ReviewsUnique(reviews + [row]) && RatingsInRange(reviews + [row])
  {
    var plan := ReviewCheck(tasks, users, asgs, reviews, userId, userType, req).value;
    var row := NewReview(plan, req, userType, uuid, now);
    var reviews' := reviews + [row];
    forall i, j | 0 <= i < j < |reviews'|
      ensures reviews'[i].reviewerId != reviews'[j].reviewerId || reviews'[i].revieweeId != reviews'[j].revieweeId
              || reviews'[i].taskId != reviews'[j].taskId
    {
      if j == |reviews| {
        assert reviews'[i] == reviews[i];
        assert !HasReviewed(reviews, plan.reviewer, plan.reviewee + 1, plan.task + 1);
      }
    }
  }

  /**
   * A permitted review ties the reviewer or the reviewee to the task as its
   * worker, and no user reviews themself unless an employer reviews their
   * own account on a task they do not own.
   */
  lemma ReviewersTookPart(tasks: seq<TaskModel.TaskRow>, users: seq<UserRow>, asgs: seq<AssignmentModel.AssignmentRow>,
                          reviews: seq<ReviewRow>, userId: Option<nat>, userType: string, req: ReviewRequest)
    requires ReviewCheck(tasks, users, asgs, reviews, userId, userType, req).Ok?
    ensures var plan := ReviewCheck(tasks, users, asgs, reviews, userId, userType, req).value;
      && (exists k :: 0 <= k < |asgs| && asgs[k].taskId == plan.task + 1 && asgs[k].workerId in {plan.reviewer, plan.reviewee + 1})
      && (userType != "employer" ==> plan.reviewee + 1 != plan.reviewer)
      && (userType == "employer" ==> plan.reviewee + 1 != tasks[plan.task].employerId)
  {
    var plan := ReviewCheck(tasks, users, asgs, reviews, userId, userType, req).value;
    assert asgs[plan.assignment].taskId == plan.task + 1;
  }

  /**
   * An employer need not own the task: any employer may review a worker
   * assigned to any completed task of someone else.
   */
  lemma EmployerNeedNotOwnTask(task: TaskModel.TaskRow, worker: UserRow, employer: nat, now: int)
    requires task.status == TaskModel.Completed && task.uuid != "" && worker.uuid != ""
    requires task.employerId != 1 && employer != task.employerId
    ensures var asg := AssignmentModel.AssignmentRow("a", None, 1, 1, now, AssignmentModel.Completed, AssignmentModel.Done, None);
      ReviewCheck([task], [worker], [asg], [], Some(employer), "employer", ReviewRequest(5, "ok", task.uuid, worker.uuid))
        == Ok(ReviewPlan(employer, 0, 0, 0))
  {
  }

  // ----------------------------------------------------------- the reviews a user received

  /** The task a review's assignment points at, as the preload finds it. */
  function TaskOf(asgs: seq<AssignmentModel.AssignmentRow>, tasks: seq<TaskModel.TaskRow>, review: ReviewRow)
    : (t: Option<TaskModel.TaskRow>)
    ensures t.Some? ==> exists k :: 0 <= k < |tasks| && tasks[k] == t.value
  {
    match ByKey(asgs, review.taskAssignmentId)
    case None => None
    case Some(a) => ByKey(tasks, a.taskId)
  }

  const UnknownTaskTitle: string := "未知任务"

  /** The title shown for a review's task: the task's own, or the placeholder when there is none. */
  function DisplayTitle(t: Option<TaskModel.TaskRow>): (title: string)
    ensures title != ""
    ensures t.Some? && t.value.title != "" ==> title == t.value.title
    ensures t.None? || t.value.title == "" ==> title == UnknownTaskTitle
  {
    if t.Some? && t.value.title != "" then t.value.title else UnknownTaskTitle
  }

  /** One entry of a user's review list. */
  datatype ReviewItem = ReviewItem(
    uuid: string, rating: Uint8, comment: Option<string>, reviewerUuid: string, reviewerName: Option<string>,
    taskUuid: string, taskTitle: string, createdAt: int)

  /** A review as listed: the reviewer and the task as the preloads find them, zero values where they find nothing. */
  function ReviewItemOf(users: seq<UserRow>, asgs: seq<AssignmentModel.AssignmentRow>, tasks: seq<TaskModel.TaskRow>,
                        review: ReviewRow): (item: ReviewItem)
    ensures item.uuid == review.uuid && item.rating == review.rating && item.comment == review.comment
    ensures item.taskTitle == DisplayTitle(TaskOf(asgs, tasks, review)) && item.taskTitle != ""
    ensures 1 <= review.reviewerId <= |users| ==> item.reviewerUuid == users[review.reviewerId - 1].uuid
    ensures !(1 <= review.reviewerId <= |users|) ==> item.reviewerUuid == "" && item.reviewerName.None?
  {
    var reviewer := ByKey(users, review.reviewerId);
    var task := TaskOf(asgs, tasks, review);
    ReviewItem(review.uuid, review.rating, review.comment,
      if reviewer.Some? then reviewer.value.uuid else "",
      if reviewer.Some? then reviewer.value.name else None,
      if task.Some? then task.value.uuid else "",
      DisplayTitle(task), review.createdAt)
  }

  function ReviewTime(r: ReviewRow): int
  {
    r.createdAt
  }

  function ReceivedBy(key: nat): ReviewRow -> bool
  {
    (r: ReviewRow) => r.revieweeId == key
  }

  /** `WHERE reviewee_id = ? ORDER BY created_at DESC`. */
  function ReceivedNewestFirst(reviews: seq<ReviewRow>, key: nat): (r: seq<ReviewRow>)
  {
    SortDescending(Filter(reviews, ReceivedBy(key)), ReviewTime)
  }

  /** The listed reviews are exactly the user's received ones, newest first. */
  lemma ReceivedListing(reviews: seq<ReviewRow>, key: nat)
    ensures var listed := ReceivedNewestFirst(reviews, key);
      && |listed| == Count(reviews, ReceivedBy(key))
      && (forall k :: 0 <= k < |listed| ==> listed[k] in reviews && listed[k].revieweeId == key)
      && (forall k :: 0 <= k < |reviews| && reviews[k].revieweeId == key ==> reviews[k] in listed)
      && (forall i, j :: 0 <= i < j < |listed| ==> listed[i].createdAt >= listed[j].createdAt)
  {
    var received := Filter(reviews, ReceivedBy(key));
    var listed := ReceivedNewestFirst(reviews, key);
    CountIsFilterLength(reviews, ReceivedBy(key));
    SortIsDescending(received, ReviewTime);
    SameMembers(listed, received);
    SameMembers(received, listed);
    forall k | 0 <= k < |reviews| && reviews[k].revieweeId == key
      ensures reviews[k] in listed
    {
      assert ReceivedBy(key)(reviews[k]);
      var j :| 0 <= j < |received| && received[j] == reviews[k];
    }
  }

  /** The formatting loop over the listed reviews. */
  method FormatReviews(users: seq<UserRow>, asgs: seq<AssignmentModel.AssignmentRow>, tasks: seq<TaskModel.TaskRow>,
                       rows: seq<ReviewRow>) returns (items: seq<ReviewItem>)
    ensures |items| == |rows|
    ensures forall k :: 0 <= k < |rows| ==> items[k] == ReviewItemOf(users, asgs, tasks, rows[k])
  {
    items := [];
    for k := 0 to |rows|
      invariant |items| == k
      invariant forall j :: 0 <= j < k ==> items[j] == ReviewItemOf(users, asgs, tasks, rows[j])
    {
      items := items + [ReviewItemOf(users, asgs, tasks, rows[k])];
    }
  }

  // ----------------------------------------------------------- rating statistics

  /** The sum of the ratings the user received. */
  function RatingSum(reviews: seq<ReviewRow>, key: nat): (sum: nat)
    decreases |reviews|
  {
    if reviews == [] then 0
    else
      var last := reviews[|reviews| - 1];
      RatingSum(reviews[..|reviews| - 1], key) + (if last.revieweeId == key then last.rating else 0)
  }

  /** The count of the user's reviews, by the same recursion as the sum. */
  lemma {:induction false} CountOfPrefix(reviews: seq<ReviewRow>, key: nat)
    requires reviews != []
    ensures Count(reviews, ReceivedBy(key)) ==
      Count(reviews[..|reviews| - 1], ReceivedBy(key)) + (if reviews[|reviews| - 1].revieweeId == key then 1 else 0)
  {
    assert reviews == reviews[..|reviews| - 1] + [reviews[|reviews| - 1]];
    CountSnoc(reviews[..|reviews| - 1], reviews[|reviews| - 1], ReceivedBy(key));
  }

  /** With every rating in 1..5, the sum lies between the count and five times the count. */
  lemma {:induction false} RatingSumBounds(reviews: seq<ReviewRow>, key: nat)
    requires RatingsInRange(reviews)
    ensures Count(reviews, ReceivedBy(key)) <= RatingSum(reviews, key) <= 5 * Count(reviews, ReceivedBy(key))
    decreases |reviews|
  {
    if reviews != [] {
      RatingSumBounds(reviews[..|reviews| - 1], key);
      CountOfPrefix(reviews, key);
      assert 1 <= reviews[|reviews| - 1].rating <= 5;
    }
  }

  /** `COALESCE(AVG(rating), 0)` and `COUNT(*)` over the user's received reviews. */
  datatype ReviewStats = ReviewStats(total: nat, averageRating: real)

  /** The mean of `count` ratings adding up to `sum`, 0 when there are none. */
  function Average(sum: nat, count: nat): (a: real)
    ensures count == 0 ==> a == 0.0
    ensures count > 0 ==> a * (count as real) == sum as real
  {
    if count == 0 then 0.0 else sum as real / count as real
  }

  /** A mean of ratings between 1 and 5 lies between 1 and 5. */
  lemma AverageBetween(sum: nat, count: nat)
    requires 0 < count <= sum <= 5 * count
    ensures 1.0 <= Average(sum, count) <= 5.0
  {
    RatioBetween(Average(sum, count), count as real, sum as real);
  }

  /** A number that times a positive `n` gives between `n` and `5n` lies between 1 and 5. */
  lemma RatioBetween(a: real, n: real, s: real)
    requires n > 0.0 && a * n == s && n <= s <= 5.0 * n
    ensures 1.0 <= a <= 5.0
  {
    MulMonotone(a, 1.0, n);
    MulMonotone(5.0, a, n);
  }

  /** Multiplying by a positive number keeps a strict order. */
  lemma MulMonotone(x: real, y: real, n: real)
    requires n > 0.0
    ensures x < y ==> x * n < y * n
  {
    if x < y {
      assert (y - x) * n > 0.0;
    }
  }

  function Stats(reviews: seq<ReviewRow>, key: nat): (s: ReviewStats)
    ensures s.total == Count(reviews, ReceivedBy(key))
    ensures s.averageRating == Average(RatingSum(reviews, key), s.total)
  {
    var total := Count(reviews, ReceivedBy(key));
    ReviewStats(total, Average(RatingSum(reviews, key), total))
  }

  /** With every rating in 1..5, a user with reviews averages between 1 and 5. */
  lemma AverageOnScale(reviews: seq<ReviewRow>, key: nat)
    requires RatingsInRange(reviews) && Stats(reviews, key).total > 0
    ensures 1.0 <= Stats(reviews, key).averageRating <= 5.0
  {
    RatingSumBounds(reviews, key);
    AverageBetween(RatingSum(reviews, key), Count(reviews, ReceivedBy(key)));
  }

  /** The page of a user's reviews. */
  datatype ReviewsPage = ReviewsPage(reviews: seq<ReviewItem>, stats: ReviewStats)

  /** The reviews a user received, newest first, with the count and the average. */
  method GetUserReviews(db: Database, userUuid: string) returns (r: Result<ReviewsPage, Reason>)
    ensures r == Err(MissingParameter) <==> userUuid == ""
    ensures r == Err(UserNotFound) <==> userUuid != "" && forall k :: 0 <= k < |db.users| ==> db.users[k].uuid != userUuid
    ensures r.Ok? ==> FirstIndex(db.users, UserWithUuid(userUuid)).Some?
    ensures r.Ok? ==>
      var ui := FirstIndex(db.users, UserWithUuid(userUuid)).value;
      && db.users[ui].uuid == userUuid
      && r.value.stats == Stats(db.reviews, ui + 1)
      && |r.value.reviews| == |ReceivedNewestFirst(db.reviews, ui + 1)|
      && (forall k :: 0 <= k < |r.value.reviews| ==>
            r.value.reviews[k] == ReviewItemOf(db.users, db.assignments, db.tasks, ReceivedNewestFirst(db.reviews, ui + 1)[k]))
  {
    if userUuid == "" {
      return Err(MissingParameter);
    }
    var found := FirstIndex(db.users, UserWithUuid(userUuid));
    if found.None? {
      return Err(UserNotFound);
    }
    var ui := found.value;
    var items := FormatReviews(db.users, db.assignments, db.tasks, ReceivedNewestFirst(db.reviews, ui + 1));
    r := Ok(ReviewsPage(items, Stats(db.reviews, ui + 1)));
  }

  // ----------------------------------------------------------- the rating histogram

  /** One row of `SELECT rating, COUNT(*) … GROUP BY rating`, and one histogram bucket. */
  datatype RatingCount = RatingCount(rating: nat, count: nat)

  function WithRating(key: nat, rating: nat): ReviewRow -> bool
  {
    (r: ReviewRow) => r.revieweeId == key && r.rating == rating
  }

  /** How many of the user's received reviews carry the rating. */
  function CountRating(reviews: seq<ReviewRow>, key: nat, rating: nat): (n: nat)
    ensures n <= |reviews|
  {
    Count(reviews, WithRating(key, rating))
  }

  /**
   * The grouped query over the ratings below `top`, highest rating first,
   * one row per rating that occurs.
   */
  function GroupedBelow(reviews: seq<ReviewRow>, key: nat, top: nat): (g: seq<RatingCount>)
    ensures forall k :: 0 <= k < |g| ==> g[k].rating < top && g[k].count > 0
  {
    if top == 0 then []
    else
      var n := CountRating(reviews, key, top - 1);
      (if n > 0 then [RatingCount(top - 1, n)] else []) + GroupedBelow(reviews, key, top - 1)
  }

  /** `GROUP BY rating ORDER BY rating DESC` over the whole tinyint range. */
  function Grouped(reviews: seq<ReviewRow>, key: nat): seq<RatingCount>
  {
    GroupedBelow(reviews, key, 256)
  }

  /** The count of the first grouped row with the rating, 0 when there is none (the inner loop with its break). */
  function FirstCount(rows: seq<RatingCount>, rating: nat): nat
  {
    if rows == [] then 0
    else if rows[0].rating == rating then rows[0].count
    else FirstCount(rows[1..], rating)
  }

  /** Looking a rating up past a first row that does not hold it looks in the rest. */
  lemma FirstCountCons(row: RatingCount, rest: seq<RatingCount>, rating: nat)
    ensures FirstCount([row] + rest, rating) == if row.rating == rating then row.count else FirstCount(rest, rating)
  {
    assert ([row] + rest)[1..] == rest;
  }

  /** Looking a rating up in the grouped rows finds its count. */
  lemma {:induction false} GroupedCounts(reviews: seq<ReviewRow>, key: nat, top: nat, rating: nat)
    ensures FirstCount(GroupedBelow(reviews, key, top), rating) == (if rating < top then CountRating(reviews, key, rating) else 0)
    decreases top
  {
    if top > 0 {
      GroupedCounts(reviews, key, top - 1, rating);
      var n := CountRating(reviews, key, top - 1);
      var rest := GroupedBelow(reviews, key, top - 1);
      if n > 0 {
        var g := [RatingCount(top - 1, n)] + rest;
        assert GroupedBelow(reviews, key, top) == g;
        FirstCountCons(RatingCount(top - 1, n), rest, rating);
      } else {
        assert GroupedBelow(reviews, key, top) == rest;
        if rating == top - 1 {
          assert FirstCount(rest, rating) == 0;
          assert CountRating(reviews, key, rating) == 0;
        }
      }
    }
  }

  /**
   * The histogram: five buckets, rating 5 first, each holding the count of
   * the first grouped row with its rating, or 0.
   */
  method Histogram(rows: seq<RatingCount>) returns (ratings: seq<RatingCount>)
    ensures |ratings| == 5
    ensures forall k :: 0 <= k < 5 ==> ratings[k] == RatingCount(5 - k, FirstCount(rows, 5 - k))
  {
    ratings := [RatingCount(0, 0), RatingCount(0, 0), RatingCount(0, 0), RatingCount(0, 0), RatingCount(0, 0)];
    for i := 1 to 6
      invariant |ratings| == 5
      invariant forall k :: 5 - i < k < 5 ==> ratings[k] == RatingCount(5 - k, FirstCount(rows, 5 - k))
    {
      var j := 0;
      while j < |rows| && rows[j].rating != i
        invariant 0 <= j <= |rows|
        invariant FirstCount(rows, i) == FirstCount(rows[j..], i)
      {
        assert rows[j..][1..] == rows[j + 1..];
        j := j + 1;
      }
      var count := if j < |rows| then rows[j].count else 0;
      ratings := ratings[5 - i := RatingCount(i, count)];
    }
  }

  /** Each bucket holds the number of the user's reviews with its rating. */
  lemma HistogramCounts(reviews: seq<ReviewRow>, key: nat, rating: nat)
    requires 1 <= rating <= 5
    ensures FirstCount(Grouped(reviews, key), rating) == CountRating(reviews, key, rating)
  {
    GroupedCounts(reviews, key, 256, rating);
  }

  /** With every rating in 1..5, the five buckets add up to the user's review count. */
  lemma {:induction false} BucketsCoverAll(reviews: seq<ReviewRow>, key: nat)
    requires RatingsInRange(reviews)
    ensures CountRating(reviews, key, 1) + CountRating(reviews, key, 2) + CountRating(reviews, key, 3)
            + CountRating(reviews, key, 4) + CountRating(reviews, key, 5) == Count(reviews, ReceivedBy(key))
    decreases |reviews|
  {
    if reviews != [] {
      var init, last := reviews[..|reviews| - 1], reviews[|reviews| - 1];
      BucketsCoverAll(init, key);
      assert reviews == init + [last];
      CountOfPrefix(reviews, key);
      CountSnoc(init, last, WithRating(key, 1));
      CountSnoc(init, last, WithRating(key, 2));
      CountSnoc(init, last, WithRating(key, 3));
      CountSnoc(init, last, WithRating(key, 4));
      CountSnoc(init, last, WithRating(key, 5));
    }
  }

  /** The rating summary of a user. */
  datatype RatingsSummary = RatingsSummary(ratings: seq<RatingCount>, stats: ReviewStats)

  /** The rating summary: the histogram from the grouped query, the count and the average. */
  method GetUserRatings(db: Database, userUuid: string) returns (r: Result<RatingsSummary, Reason>)
    ensures r == Err(MissingParameter) <==> userUuid == ""
    ensures r == Err(UserNotFound) <==> userUuid != "" && forall k :: 0 <= k < |db.users| ==> db.users[k].uuid != userUuid
    ensures r.Ok? ==> FirstIndex(db.users, UserWithUuid(userUuid)).Some?
    ensures r.Ok? ==>
      var ui := FirstIndex(db.users, UserWithUuid(userUuid)).value;
      && db.users[ui].uuid == userUuid
      && r.value.stats == Stats(db.reviews, ui + 1)
      && |r.value.ratings| == 5
      && (forall k :: 0 <= k < 5 ==> r.value.ratings[k] == RatingCount(5 - k, CountRating(db.reviews, ui + 1, 5 - k)))
  {
    if userUuid == "" {
      return Err(MissingParameter);
    }
    var found := FirstIndex(db.users, UserWithUuid(userUuid));
    if found.None? {
      return Err(UserNotFound);
    }
    var ui := found.value;
    var ratings := Histogram(Grouped(db.reviews, ui + 1));
    forall k | 0 <= k < 5
      ensures ratings[k] == RatingCount(5 - k, CountRating(db.reviews, ui + 1, 5 - k))
    {
      HistogramCounts(db.reviews, ui + 1, 5 - k);
    }
    r := Ok(RatingsSummary(ratings, Stats(db.reviews, ui + 1)));
  }
}
