/** The reviews table and the Review struct's insert hook. */
module ReviewModel {
  import opened Wrappers
  import Uuids

  datatype ReviewType = EmployerToWorker | WorkerToEmployer

  /** The tinyint unsigned rating column. */
  type Uint8 = x: nat | x < 256

  /** A stored reviews row; its primary key is its position plus one. */
  datatype ReviewRow = ReviewRow(
    uuid: string,
    taskId: nat,
    taskAssignmentId: nat,
    reviewerId: nat,
    revieweeId: nat,
    rating: Uint8,
    comment: Option<string>,
    reviewType: ReviewType,
    createdAt: int)

  /** A rating forced into 1..5; ratings already in range are kept. */
  function ClampRating(r: Uint8): (c: Uint8)
    ensures 1 <= c <= 5
    ensures 1 <= r <= 5 ==> c == r
    ensures r < 1 ==> c == 1
    ensures r > 5 ==> c == 5
  {
    if r < 1 then 1 else if r > 5 then 5 else r
  }

  /** Clamping is idempotent and keeps the order of ratings. */
  lemma ClampRatingStable(a: Uint8, b: Uint8)
    ensures ClampRating(ClampRating(a)) == ClampRating(a)
    ensures a <= b ==> ClampRating(a) <= ClampRating(b)
  {
  }

  /** The in-memory Review the insert hook runs on. */
  class Review {
    var uuid: string
    var taskId: nat
    var taskAssignmentId: nat
    var reviewerId: nat
    var revieweeId: nat
    var rating: Uint8
    var comment: Option<string>
    var reviewType: ReviewType
    var createdAt: int

    function Row(): ReviewRow
      reads this
    {
      ReviewRow(uuid, taskId, taskAssignmentId, reviewerId, revieweeId, rating, comment, reviewType, createdAt)
    }

    constructor FromRow(row: ReviewRow)
      ensures Row() == row
    {
      uuid, taskId, taskAssignmentId, reviewerId, revieweeId := row.uuid, row.taskId, row.taskAssignmentId, row.reviewerId, row.revieweeId;
      rating, comment, reviewType, createdAt := row.rating, row.comment, row.reviewType, row.createdAt;
    }

    /** The insert hook: fills a missing uuid and clamps the rating into 1..5. */
    method BeforeCreate(generated: string)
      modifies this
      ensures Row() == old(Row()).(uuid := Uuids.FillUuid(old(uuid), generated), rating := ClampRating(old(rating)))
      ensures 1 <= rating <= 5
    {
      uuid := Uuids.FillUuid(uuid, generated);
      if rating < 1 {
        rating := 1;
      } else if rating > 5 {
        rating := 5;
      }
    }
  }
}
