# Smart gig platform — a verified model of its core

The smart gig platform is a marketplace for short jobs. Employers post
tasks. Workers apply. The employer accepts applications, each accepted worker
hands in the work, and the employer confirms it. Confirming pays every worker
out of the platform and records an earning transaction. Workers can ask to
withdraw their balance, and the two sides can review each other once a task
is done. The backend is a Go/gin service over a GORM database, plus an
in-memory user store used for sign-up and login. The frontend is a Next.js
application whose `lib/api.ts` holds the session token and shapes every
request.

This Dafny project models that core and proves what it promises:

- **Database and models.**
  - `Db` holds the database tables as sequences of rows; row i has key i + 1.
  - `TaskModel`, `ApplicationModel`, `AssignmentModel`, `ReviewModel`, `UserModel`, `TransactionModel` and `VerificationCodeModel` hold the records, their enums, their insert hooks and their status transitions.
  - Records whose methods update their own fields are classes.
- **Task lifecycle.**
  - `TaskHandlers` covers creating, applying, accepting, handing in and confirming, plus the pagination arithmetic of the task list.
  - Each handler is a pure check, saying which guard refuses the request, and an imperative method that performs the writes of one database transaction.
  - `Settlement` models the payout loop of a confirmation.
  - `Ledger` defines each user's income and expense.
- **Payments.** `PaymentHandlers` covers the withdrawal request (amount parsing, the balance guard, the debit and the pending transaction) and the payments overview.
- **Reviews.** `ReviewHandlers` covers review eligibility, the received-reviews listing with its average, and the five-bucket rating histogram.
- **Accounts.**
  - `AuthHandlers` covers the in-memory store and the verification-code, registration, login and logout rules.
  - `UserHandlers` covers settings, password change, the profile update and the avatar upload.
  - `AuthMiddleware` covers token extraction, token validation and the role gates.
- **Frontend.**
  - `ClientApi` covers the cookie jar, the token's precedence and migration between cookie and localStorage, the request headers, and the shaping of responses.
  - `SkillList`, `CreateTaskPage`, `ProfilePage`, `PaymentsPage`, `TasksPage` and `Sidebar` cover the page logic: skill editing, request bodies and how the backend binds them, list filters, badges and navigation.
- **Shared helpers.** `JsonValues`, `Numbers`, `Strings`, `Dates` and `Seqs` model the JSON values, number parsing and printing, strings, dates and list operations of Go and JavaScript that this logic depends on.

Clocks, uuids, random codes, JWT signing and parsing, and storage failures
are parameters: `now`, `generated`, `fails`, `parse` and similar.

## Model

| member | source | states |
|---|---|---|
| Uuids.FillUuid | backend/models/task.go:82-86 | a record keeps a non-empty uuid and otherwise gets the generated one, so a generated uuid is never left empty |
| TaskModel.WithColumnDefaults | backend/models/task.go:57-58 | a stored task always has a currency and a headcount of at least 1; a non-zero value in the insert is kept, and nothing else changes |
| TaskModel.BeforeCreate | backend/models/task.go:82-86 | the task hook fills a missing uuid and changes no other field |
| TaskModel.BudgetSuffix | backend/models/task.go:106-115 | the unit is per hour exactly for hourly, per day exactly for daily, and per project for every other payment type |
| TaskModel.BudgetDisplay | backend/models/task.go:106-115 | the label is the amount text, then the currency, then the unit of the payment type, piece by piece |
| TaskModel.LabelsTellUnitsApart | backend/models/task.go:106-115 | two tasks with the same amount text and currency get the same label exactly when they have the same payment type |
| TaskModel.LocationDisplay | backend/api/handlers/task.go:126-129 | an offline task with details shows them; an online task, or one without details, shows "线上远程" |
| UserModel.BeforeCreate | backend/models/user.go:76-81 | a user stored without an identity status starts not verified; one with a status is unchanged |
| TransactionModel.StoredCurrency | backend/models/transaction.go:44 | an empty currency is stored as CNY and a given one is kept |
| ApplicationModel.TaskApplication.Accept | backend/models/task_application.go:43-46 | the status becomes accepted and no other field changes, so a second call changes nothing |
| ApplicationModel.TaskApplication.Reject | backend/models/task_application.go:48-51 | the status becomes rejected and no other field changes, so a second call changes nothing |
| ApplicationModel.TaskApplication.Withdraw | backend/models/task_application.go:53-56 | the status becomes withdrawn and no other field changes, so a second call changes nothing |
| ApplicationModel.TaskApplication.BeforeCreate | backend/models/task_application.go:58-63 | the hook fills a missing uuid and changes nothing else |
| AssignmentModel.WorkSubmitted | backend/models/task_assignment.go:52-56 | after submission the worker side is submitted, the employer side is review pending, and nothing else changes |
| AssignmentModel.Paid | backend/models/task_assignment.go:63-69 | after payment both sides are completed, the completion time is set, and nothing else changes |
| AssignmentModel.TransitionsIdempotent | backend/models/task_assignment.go:52-69 | handing in or paying a row twice (at the same time) equals doing it once, since neither transition inspects the current status |
| AssignmentModel.TaskAssignment.Create | backend/models/task_assignment.go:81-89 | a new assignment whose statuses are left empty starts working and in progress; given statuses are kept |
| AssignmentModel.TaskAssignment.SubmitWork | backend/models/task_assignment.go:52-56 | the object's row becomes the submitted row |
| AssignmentModel.TaskAssignment.ApproveWork | backend/models/task_assignment.go:58-61 | only the employer status changes, to payment pending |
| AssignmentModel.TaskAssignment.MarkAsPaid | backend/models/task_assignment.go:63-69 | the object's row becomes the paid row, stamped with the given time |
| AssignmentModel.TaskAssignment.ReportDispute | backend/models/task_assignment.go:71-74 | only the employer status changes, to disputed |
| AssignmentModel.TaskAssignment.QuitTask | backend/models/task_assignment.go:76-79 | only the worker status changes, to quit |
| ReviewModel.ClampRating | backend/models/review.go:45-50 | the rating lies in 1..5; a rating in range is kept, one below goes to 1, one above to 5 |
| ReviewModel.ClampRatingStable | backend/models/review.go:45-50 | clamping twice equals clamping once, and clamping keeps the order of ratings |
| ReviewModel.Review.BeforeCreate | backend/models/review.go:39-52 | the hook fills a missing uuid and clamps the rating, so the stored rating lies in 1..5 |
| VerificationCodeModel.VerificationCode.MarkAsUsed | backend/models/verification_code.go:40-44 | the use time becomes the given time, the code then counts as used, nothing else changes, and whether it is expired at any time is unchanged |
| VerificationCodeModel.ExpiryMonotone | backend/models/verification_code.go:30-32 | once IsExpired holds it holds at every later time |
| VerificationCodeModel.RedeemableIffFresh | backend/api/handlers/auth.go:110 | a code the lookup condition `expires_at > ? AND used_at IS NULL` admits is neither expired nor used, and an unexpired unused code is admitted except at its expiry instant |
| VerificationCodeModel.ExpiryInstantDisagrees | backend/api/handlers/auth.go:110 | at the expiry instant an unused code is not expired by IsExpired, yet the lookup condition already refuses it |
| VerificationCodeModel.UsedNeverRedeemable | backend/models/verification_code.go:35-37 | a used code is never admitted by the lookup condition, whatever the clock |
| Db.ByKey | backend/api/handlers/task.go:168-172 | a lookup by primary key finds a row exactly when the key addresses one, and it is that row |
| Db.OneAssignmentPerWorker | backend/models/task_assignment.go:33-36 | with one application per worker and task and every assignment backed by its own application, no worker holds two assignments of one task |
| Db.BackedAfterStatusChanges | backend/models/task_assignment.go:34 | status changes that keep an assignment's links keep it backed by its application |
| Db.OneApplicationAfterNew | backend/api/handlers/task.go:494-515 | inserting an application for a pair not yet applied for keeps one application per worker and task |
| Db.OneApplicationAfterStatusChange | backend/models/task_application.go:43-56 | changing one application's status keeps one application per worker and task |
| Db.BackedAfterNewApplication | backend/api/handlers/task.go:512-515 | a new application leaves every assignment backed |
| Db.BackedAfterAccept | backend/api/handlers/task.go:810-849 | accepting a pending application and inserting its assignment keeps every assignment backed by its own accepted application |
| Db.Database.constructor | backend/models/task_assignment.go:33-36 | a database of given users and tasks, with every other table empty, satisfies the invariant |
| TaskHandlers.PageOrFirst | backend/api/handlers/task.go:71-73 | the page is at least 1; a page below 1 becomes 1 and any other page is kept |
| TaskHandlers.LimitOrDefault | backend/api/handlers/task.go:74-76 | the page size lies in 1..50; a size outside that range becomes 10 |
| TaskHandlers.OffsetsAdjacent | backend/api/handlers/task.go:115 | each page starts where the previous page ends |
| TaskHandlers.TotalPages | backend/api/handlers/task.go:154 | the page count is the total divided by the page size, rounded up, and is 0 exactly when there are no rows |
| TaskHandlers.PagesCover | backend/api/handlers/task.go:115-154 | every row of the result lies on exactly one existing page, inside that page's window |
| TaskHandlers.EdgesMoveForward | backend/models/task.go:33-41 | every status change the handlers make moves a task forward, never back to recruiting or pending approval |
| TaskHandlers.AdvanceOne | backend/api/handlers/task.go:517-523 | one status change along an edge, and nothing else, advances the tasks table |
| TaskHandlers.AdvanceNeverReturns | backend/api/handlers/task.go:517-523 | over any sequence of handler calls a task keeps its uuid and employer and its status never moves back |
| TaskHandlers.ApplyCheck | backend/api/handlers/task.go:457-498 | each refusal (missing uuid, not logged in, unknown user, not a worker, no identity card, no recruiting task, already applied) happens exactly in its case, in the handler's order; success names the caller and the first recruiting task with that uuid, to which the caller has not applied |
| TaskHandlers.AcceptCheck | backend/api/handlers/task.go:767-808 | login and uuid refusals exactly in their cases; each other refusal names the application found and the failing condition; success names the first application with that uuid, pending, on a recruiting task of the caller |
| TaskHandlers.CompleteCheck | backend/api/handlers/task.go:542-582 | login, uuid and missing-task refusals exactly in their cases; success names the first task with that uuid, in progress, and the caller's first assignment on it |
| TaskHandlers.ConfirmCheck | backend/api/handlers/task.go:635-682 | login, uuid and missing-task refusals exactly in their cases; success names the caller's first task with that uuid, awaiting payment, and exactly the indices of its assignments awaiting review, in key order and not empty |
| TaskHandlers.CreateCheck | backend/api/handlers/task.go:162-215 | login, unknown user and wrong role refusals exactly in their cases; for an employer, success holds exactly when the body binds, both dates parse, the start is not before today and the end is not before the start |
| TaskHandlers.StoredNewTask | backend/api/handlers/task.go:216-240 | a stored task keeps the body's title, description, budget, headcount, location and payment type, belongs to the caller, is recruiting, is priced in CNY and has details only when offline and given |
| TaskHandlers.CheckedDatesPrintBack | backend/api/handlers/task.go:182-199 | the dates of a body that passes the checks are valid calendar dates that print back exactly as sent |
| TaskHandlers.CreateTask | backend/api/handlers/task.go:162-276 | a refused create or a failed insert changes nothing; otherwise exactly the stored task is appended and no other table changes |
| TaskHandlers.AfterApplyCount | backend/api/handlers/task.go:517-523 | the task changes exactly when its save succeeds, it is recruiting and its applications of any status reach its headcount, and then only its status becomes in progress |
| TaskHandlers.ApplyToTask | backend/api/handlers/task.go:457-526 | a refused apply or a failed insert changes nothing; otherwise exactly one pending application of the caller is appended, the task may flip to in progress by the headcount rule, and nothing else changes |
| TaskHandlers.AddApplication | backend/api/handlers/task.go:500-523 | the writes of an apply that passed its checks, with the same outcome as the handler |
| TaskHandlers.AcceptTaskApplication | backend/api/handlers/task.go:767-856 | a refused accept or any failed write changes nothing; otherwise the application becomes accepted, one working assignment of its worker is appended and the task moves to in progress, all together |
| TaskHandlers.CompleteTask | backend/api/handlers/task.go:542-619 | a refused hand-in or any failed write changes nothing; otherwise the caller's assignment becomes submitted and awaiting review and the task moves to payment pending, all together |
| TaskHandlers.SubmitChecked | backend/api/handlers/task.go:584-610 | the writes of a hand-in that passed its checks, with the same outcome as the handler |
| TaskHandlers.ConfirmTaskCompletion | backend/api/handlers/task.go:635-764 | a refused confirmation or a failed task save or commit changes nothing; otherwise the task is completed, the books are those of the payment loop paying each awaiting assignment an equal share of the budget, and the answer is payment failed exactly when no payment went through |
| TaskHandlers.SettleConfirmed | backend/api/handlers/task.go:684-764 | the writes of a confirmation that passed its checks, with the same outcome as the handler |
| TaskHandlers.PayAndCommit | backend/api/handlers/task.go:696-755 | the loop and the commit: a failed commit changes nothing, otherwise the confirmed state is stored |
| TaskHandlers.Commit | backend/api/handlers/task.go:745-750 | a commit stores the working copies of the tables and keeps the database invariant |
| TaskHandlers.SettledBacked | backend/api/handlers/task.go:696-743 | the payment loop keeps every assignment backed by its application |
| TaskHandlers.PayAll | backend/api/handlers/task.go:696-743 | the loop leaves the tables and the success count that the settlement function gives |
| TaskHandlers.LoadedUnpaid | backend/api/handlers/task.go:697-699 | when the loop reaches an assignment it is still as the query loaded it |
| TaskHandlers.PayAssignment | backend/api/handlers/task.go:698-742 | one turn of the loop has the outcome of the one-payment function, including the skipped steps after a failure |
| TaskHandlers.SecondConfirmRejected | backend/api/handlers/task.go:662-667 | a task once confirmed is refused a second confirmation as not awaiting payment |
| TaskHandlers.HandInOnce | backend/api/handlers/task.go:578-582 | once a task is handed in, nobody can hand it in again |
| TaskHandlers.AcceptOnce | backend/api/handlers/task.go:798-802 | once one application of a task is accepted, no other application of that task can be accepted |
| TaskHandlers.AdvanceKeepsStaffed | backend/api/handlers/task.go:584-610 | handler writes that advance tasks and keep assignment links keep every assignment on an existing, non-recruiting task with no task holding two |
| TaskHandlers.AcceptKeepsStaffed | backend/api/handlers/task.go:810-849 | accepting adds the only assignment of a task that was recruiting and moves that task out of recruiting, keeping the staffing invariant |
| TaskHandlers.ConfirmPaysOne | backend/api/handlers/task.go:711 | in a staffed database a confirmation finds exactly one awaiting assignment, so the share is the whole budget |
| TaskHandlers.OneAssignmentOfTask | backend/api/handlers/task.go:671-677 | increasing rows of one task in a table with no shared tasks are at most one |
| TaskHandlers.FirstApplicationStrands | backend/api/handlers/task.go:517-523 | a recruiting task of headcount one moves to in progress on its first application with nobody assigned; afterwards no application of it can be accepted and nobody can hand it in |
| Settlement.Credit | backend/api/handlers/task.go:736 | only the paid user's balance changes, by exactly the amount |
| Settlement.EarningRow | backend/api/handlers/task.go:706-722 | the earning belongs to the worker, carries the share, is completed at the given time and refers to the task and the assignment |
| Settlement.PayOne | backend/api/handlers/task.go:698-742 | one turn succeeds exactly when no step fails and the worker is on file; no table changes length |
| Settlement.Paying | backend/api/handlers/task.go:698-742 | a successful turn marks the assignment paid, appends the earning and credits the worker by the share |
| Settlement.PayOneEffect | backend/api/handlers/task.go:698-742 | one turn keeps every link and every non-balance user column, changes at most its own assignment to paid and appends at most its own earning; a failed assignment save changes nothing |
| Settlement.PayOneSuccess | backend/api/handlers/task.go:698-742 | a turn without a failure does all three writes |
| Settlement.FaultAt | backend/api/handlers/task.go:700-740 | the fault at a loop position is the one the fault map gives there, if any |
| Settlement.Settle | backend/api/handlers/task.go:696-743 | the loop keeps the table sizes and counts at most one success per pending assignment |
| Settlement.SettleExtend | backend/api/handlers/task.go:696-743 | running the loop one position further is one more turn on the state so far |
| Settlement.SettleShape | backend/api/handlers/task.go:696-743 | whatever fails, the loop keeps links and non-balance user columns, touches only pending assignments and only appends earnings of one share for this task |
| Settlement.Payments | backend/api/handlers/task.go:706-724 | a fault-free run appends one earning per pending assignment |
| Settlement.PayeeCount | backend/api/handlers/task.go:697 | a user's pending assignments are at most all pending ones |
| Settlement.PayeeTotalIsProduct | backend/api/handlers/task.go:711-736 | a user earns the share times the number of their pending assignments |
| Settlement.FaultFreeStep | backend/api/handlers/task.go:729-742 | in a fault-free run the last turn still finds its worker on file and succeeds |
| Settlement.WorkerStillOnFile | backend/api/handlers/task.go:730-734 | earlier turns keep each assignment's worker and keep it on file |
| Settlement.SettleWithoutFaultsPays | backend/api/handlers/task.go:696-743 | without faults every pending assignment succeeds and its earning is appended, in loop order |
| Settlement.SettleWithoutFaultsMarks | backend/api/handlers/task.go:698-703 | without faults exactly the pending assignments end up paid |
| Settlement.SettleWithoutFaultsCredits | backend/api/handlers/task.go:729-740 | without faults each user is credited one share per pending assignment of theirs |
| Settlement.PayOneKeepsDrift | backend/api/handlers/task.go:724-740 | a turn whose worker writes do not fail keeps every balance as far from the applied rows as it was |
| Settlement.SettleKeepsDrift | backend/api/handlers/task.go:696-743 | unless a worker load or balance save fails, the loop keeps every balance in step with the applied rows |
| Settlement.SaveUserFaultLosesCredit | backend/api/handlers/task.go:737-740 | a failed balance save leaves a completed earning never credited: the balance falls behind by the share and the payment is not counted |
| Ledger.TotalSnoc | backend/api/handlers/payment.go:404-420 | a new row adds its own contribution to a sum and nothing else |
| Ledger.TotalAppend | backend/api/handlers/payment.go:404-420 | the sum over appended rows is the sum of the two parts |
| Ledger.ExpenseNonNegative | backend/api/handlers/payment.go:416-420 | the expense total, a sum of absolute amounts, is never negative |
| Ledger.OtherUsersIgnored | backend/api/handlers/payment.go:404-420 | rows of other users do not count towards a user's totals |
| PaymentHandlers.ParseAmount | backend/api/handlers/payment.go:491-508 | a JSON number is taken as it is, a string must parse as a float and otherwise gives a format error, and any other type is a type error |
| PaymentHandlers.NaNTextParses | backend/api/handlers/payment.go:497-503 | the text "NaN" parses without error, to NaN |
| PaymentHandlers.RequestedAmount | backend/api/handlers/payment.go:472-508 | not logged in, a body that does not bind, and the amount's parse errors are reported exactly in their cases; otherwise the amount is the parsed one |
| PaymentHandlers.WithdrawalCheckAsWritten | backend/api/handlers/payment.go:472-531 | an admitted withdrawal is of a user on file, with an amount that is not at most zero and not more than the balance under float comparison |
| PaymentHandlers.NaNWithdrawalAdmittedAsWritten | backend/api/handlers/payment.go:511-531 | as written, the text "NaN" withdraws NaN from any user on file, whatever the balance |
| PaymentHandlers.WithdrawalCheck | backend/api/handlers/payment.go:472-531 | each refusal happens exactly in its case, in the handler's order; an admitted amount is above zero and at most the caller's balance |
| PaymentHandlers.NaNWithdrawalRefused | backend/api/handlers/payment.go:511-514 | the corrected check refuses "NaN" as a non-positive amount |
| PaymentHandlers.ChecksAgreeBesideNaN | backend/api/handlers/payment.go:511-531 | on every amount but NaN the written and the corrected check give the same answer |
| PaymentHandlers.WithdrawalRow | backend/api/handlers/payment.go:542-555 | the recorded row is a pending withdrawal of the caller for minus the amount, priced in CNY and not completed |
| PaymentHandlers.Withdrawn | backend/api/handlers/payment.go:545-570 | only the caller's balance changes, down by exactly the amount, and exactly one withdrawal row is appended |
| PaymentHandlers.RequestWithdrawal | backend/api/handlers/payment.go:472-591 | a refused withdrawal or a failed write changes nothing (the rollback); otherwise the balance falls by the amount, one pending withdrawal of minus the amount is recorded, the answer reports the old balance less the amount, and no other table changes |
| PaymentHandlers.WithdrawalNeverOverdraws | backend/api/handlers/payment.go:528-531 | an accepted withdrawal leaves a non-negative balance below the old one |
| PaymentHandlers.WithdrawalKeepsDrift | backend/api/handlers/payment.go:545-570 | a withdrawal debits exactly what it records, so every balance stays as far from the applied rows as it was |
| PaymentHandlers.WithdrawalCountsAsExpense | backend/api/handlers/payment.go:404-420 | an accepted withdrawal adds its amount to the user's expense total and leaves the income total alone |
| PaymentHandlers.Item | backend/api/handlers/payment.go:434-448 | withdrawals and fees are listed as expenses and all else as income, with the amount without its sign and the row's id, status, date and title |
| PaymentHandlers.RecentRows | backend/api/handlers/payment.go:426-429 | the recent list holds at most ten rows |
| PaymentHandlers.RecentAreNewest | backend/api/handlers/payment.go:426-429 | the recent rows are the user's own, newest first, as many as the user has up to ten, and no left-out row of the user is newer than a listed one |
| PaymentHandlers.FormatRecent | backend/api/handlers/payment.go:433-449 | the loop lists every returned row, in order, as its item |
| PaymentHandlers.GetPaymentsData | backend/api/handlers/payment.go:348-461 | not logged in and an unknown user are reported exactly in their cases; otherwise the answer holds the balance, the income and expense totals (expense never negative), CNY, and the items of the ten newest rows |
| PaymentHandlers.AddWithdrawalAccount | backend/api/handlers/payment.go:189-229 | an account is added exactly when the type is alipay, wechat or bank and the account is given, and a bank account names its bank and holder; the answer echoes the request and every refusal is a 400 |
| ReviewHandlers.ReviewCheck | backend/api/handlers/review.go:106-215 | not logged in and a body that does not bind are refused exactly in their cases; an accepted review is of a completed task, by a caller the role rule lets review that user, with an assignment of either of them on the task and no earlier review of the same triple; a repeat is refused |
| ReviewHandlers.ReviewTypeFor | backend/api/handlers/review.go:229-234 | the review is employer-to-worker exactly when the caller is an employer |
| ReviewHandlers.NewReview | backend/api/handlers/review.go:217-251 | the inserted row carries the bound rating, which is in 1..5 so clamping would not change it, the caller, the reviewee, the task, the assignment found and the direction |
| ReviewHandlers.CreateReview | backend/api/handlers/review.go:106-290 | a refused review or a failed insert changes nothing; otherwise exactly the new review is appended and no other table changes |
| ReviewHandlers.ReviewOnce | backend/api/handlers/review.go:205-210 | once a review is stored, the same request is refused as a repeat |
| ReviewHandlers.CreatedReviewKeepsTable | backend/api/handlers/review.go:205-251 | a created review keeps every (reviewer, reviewee, task) triple unique and every rating in 1..5 |
| ReviewHandlers.ReviewersTookPart | backend/api/handlers/review.go:158-200 | a permitted review ties the reviewer or the reviewee to the task as its worker; a non-employer never reviews themself and an employer never reviews the task's employer |
| ReviewHandlers.EmployerNeedNotOwnTask | backend/api/handlers/review.go:162-167 | any employer may review a worker assigned to someone else's completed task |
| ReviewHandlers.TaskOf | backend/api/handlers/review.go:47-49 | the preloaded task, when found, is a stored task |
| ReviewHandlers.DisplayTitle | backend/api/handlers/review.go:60-65 | the title shown is never empty: the task's own title, or "未知任务" when there is no task or no title |
| ReviewHandlers.ReviewItemOf | backend/api/handlers/review.go:67-81 | an item carries the review's uuid, rating and comment, the display title, and the reviewer's uuid when the reviewer is on file and zero values otherwise |
| ReviewHandlers.ReceivedListing | backend/api/handlers/review.go:45-51 | the listing holds exactly the user's received reviews, each once by count, newest first |
| ReviewHandlers.FormatReviews | backend/api/handlers/review.go:58-83 | the loop lists every review, in order, as its item |
| ReviewHandlers.CountOfPrefix | backend/api/handlers/review.go:91-94 | the count of a user's reviews grows by one exactly with each received review |
| ReviewHandlers.RatingSumBounds | backend/api/handlers/review.go:91-94 | with ratings in 1..5 the rating sum lies between the count and five times the count |
| ReviewHandlers.Average | backend/api/handlers/review.go:91-94 | the average is 0 with no reviews, and otherwise times the count gives the sum |
| ReviewHandlers.AverageBetween | backend/api/handlers/review.go:91-94 | a mean of ratings in 1..5 lies in 1..5 |
| ReviewHandlers.Stats | backend/api/handlers/review.go:86-101 | the stats hold the number of the user's reviews and their average |
| ReviewHandlers.AverageOnScale | backend/api/handlers/review.go:91-101 | with stored ratings in 1..5, a user with reviews averages between 1 and 5 |
| ReviewHandlers.GetUserReviews | backend/api/handlers/review.go:25-103 | a missing uuid and an unknown user are reported exactly in their cases; otherwise the answer lists the user's received reviews newest first with the count and the average |
| ReviewHandlers.CountRating | backend/api/handlers/review.go:743-748 | a rating's count is at most the number of reviews |
| ReviewHandlers.GroupedBelow | backend/api/handlers/review.go:743-748 | every grouped row holds a rating below the bound that occurs at least once |
| ReviewHandlers.FirstCountCons | backend/api/handlers/review.go:758-763 | the inner loop's lookup stops at the first row with the rating and otherwise looks further |
| ReviewHandlers.GroupedCounts | backend/api/handlers/review.go:743-763 | looking a rating up in the grouped rows finds its count, and 0 for a rating not below the bound |
| ReviewHandlers.Histogram | backend/api/handlers/review.go:755-765 | the histogram has exactly five buckets, rating 5 first, each holding the count its rating's first grouped row gives, or 0 |
| ReviewHandlers.HistogramCounts | backend/api/handlers/review.go:743-765 | each bucket holds the number of the user's reviews with its rating |
| ReviewHandlers.BucketsCoverAll | backend/api/handlers/review.go:755-774 | with ratings in 1..5 the five buckets add up to the user's review count |
| ReviewHandlers.GetUserRatings | backend/api/handlers/review.go:717-788 | a missing uuid and an unknown user are reported exactly in their cases; otherwise five buckets from 5 down to 1 with each rating's count, and the count and average |
| UserHandlers.CheckField | backend/api/handlers/user.go:241-300 | a field passes exactly when it asks for no change, or its new value is well shaped, the lookup works and no other user holds it; then it holds the new value if one was sent and the stored one otherwise; a malformed value is a 400, a failed lookup a 500, a taken value a 409, each exactly in its case |
| UserHandlers.SettingsCheck | backend/api/handlers/user.go:240-301 | the update is accepted exactly when username, email and phone each pass; then only those three columns change, each to the sent value or the stored one; a conflict names a field another user holds |
| UserHandlers.SettingsIdempotent | backend/api/handlers/user.go:240-301 | sending the same settings again changes nothing more, whatever the table and the faults are by then |
| UserHandlers.AcceptedFieldKeepsUnique | backend/api/handlers/user.go:243-253 | a field update that the uniqueness query allowed keeps its column unique |
| UserHandlers.SettingsKeepUnique | backend/api/handlers/user.go:240-308 | usernames, emails and phone numbers that were unique stay unique after an accepted update |
| UserHandlers.QueryHolder | backend/api/handlers/user.go:245 | the query finds a match exactly when a user other than the caller holds the value |
| UserHandlers.ApplyField | backend/api/handlers/user.go:258-278 | the handler's steps for one field give the outcome of the field check |
| UserHandlers.UpdateUserSettings | backend/api/handlers/user.go:217-323 | no logged-in user, a refused field or a failed save leave the users unchanged; otherwise only the caller's row is replaced by the checked one, and no other table changes |
| UserHandlers.PasswordChange | backend/api/handlers/user.go:336-360 | the change succeeds exactly when both fields are given, the current password equals the stored one and the new one has at least six bytes, and then only the password changes; a wrong current password is a 401 exactly in its case |
| UserHandlers.PasswordChangeRoundTrip | backend/api/handlers/user.go:346-360 | changing the password and changing it back restores the user |
| UserHandlers.OldPasswordRejected | backend/api/handlers/user.go:346-350 | after a change to a different password the old one is refused |
| UserHandlers.ChangePassword | backend/api/handlers/user.go:326-370 | no logged-in user, a refused change or a failed save leave the users unchanged; otherwise only the caller's password is replaced |
| UserHandlers.ProfileUpdate | backend/api/handlers/user.go:96-111 | present fields are copied and absent ones kept, the hourly rate only for a worker, and no other column changes |
| UserHandlers.ProfileUpdatesCompose | backend/api/handlers/user.go:96-111 | two updates in a row are one update in which the later request's fields win |
| UserHandlers.EmployerRateKept | backend/api/handlers/user.go:109-111 | a non-worker's hourly rate never changes |
| UserHandlers.NumberSkills | backend/api/handlers/user.go:133-141 | the listed skills are the given names in order, numbered from one |
| UserHandlers.UpdateUserProfile | backend/api/handlers/user.go:77-161 | the fixed demo worker is updated by the request, and the skills listed are the request's, numbered from one, or the two demo skills when none are sent |
| UserHandlers.Ext | backend/api/handlers/user.go:186 | the extension is empty or a dot-led suffix of the name with no further dot and no slash; it is empty only when every dot of the name lies before a slash |
| UserHandlers.UploadAvatar | backend/api/handlers/user.go:164-214 | an upload succeeds exactly when a file is sent, its content type starts with "image/", it is at most 2 MiB and storing works; the URL is the avatar path, the fresh uuid and the file's extension; other refusals are 400 |
| UserHandlers.AvatarUrlEndsWithExtension | backend/api/handlers/user.go:186-212 | the avatar URL keeps the upload's extension and nothing else of its name |
| AuthHandlers.FindUser | backend/api/handlers/auth.go:88-105 | the lookup finds the first stored user that answers the query: a username query finds one exactly when the name is taken, a phone query exactly when the number is, and any other query finds nobody |
| AuthHandlers.Saved | backend/api/handlers/auth.go:52-65 | saving a code replaces the first stored code with the same target and code, and with no such code changes nothing |
| AuthHandlers.SaveIdempotent | backend/api/handlers/auth.go:52-65 | saving the same code twice is saving it once |
| AuthHandlers.SavedIsFound | backend/api/handlers/auth.go:52-65 | once a code is saved over a stored one, the lookup by target and code finds the saved code |
| AuthHandlers.MemDb.constructor | backend/api/handlers/auth.go:26-32 | the store starts with no codes, users or revoked tokens |
| AuthHandlers.MemDb.CreateCode | backend/api/handlers/auth.go:41-43 | a code is appended and the other lists are untouched |
| AuthHandlers.MemDb.CreateAccount | backend/api/handlers/auth.go:44-45 | a user is appended and the other lists are untouched |
| AuthHandlers.MemDb.CreateInvalidated | backend/api/handlers/auth.go:46-47 | a revoked token is appended and the other lists are untouched |
| AuthHandlers.MemDb.SaveCode | backend/api/handlers/auth.go:52-65 | the codes become the saved list and the other lists are untouched |
| AuthHandlers.MemDb.First | backend/api/handlers/auth.go:92-105 | the user lookup returns the first stored user that answers the query, or nothing |
| AuthHandlers.MemDb.FirstCode | backend/api/handlers/auth.go:106-118 | the code lookup returns the first stored code whenever the query is the code query, whatever its arguments, and nothing otherwise |
| AuthHandlers.SendVerificationCode | backend/api/handlers/auth.go:161-194 | a code is sent exactly for an eleven-byte number starting with "1"; it is six digits, the zero-padded random number, stored for that number and expiring ten minutes later; a refusal stores nothing |
| AuthHandlers.RegisterCheck | backend/api/handlers/auth.go:197-281 | a registration is accepted exactly when the fields pass and the phone number or username is free; a taken one is a conflict and bad fields a 400, each exactly in its case; the user keeps the phone (verified now) or the username with the password as given, a zero balance and no identity status |
| AuthHandlers.RegisterKeepsWellFormed | backend/api/handlers/auth.go:284-285 | storing the registered user under the next id keeps ids as positions and no username or phone held twice |
| AuthHandlers.Register | backend/api/handlers/auth.go:197-304 | a refused registration stores nothing; an accepted one stores the user under the number of users plus one, and a signing failure still leaves it stored |
| AuthHandlers.LoginCheck | backend/api/handlers/auth.go:307-355 | missing fields are a 400 exactly in their case; a phone login succeeds exactly for a registered number; a username login signs in a stored user with that username and exactly that password |
| AuthHandlers.UsernameLoginIffCredentials | backend/api/handlers/auth.go:338-354 | in a well-formed store a username login succeeds exactly when a stored user has that username and that password |
| AuthHandlers.PhoneLoginIgnoresCode | backend/api/handlers/auth.go:317-329 | the verification code of a phone login is never compared: any non-empty code gives the same answer |
| AuthHandlers.Login | backend/api/handlers/auth.go:307-389 | the login answers with the checked user, or 500 when signing fails, and writes nothing |
| AuthHandlers.RegisterThenLogin | backend/api/handlers/auth.go:197-355 | after a registration, logging in with the same fields signs in the user just stored |
| AuthHandlers.RegisterTwiceConflicts | backend/api/handlers/auth.go:236-274 | registering the same phone number or username again is refused with a conflict |
| AuthHandlers.Logout | backend/api/handlers/auth.go:392-416 | an empty header is unauthorised; a logout succeeds exactly for a "Bearer <token>" header, and then only that token is listed as revoked for a day |
| AuthMiddleware.BearerToken | backend/api/middlewares/auth.go:108-115 | a header gives a token exactly when it splits on spaces into two parts the first of which is "Bearer"; the header is then "Bearer", a space and the token |
| AuthMiddleware.BearerRoundTrip | backend/api/middlewares/auth.go:108-115 | a header built from a token without spaces gives that token back |
| AuthMiddleware.TokenOf | backend/api/middlewares/auth.go:104-124 | a non-empty header token wins; otherwise the cookie's token is used, and "" when there is none |
| AuthMiddleware.ValidateAsWritten | backend/api/middlewares/auth.go:59-90 | validation panics exactly on a token shorter than ten bytes; a token it accepts is not revoked and parses to the claims returned |
| AuthMiddleware.Validate | backend/api/middlewares/auth.go:62-89 | without the debug line, a token is accepted exactly when it is not revoked and parses, and yields its claims |
| AuthMiddleware.ValidationsAgree | backend/api/middlewares/auth.go:59-90 | on tokens of ten bytes or more the two validations agree |
| AuthMiddleware.IdentityOf | backend/api/middlewares/auth.go:143-166 | a valid token yields an identity exactly when its user is on file and not deactivated, and it is that user's; a missing user is reported as such |
| AuthMiddleware.AuthRequired | backend/api/middlewares/auth.go:93-171 | OPTIONS passes untouched; otherwise a request goes on exactly when its token is present, accepted and names an active user, with that user's identity, and every abort is a 401 |
| AuthMiddleware.OptionalAuth | backend/api/middlewares/auth.go:174-236 | the request always goes on |
| AuthMiddleware.OptionalAgreesWithRequired | backend/api/middlewares/auth.go:174-236 | OptionalAuth sets the identity AuthRequired would set, and none where AuthRequired aborts |
| AuthMiddleware.ShortTokenPanics | backend/api/middlewares/auth.go:60 | a three-byte cookie token makes both middlewares as written answer 500, where AuthRequired as intended answers 401 and OptionalAuth goes on without an identity |
| AuthMiddleware.LongTokensUnaffected | backend/api/middlewares/auth.go:59-236 | with a token of ten bytes or more each middleware as written behaves as intended |
| AuthMiddleware.RevokedTokenRefused | backend/api/middlewares/auth.go:62-67 | a revoked token never yields an identity |
| AuthMiddleware.AdminRequired | backend/api/middlewares/auth.go:239-258 | only an admin passes; no user in the context is a 401 and any other user a 403 |
| AuthMiddleware.EmployerRequired | backend/api/middlewares/auth.go:261-280 | only an employer or an admin passes; no user is a 401 and any other user a 403 |
| AuthMiddleware.WorkerRequired | backend/api/middlewares/auth.go:283-302 | only a worker or an admin passes; no user is a 401 and any other user a 403 |
| AuthMiddleware.GatesNest | backend/api/middlewares/auth.go:239-302 | whoever passes the admin gate passes the other two, and only an admin passes both the employer and the worker gate |
| AuthMiddleware.GatedUserIsActive | backend/api/middlewares/auth.go:143-169 | behind AuthRequired the identity is that of a stored user who is not deactivated |
| ClientApi.CookieText | frontend/lib/api.ts:40 | the value the browser keeps for a cookie write holds no ';' and no whitespace at either end |
| ClientApi.CookieTextOfPlain | frontend/lib/api.ts:40 | a token with no ';' and no surrounding whitespace is stored unchanged |
| ClientApi.Lookup | frontend/lib/api.ts:44-57 | a cookie name has a value exactly when some cookie has that name, and the value is that cookie's |
| ClientApi.Stored | frontend/lib/api.ts:30-42 | setting a cookie adds nothing but that cookie |
| ClientApi.StoredKeepsGood | frontend/lib/api.ts:30-42 | setting a well-formed cookie keeps the jar well formed |
| ClientApi.StoredThenLookup | frontend/lib/api.ts:30-57 | after setting a cookie, reading its name gives its value |
| ClientApi.StoredKeepsOthers | frontend/lib/api.ts:30-57 | setting a cookie leaves every other name's value as it was |
| ClientApi.AppendedKeepsOthers | frontend/lib/api.ts:30-57 | adding a new cookie leaves every other name's value as it was |
| ClientApi.WithoutThenLookup | frontend/lib/api.ts:59-64 | after deleting a cookie, reading its name gives nothing |
| ClientApi.WithoutKeepsGood | frontend/lib/api.ts:59-64 | deleting a cookie keeps the jar well formed |
| ClientApi.FirstCookie | frontend/lib/api.ts:47-56 | getCookie finds nothing exactly when no trimmed segment starts with "name="; otherwise its answer is the text after "name=" in the first such segment |
| ClientApi.ValueAfter | frontend/lib/api.ts:53 | the text after "name=" completes the trimmed segment |
| ClientApi.FirstCookieAt | frontend/lib/api.ts:50-55 | the first segment naming the cookie decides the answer |
| ClientApi.GetCookie | frontend/lib/api.ts:44-57 | getCookie returns the answer of the segment search over the jar text |
| ClientApi.FindCookie | frontend/lib/api.ts:50-56 | the loop returns the text after "name=" of the first trimmed segment that starts with it, or null |
| ClientApi.PrefixMatch | frontend/lib/api.ts:52 | a well-formed cookie's text starts with "name=" exactly when the cookie has that name |
| ClientApi.CookieLookup | frontend/lib/api.ts:44-57 | reading a well-formed jar through document.cookie finds the value of the first cookie with that name: getCookie inverts the browser's jar text |
| ClientApi.SaveToken | frontend/lib/api.ts:89-92 | saving a token sets the session cookie to its stored text and leaves localStorage alone |
| ClientApi.RemoveToken | frontend/lib/api.ts:95-104 | after removal neither the cookie nor localStorage holds a token |
| ClientApi.ReadToken | frontend/lib/api.ts:67-86 | a non-empty cookie token is returned and nothing moves; otherwise a non-empty localStorage token is returned, copied into the cookie and removed from localStorage; with neither the answer is null |
| ClientApi.CookieTokenWins | frontend/lib/api.ts:69-70 | a cookie token wins over a localStorage token, and nothing is moved |
| ClientApi.MigrationSticks | frontend/lib/api.ts:72-82 | once a localStorage token is moved, the next read finds it in the cookie, as the browser stored it, and changes nothing more |
| ClientApi.MigratedTokenUnchanged | frontend/lib/api.ts:72-82 | a token as the server issues it moves unchanged |
| ClientApi.NoTokenAnywhere | frontend/lib/api.ts:85 | with no token anywhere the answer is null and nothing changes |
| ClientApi.RequestHeaders | frontend/lib/api.ts:141-150 | the headers are the caller's (or the JSON default), plus "Authorization: Bearer <token>" exactly when there is a token |
| ClientApi.HeaderReachesMiddleware | frontend/lib/api.ts:144-150 | the header sent carries the token that the backend middleware reads back |
| ClientApi.ReadBody | frontend/lib/api.ts:160-175 | a body that parses is taken as parsed, and the only error is the parser's |
| ClientApi.Respond | frontend/lib/api.ts:157-207 | a network failure is reported as such; the answer is a success exactly for a 2xx status with a readable body; the token is dropped exactly on a 401 when one was sent; a failure carries the response status |
| ClientApi.SuccessPayload | frontend/lib/api.ts:193-197 | on success the payload is the body's data field when truthy, else the whole body, with its message |
| ClientApi.OkStatusIgnoresBodyFlag | frontend/lib/api.ts:177-197 | a 2xx answer is a success even when its body says it failed |
| ClientApi.PlainTextFallback | frontend/lib/api.ts:166-178 | a body that is not JSON is wrapped as a message, a success for 2xx and "Error: <status>" otherwise |
| ClientApi.BackendRefusal | frontend/lib/api.ts:177-190 | a backend refusal reaches the caller as its message and status, and the client logs out exactly when it sent a token and the backend answered 401 |
| ClientApi.Fetch | frontend/lib/api.ts:135-208 | fetchApi reads the token, sends the headers built from it, shapes the server's answer, and removes the token when the answer says so |
| ClientApi.FetchAsWritten | frontend/lib/api.ts:152-155 | as written, the request goes out only when the debug log's JSON.parse of the body does not throw; otherwise the answer is the parse error |
| ClientApi.FormUploadNeverSent | frontend/lib/api.ts:296-302 | as written an avatar upload (a FormData body) never reaches the server: the answer is the same failure whatever the server would say |
| ClientApi.JsonBodiesUnaffected | frontend/lib/api.ts:152-155 | on JSON bodies the debug log changes nothing |
| ClientApi.UploadReachesServer | frontend/lib/api.ts:296-302 | without the throwing log an upload the server accepts comes back as a success with the server's data |
| ClientApi.Browser.constructor | frontend/lib/api.ts:44-104 | a page with a well-formed jar and the given localStorage |
| ClientApi.Browser.SetCookie | frontend/lib/api.ts:30-42 | the jar becomes the jar with the cookie set to its stored text, and localStorage is untouched |
| ClientApi.Browser.DeleteCookie | frontend/lib/api.ts:59-64 | every cookie of that name is removed and localStorage is untouched |
| ClientApi.Browser.SaveAuthToken | frontend/lib/api.ts:89-92 | the page becomes the saved-token page |
| ClientApi.Browser.RemoveAuthToken | frontend/lib/api.ts:95-104 | the page becomes the removed-token page |
| ClientApi.Browser.ReadCookie | frontend/lib/api.ts:44-57 | getCookie on document.cookie returns the value of the first cookie with that name |
| ClientApi.Browser.GetAuthToken | frontend/lib/api.ts:67-86 | the token and the new page are those of the token read |
| ClientApi.Browser.FetchApi | frontend/lib/api.ts:135-208 | the answer and the new page are those of fetchApi without the debug log |
| JsonValues.Or | frontend/app/dashboard/profile/page.tsx:104-106 | JavaScript's `a \|\| b` is truthy exactly when either operand is, and is the first when it is truthy |
| JsonValues.NumberJson | frontend/app/dashboard/tasks/create/page.tsx:78-79 | JSON.stringify writes a finite number as itself and NaN or an infinity as null |
| JsonValues.DecodeString | backend/api/handlers/task.go:33-39 | a Go string field decodes a string, and "" when the key is missing or null; any other type is refused |
| JsonValues.DecodeStringPtr | backend/api/handlers/user.go:20-22 | a Go *string field is nil when unset and the string otherwise; any other type is refused |
| JsonValues.DecodeFloat | backend/api/handlers/task.go:40-41 | a Go float64 field decodes a number, and 0 when unset; any other type is refused |
| JsonValues.DecodeFloatPtr | backend/api/handlers/user.go:23 | a Go *float64 field is nil when unset and the number otherwise |
| JsonValues.DecodeInt | backend/api/handlers/task.go:42 | a Go int field decodes a number without a fraction, and 0 when unset |
| JsonValues.DecodeBool | backend/api/handlers/task.go:44-45 | a Go bool field decodes a boolean, and false when unset |
| JsonValues.DecodeItems | backend/api/handlers/task.go:43 | an array decodes into Go strings exactly when every item is a string or null, item by item |
| JsonValues.DecodeStrings | backend/api/handlers/task.go:43 | a Go []string field is nil when unset, and otherwise the decoded array |
| JsonValues.StringsJson | frontend/app/dashboard/tasks/create/page.tsx:80 | JSON.stringify writes an array of strings item by item |
| JsonValues.StringsRoundTrip | backend/api/handlers/task.go:43 | a string array written by the browser decodes to the same strings in Go |
| JsonValues.NonStringItemRefused | backend/api/handlers/user.go:24 | an array holding an object, number, boolean or array does not decode into strings |
| SkillList.Including | frontend/app/dashboard/tasks/create/page.tsx:315-319 | a recommended-skill click leaves the skill in the list, keeps what was there in order, adds at most that one entry at the end, and never makes a duplicate |
| SkillList.Added | frontend/app/dashboard/tasks/create/page.tsx:48-53 | the add button appends the trimmed entry exactly when it is non-empty and new, else changes nothing; a list without duplicates or untrimmed entries stays so |
| SkillList.Removed | frontend/app/dashboard/tasks/create/page.tsx:55-57 | removing a skill drops every copy of it and keeps every other skill, in order |
| SkillList.RemovedKeepsDistinct | frontend/app/dashboard/tasks/create/page.tsx:55-57 | a removal keeps the list free of duplicates |
| SkillList.SubsequenceKeepsDistinct | frontend/app/dashboard/tasks/create/page.tsx:55-57 | deleting entries from a list without duplicates leaves none |
| SkillList.SubsequenceMembers | frontend/app/dashboard/tasks/create/page.tsx:55-57 | what a filtered list holds, the original held |
| SkillList.AddThenRemove | frontend/app/dashboard/tasks/create/page.tsx:48-57 | removing a skill that was just added gives the list back |
| SkillList.FilterOthers | frontend/app/dashboard/tasks/create/page.tsx:56 | removing a skill that is absent changes nothing |
| SkillList.AddTwice | frontend/app/dashboard/tasks/create/page.tsx:48-53 | adding the same entry twice is adding it once |
| SkillList.RemoveThenAdd | frontend/app/dashboard/tasks/create/page.tsx:48-57 | after a removal the skill can be added again and goes to the end |
| SkillList.RecommendedLikeTyped | frontend/app/dashboard/tasks/create/page.tsx:310-319 | clicking a recommended skill does what typing it and pressing the add button does |
| SkillList.IncludingRecommendedKeepsValid | frontend/app/dashboard/tasks/create/page.tsx:310-319 | a recommended skill keeps the list free of duplicates and of untrimmed entries |
| SkillList.Editor.constructor | frontend/app/dashboard/tasks/create/page.tsx:41-42 | the editor opens empty and valid |
| SkillList.Editor.Load | frontend/app/dashboard/profile/page.tsx:138 | the skills loaded from the server replace the list and the text box is kept |
| SkillList.Editor.Type | frontend/app/dashboard/tasks/create/page.tsx:276-277 | typing changes only the text box |
| SkillList.Editor.AddSkill | frontend/app/dashboard/tasks/create/page.tsx:48-53 | the list becomes the added list, the box is cleared exactly when the entry is taken, and a valid editor stays valid |
| SkillList.Editor.RemoveSkill | frontend/app/dashboard/tasks/create/page.tsx:55-57 | the list becomes the removed list, the box is kept, and a valid editor stays valid |
| SkillList.Editor.AddRecommended | frontend/app/dashboard/tasks/create/page.tsx:315-319 | the list becomes the list including that skill, the box is kept, and a valid editor stays valid |
| CreateTaskPage.LocationText | frontend/app/dashboard/tasks/create/page.tsx:74 | an offline task sends the location typed, any other sends "线上远程"; a form that passes the page's check never sends an empty location |
| CreateTaskPage.PageKeysUnread | backend/api/handlers/task.go:32-46 | the page's `budget` and `location` keys are not keys the create-task request reads |
| CreateTaskPage.BindTask | backend/api/handlers/task.go:177-181 | a body that binds gives the budget, the location details and the skills as their Go fields decode them |
| CreateTaskPage.CreateRefusedAsWritten | frontend/app/dashboard/tasks/create/page.tsx:70-83 | as written, every form an employer submits is refused with 400, because the budget sent under `budget` binds as a zero `budget_amount` |
| CreateTaskPage.BodyWithBinds | backend/api/handlers/task.go:32-46 | a body with numbers for budget and headcount, a whole headcount and a string array of skills binds field by field |
| CreateTaskPage.BodyBinds | frontend/app/dashboard/tasks/create/page.tsx:70-83 | the body under the request's keys binds to the form's fields, skills in order |
| CreateTaskPage.SubmittedFormBinds | frontend/app/dashboard/tasks/create/page.tsx:59-83 | a form that passes the page's check, with an offered location and payment type, a positive budget and a positive whole headcount, meets the request's binding rules |
| CreateTaskPage.SubmittedFormAccepted | backend/api/handlers/task.go:162-215 | with dates the handler accepts, the handler's checks pass for an employer's such form |
| CreateTaskPage.SubmittedFormCreates | backend/api/handlers/task.go:216-240 | such a form is created, and the stored task keeps the budget typed and, for an offline task, the location typed |
| ProfilePage.SkillEntry | frontend/app/dashboard/profile/page.tsx:128-134 | a string entry stays; a truthy result of any other entry is an object's `name`; every other entry gives "" |
| ProfilePage.Entries | frontend/app/dashboard/profile/page.tsx:128-134 | the skills array maps entry by entry |
| ProfilePage.NormalisedSkills | frontend/app/dashboard/profile/page.tsx:123-144 | the loaded list holds only truthy entries, no more than the array had, and is empty when the skills field is missing, falsy or not an array |
| ProfilePage.Texts | frontend/app/dashboard/profile/page.tsx:138 | skill names become JSON strings one by one |
| ProfilePage.TextsLoad | frontend/app/dashboard/profile/page.tsx:135 | JSON strings load as those strings, the empty ones dropped, in order |
| ProfilePage.NamedEntriesLoad | frontend/app/dashboard/profile/page.tsx:128-135 | entries that each give a name load as those names, the empty ones dropped, in order |
| ProfilePage.ArrayLoads | frontend/app/dashboard/profile/page.tsx:123-135 | an array, even an empty one, is truthy, so its entries load |
| ProfilePage.NamesLoad | frontend/app/dashboard/profile/page.tsx:123-138 | an array of skill names loads as the names that are not empty |
| ProfilePage.SkillJson | backend/api/handlers/user.go:133-141 | a skill the backend answers with is an object whose `name` is the skill's name |
| ProfilePage.SkillsJson | backend/api/handlers/user.go:133-141 | the backend's skills array has one object per skill, in order |
| ProfilePage.BackendSkillsLoad | frontend/app/dashboard/profile/page.tsx:126-138 | the skill objects the backend answers with load as their non-empty names, in order |
| ProfilePage.DemoSkillsLoad | frontend/app/dashboard/profile/page.tsx:126-138 | the profile handlers' fixed skills load as "UI设计" and "Web开发" |
| ProfilePage.Normalised | frontend/app/dashboard/profile/page.tsx:99-107 | the avatar is `avatar_url` when truthy, else `avatar`; the verified flag is truthy exactly when either source flag is, else false; the name is present exactly when one of `name`, `full_name`, `username` is, and is `name` when that is truthy |
| ProfilePage.BackendProfileFallbacks | frontend/app/dashboard/profile/page.tsx:104-106 | over the backend's profile the page's flag is `is_identity_verified` and an empty or null name is missing |
| ProfilePage.SkillObjects | frontend/app/dashboard/profile/page.tsx:202 | the save wraps each skill, in order, in an object holding its name |
| ProfilePage.BindProfile | backend/api/handlers/user.go:77-87 | the profile body binds exactly when every field decodes by its Go pointer type; any failure is a 400 refusal, and the bound skills are the decoded ones |
| ProfilePage.SaveRefusedAsWritten | frontend/app/dashboard/profile/page.tsx:202-210 | as written a save with any skill in the list is refused with 400, and a save with none binds |
| ProfilePage.SaveBinds | backend/api/handlers/user.go:19-25 | the body with skills as strings binds to the form's name, bio, location, rate and skills, in order |
| ProfilePage.SavedSkillsLoadBack | frontend/app/dashboard/profile/page.tsx:126-138 | a saved list of clean skills comes back from the handler's answer as the same names in the same order |
| PaymentsPage.HandleWithdraw | frontend/app/dashboard/payments/page.tsx:64-86 | the notice is the low-balance one exactly when the balance is not positive, the no-account one exactly when it is positive and no account is listed, and "coming soon" otherwise |
| PaymentsPage.RangeStart | frontend/app/dashboard/payments/page.tsx:122-137 | only "today", "week" and "month" bound the list, at local midnight, 7 days and 30 days before it |
| PaymentsPage.ByTab | frontend/app/dashboard/payments/page.tsx:105-110 | the tab step keeps exactly the transactions on that tab, in order |
| PaymentsPage.BySearch | frontend/app/dashboard/payments/page.tsx:112-119 | the search step keeps exactly the transactions matching the search, in order |
| PaymentsPage.ByRange | frontend/app/dashboard/payments/page.tsx:121-139 | the date step keeps exactly the transactions in the range, in order |
| PaymentsPage.FilterTransactions | frontend/app/dashboard/payments/page.tsx:100-142 | no transactions field lists nothing |
| PaymentsPage.FilterChainIsOneFilter | frontend/app/dashboard/payments/page.tsx:100-142 | the three filters in turn are one filter by all three conditions |
| PaymentsPage.ListedIff | frontend/app/dashboard/payments/page.tsx:100-142 | a transaction is listed exactly when it is among the page's transactions and passes tab, search and range, and the list keeps their order |
| PaymentsPage.NoFilterListsAll | frontend/app/dashboard/payments/page.tsx:100-142 | with no search and no range the "all" tab lists every transaction as it came |
| PaymentsPage.RangesNest | frontend/app/dashboard/payments/page.tsx:128-135 | what today keeps the week keeps, and what the week keeps the month keeps |
| PaymentsPage.UnparseableDateDropped | frontend/app/dashboard/payments/page.tsx:126-138 | a transaction whose date does not parse is dropped by every bounded range |
| PaymentsPage.FromItem | backend/api/handlers/payment.go:434-448 | an overview item reads as income or expense, expense exactly for money going out |
| PaymentsPage.FromOverview | frontend/app/dashboard/payments/page.tsx:46-49 | the page keeps the overview's balance and its items in order, and gets no withdrawal accounts |
| PaymentsPage.OverviewNeverOffersWithdrawal | frontend/app/dashboard/payments/page.tsx:67-76 | over the backend's overview the withdraw button stops at the low-balance or the no-account notice, and always at the latter when the balance is positive |
| PaymentsPage.TabsSplitOverview | frontend/app/dashboard/payments/page.tsx:105-110 | over the backend's overview the income and expense tabs split the "all" tab: each listed transaction is on exactly one |
| TasksPage.FilteredTasks | frontend/app/dashboard/tasks/page.tsx:61-71 | a card is listed exactly when it is in the list and matches the search and the status menu, and the list keeps its order |
| TasksPage.EmptySearchListsAll | frontend/app/dashboard/tasks/page.tsx:61-71 | an empty search with the menu on "all" lists every card as it came |
| TasksPage.StatusBadge | frontend/app/dashboard/tasks/page.tsx:46-59 | a badge shows exactly for recruiting, in progress, completed and closed |
| TasksPage.BadgedStates | frontend/app/dashboard/tasks/page.tsx:46-59 | of the seven task states, pending approval, payment pending and rejected show no badge, and the other four each have their own |
| TasksPage.MenuChoicesShowTheirBadge | frontend/app/dashboard/tasks/page.tsx:123-127 | every menu choice but "all" names a task state, and a card listed under it shows that choice's badge |
| Sidebar.Role | frontend/components/dashboard/sidebar.tsx:82 | a user has a role exactly when there is a user whose type is set and not empty, and the role is that type |
| Sidebar.Visible | frontend/components/dashboard/sidebar.tsx:80-84 | a link shows exactly when it is in the bar and is unrestricted or lists the user's role, in the bar's order |
| Sidebar.NoRoleSeesUnrestricted | frontend/components/dashboard/sidebar.tsx:81-82 | without a role exactly the unrestricted links show |
| Sidebar.CreateLinkForEmployers | frontend/components/dashboard/sidebar.tsx:45-50 | the new-task link shows exactly to employers |
| Sidebar.AdminLinkForAdmins | frontend/components/dashboard/sidebar.tsx:66-71 | the admin link shows exactly to admins |
| Sidebar.CreateLinkMatchesHandler | backend/api/handlers/task.go:162-175 | the new-task link shows to exactly the users the create-task handler does not refuse for their role |
| Sidebar.AdminLinkMatchesGate | backend/api/middlewares/auth.go:239-258 | the admin link shows to exactly the users the admin gate lets through |
| Dates.DaysIn | backend/api/handlers/task.go:182-191 | a month has 28 to 31 days, and 29 exactly for February of a leap year |
| Dates.BeforeTotal | backend/api/handlers/task.go:193-199 | of two different days exactly one is first, and no day is before itself |
| Dates.BeforeTransitive | backend/api/handlers/task.go:193-199 | a day before a day before a third is before the third |
| Dates.Field | backend/api/handlers/task.go:182 | a fixed-width numeric field reads exactly when all its characters are digits, as their value |
| Dates.ParseDate | backend/api/handlers/task.go:182-191 | time.Parse with "2006-01-02" accepts only ten characters with dashes at 4 and 7, and only real calendar dates |
| Dates.DigitsBelowPow10 | backend/api/handlers/task.go:182 | k digits denote a number below 10^k |
| Dates.FormatDate | backend/api/handlers/task.go:269-270 | a date prints as ten characters with dashes at 4 and 7 |
| Dates.PaddedFields | backend/api/handlers/task.go:269-270 | year, month and day of a printable date fill four, two and two digits |
| Dates.FormattedFields | backend/api/handlers/task.go:269-270 | the printed fields sit at their fixed positions |
| Dates.ParseFormat | backend/api/handlers/task.go:182-191 | parsing a printed date gives the date back |
| Dates.FormatParsed | backend/api/handlers/task.go:182-191 | a date text the parser accepts prints back as the same text |
| Dates.Reassembled | backend/api/handlers/task.go:182 | a ten-character date text is its three fields joined by dashes |
| Numbers.NaNUnordered | backend/api/handlers/payment.go:511-531 | every comparison with NaN is false |
| Numbers.FiniteCompare | backend/api/handlers/payment.go:511-531 | on finite values the comparisons are those of the reals |
| Numbers.DigitChar | backend/api/handlers/payment.go:498 | each digit value has a digit character that reads back as it |
| Numbers.Pow10 | backend/api/handlers/payment.go:498 | powers of ten are positive |
| Numbers.DigitsValueAppend | backend/api/handlers/payment.go:498 | the value of joined digit strings is the first shifted by the second's length plus the second |
| Numbers.ShiftProduct | backend/api/handlers/payment.go:498 | shifting a digit string left is multiplying its value by ten |
| Numbers.NatToDigits | frontend/lib/api.ts:178 | the decimal numeral of n is non-empty, all digits, and reads back as n |
| Numbers.NatToDigitsLength | backend/api/handlers/task.go:269-270 | a number below 10^k has at most k digits |
| Numbers.FitsWidth | backend/api/handlers/task.go:269-270 | a number below 10^width fits in width digits |
| Numbers.Zeros | backend/api/handlers/task.go:269-270 | k zeros are k digits of value 0 |
| Numbers.ZeroPadded | backend/api/handlers/task.go:269-270 | %0<width>d is all digits, reads back as n, and is exactly width long when n fits |
| Numbers.DigitsInjective | backend/api/handlers/task.go:182-191 | two digit strings of one length and one value are equal |
| Numbers.ParseExponent | backend/api/handlers/payment.go:498 | an accepted exponent is made only of numeral characters |
| Numbers.ParseMantissa | backend/api/handlers/payment.go:498 | an accepted mantissa is made only of numeral characters and is not negative |
| Numbers.ParseUnsigned | backend/api/handlers/payment.go:498 | an accepted unsigned numeral is made only of numeral characters |
| Numbers.ParseDecimal | backend/api/handlers/payment.go:498 | an accepted numeral is non-empty and made only of numeral characters |
| Numbers.DigitsParse | backend/api/handlers/payment.go:498 | a plain string of digits reads as its value |
| Numbers.GoSpecial | backend/api/handlers/payment.go:498 | the special words strconv.ParseFloat accepts all hold a non-numeral character |
| Numbers.GoParseFloat | backend/api/handlers/payment.go:497-503 | a decimal numeral parses as its value, and the result is NaN exactly for "nan" in any case |
| Numbers.JsNumber | frontend/app/dashboard/tasks/create/page.tsx:78-79 | Number() of blank text is 0, and of a decimal numeral with surrounding whitespace is its value |
| Strings.ContainsAt | frontend/app/dashboard/payments/page.tsx:115-118 | includes() holds exactly when the piece occurs at some position |
| Strings.EmptyContained | frontend/app/dashboard/tasks/page.tsx:63-65 | every string includes the empty string |
| Strings.ToLower | frontend/app/dashboard/payments/page.tsx:114 | lower-casing keeps the length, maps each character, and leaves no ASCII capital |
| Strings.ToLowerIdempotent | frontend/app/dashboard/payments/page.tsx:114-117 | lower-casing twice is lower-casing once |
| Strings.TrimStart | frontend/lib/api.ts:50 | the leading trim is a suffix starting with a non-space, and everything dropped is whitespace |
| Strings.TrimEnd | frontend/lib/api.ts:50 | the trailing trim is a prefix ending with a non-space, and everything dropped is whitespace |
| Strings.Trim | frontend/lib/api.ts:50 | trim() neither starts nor ends with whitespace |
| Strings.TrimIsPiece | frontend/lib/api.ts:50 | the trim is a contiguous piece of the string |
| Strings.TrimEmpty | frontend/app/dashboard/tasks/create/page.tsx:49 | the trim is empty exactly when the string is all whitespace |
| Strings.TrimmedOccurs | frontend/lib/api.ts:50 | a prefix of a suffix occurs at the suffix's start |
| Strings.TrimmedAwayIsSpace | frontend/lib/api.ts:50 | a string whose dropped prefix and remainder are whitespace is all whitespace |
| Strings.TrimOfTrimmed | frontend/app/dashboard/tasks/create/page.tsx:49-50 | a string without surrounding whitespace is its own trim |
| Strings.IndexOf | frontend/lib/api.ts:40 | the first position of a character, or none exactly when it is absent |
| Strings.Split | frontend/lib/api.ts:48 | split gives at least one piece, none holding the separator, and joining them gives the string back |
| Strings.SplitJoin | frontend/lib/api.ts:48 | splitting joined separator-free pieces gives the pieces back |
| Strings.SplitAtFirst | frontend/lib/api.ts:48 | split cuts at the first separator and splits the rest |
| Strings.IndexOfAfterFree | frontend/lib/api.ts:40 | the first separator after a separator-free prefix is at the prefix's length |
| Strings.Utf8Width | backend/api/handlers/auth.go:258-267 | a character takes one to four UTF-8 bytes, one exactly for ASCII |
| Strings.ByteLength | backend/api/handlers/auth.go:258-267 | Go's len of a string lies between its character count and four times it |
| Strings.AsciiByteLength | backend/api/middlewares/auth.go:60 | on ASCII text Go's len is the character count |
| Seqs.Filter | frontend/app/dashboard/payments/page.tsx:100-142 | filter keeps at most the elements, each from the list and passing, and keeps every passing one |
| Seqs.FilterIsSubsequence | frontend/app/dashboard/payments/page.tsx:100-142 | a filter keeps the order of what it keeps |
| Seqs.FilterFilter | frontend/app/dashboard/payments/page.tsx:100-142 | filtering by one predicate and then another is filtering by both |
| Seqs.FilterAppend | frontend/app/dashboard/profile/page.tsx:128-135 | filtering distributes over concatenation |
| Seqs.FilterAll | frontend/app/dashboard/tasks/page.tsx:61-71 | a predicate every element passes changes nothing |
| Seqs.FilterAgrees | frontend/app/dashboard/payments/page.tsx:100-142 | predicates agreeing on every element filter alike |
| Seqs.Count | backend/api/handlers/review.go:743-774 | a count is at most the length, and zero exactly when nothing passes |
| Seqs.CountIsFilterLength | backend/api/handlers/review.go:743-774 | a count is the filter's length |
| Seqs.CountSnoc | backend/api/handlers/review.go:743-774 | counting one more element at the end adds one exactly when it passes |
| Seqs.FirstIndex | backend/api/handlers/auth.go:88-105 | the first position that passes, or none exactly when nothing passes |
| Seqs.FirstIndexAgrees | backend/api/handlers/auth.go:88-105 | sequences that agree on the predicate position by position have the same first position |
| Seqs.FirstIndexAgreesAcross | backend/api/handlers/auth.go:88-105 | the same across two sequences and two predicates |
| Seqs.FirstIndexAt | backend/api/handlers/auth.go:88-105 | the first passing position is the one found |
| Seqs.Positions | backend/api/handlers/task.go:671-677 | the passing positions in increasing order, all of them |
| Seqs.InsertDescending | backend/api/handlers/review.go:50 | inserting adds exactly that element |
| Seqs.InsertKeepsDescending | backend/api/handlers/review.go:50 | inserting into a newest-first list keeps it newest first |
| Seqs.SortDescending | backend/api/handlers/review.go:50 | ORDER BY ... DESC is a permutation |
| Seqs.SortIsDescending | backend/api/handlers/review.go:50 | ORDER BY ... DESC is descending |
| Seqs.SameMembers | backend/api/handlers/review.go:50 | two sequences with one multiset have the same elements |
| Seqs.Top | backend/api/handlers/payment.go:426-429 | LIMIT n returns at most n rows |
| Seqs.TopAreLargest | backend/api/handlers/payment.go:426-429 | ORDER BY ... DESC LIMIT n returns rows of the table, largest first, as many as there are up to n, and nothing left out is larger than a row returned |
| Http.Status | backend/api/handlers/task.go:162-276 | each refusal reason has the status the handlers answer with |

## Left out

- JWT signing and parsing: the library calls are a parameter (`parse`) and a fixed signing outcome; token contents are not modelled.
- Clocks, uuid generation and the random six-digit code are parameters; the zero-padding of the code is modelled.
- Concurrency: the in-memory store's mutex, and the race between the withdrawal's balance check and its database transaction (the check reads the balance before the transaction opens), are not modelled; each handler runs alone.
- Floating point: money is a real number, with no rounding and no `%.2f` formatting; only the withdrawal amount models NaN and the infinities, because the Finding below depends on them. The text of a transaction description is a parameter.
- GetTasks: only the pagination arithmetic is modelled, not the query filters, search or the preloaded relations.
- GetPendingReviews, the dashboard handlers, DeleteAccount and the handlers that answer fixed demo data (wallet, transactions list, withdrawal creation, payment settings, user profile, admin dashboard, review report) are outside this model.
- Logging, the HTTP response bodies beyond the fields the model states, and the frontend's rendering and toasts are not modelled.
- Cookie attributes (expiry, path, SameSite, Secure) are not modelled: a cookie is a name and a value.
- JavaScript `toLowerCase` and `trim` are modelled on ASCII only; Unicode case mapping and Unicode whitespace are not.
- Go's JSON decoding is modelled for the field types the requests use; case-insensitive key matching and integers written with an exponent are not modelled.
- `parseFloat` in the profile page and `new Date(...)` in the payments page are parameters.
- The tasks page lists a fixed empty array after a timer; the model takes the list as input.
- The create page's "agreed" checkbox and the profile page's unwrapping of the user object from the response are not modelled.
- URL building in `lib/api.ts` and the API wrapper functions other than `fetchApi` and the avatar upload are not modelled.
- Database read failures: only the worker load inside the payout loop and the uniqueness query of the settings handler can fail with an error other than not-found in the model. Every other lookup either finds its row or reports not-found, so the 500 answers the handlers give for other read errors (for example backend/api/handlers/task.go:556-563, 567-575, 651-656 and 673-676) never arise.
- PaymentHandlers.RequestWithdrawal: runs the corrected amount guard PaymentHandlers.WithdrawalCheck, the corrected half of the first Findings row. The guard the source runs is PaymentHandlers.WithdrawalCheckAsWritten; the two agree on every amount but NaN (PaymentHandlers.ChecksAgreeBesideNaN), so on `{"amount":"NaN","alipay_account":"a"}` the source writes a NaN withdrawal where the model refuses with 400. PaymentHandlers.WithdrawalNeverOverdraws is proved of the corrected handler.
- Numbers.GoParseFloat: decimal input only. strconv.ParseFloat's range error is not modelled, so "1e400" gives a huge finite value where Go answers ErrRange (a 400 "金额格式错误" in the withdrawal); hexadecimal floats such as "0x1p4" (16 in Go) and underscores are refused.
- Numbers.JsNumber: decimal input only. Hexadecimal, octal and binary literals such as "0x10" (16 in JavaScript) give NaN, and overflow such as "1e400" gives a finite value where JavaScript gives Infinity, which JSON.stringify would send as null.
- AuthMiddleware.IdentityOf: the source tests `!user.DeletedAt.Time.IsZero()` on a `*time.Time` field (backend/models/user.go:51), which does not type-check as written; the model reads it as "a user with a deletion time set is deactivated".
- The controllers package, the login, register and settings pages, and server-side rendering are not part of this model.
- ApplicationModel.TaskApplication.Accept: idempotence is not stated as a separate lemma; it follows from the ensures, since the new row differs from the old only in a status already set.
- ApplicationModel.TaskApplication.Reject: idempotence follows from the ensures in the same way.
- ApplicationModel.TaskApplication.Withdraw: idempotence follows from the ensures in the same way.
- UserHandlers.UpdateUserProfile: the handler saves nothing, and the model states the answer it computes.
- PaymentHandlers.AddWithdrawalAccount: the handler stores nothing; the model states only its validation and answer.

## Findings

| source | as written | input that shows it | evidently intended | confidence | as-written member | corrected member |
|---|---|---|---|---|---|---|
| backend/api/handlers/payment.go:511-531 | the amount guards `amount <= 0` and `balance < amount` are both false for NaN, so a withdrawal of NaN is admitted: the Go balance computed and saved is NaN, and the pending transaction's amount is NaN (what the decimal column then stores is not modelled) | `{"amount":"NaN","alipay_account":"x"}` from any user on file | an amount that is not a positive number is refused | not executed | PaymentHandlers.NaNWithdrawalAdmittedAsWritten | PaymentHandlers.NaNWithdrawalRefused |
| backend/api/middlewares/auth.go:60 | the debug line slices `token[:10]` before validation, so a token shorter than ten bytes panics in both middlewares | a cookie `auth_token=abc` | a short token is refused with 401, or passes OptionalAuth without identity | not executed | AuthMiddleware.ShortTokenPanics | AuthMiddleware.LongTokensUnaffected |
| frontend/lib/api.ts:152-155 | the debug log runs `JSON.parse` on every truthy body before `fetch`, which throws on a FormData body | uploading an avatar | the request is sent and its answer shaped | not executed | ClientApi.FormUploadNeverSent | ClientApi.UploadReachesServer |
| frontend/app/dashboard/profile/page.tsx:202 | skills are sent as `{name}` objects, but the handler binds `skills` as `*[]string`, so saving a profile with any skill is refused with 400 | saving a profile with skills `["Go"]` | skills sent as strings | not executed | ProfilePage.SaveRefusedAsWritten | ProfilePage.SaveBinds |
| frontend/app/dashboard/tasks/create/page.tsx:74-78 | the body carries `location` and `budget`, but the request reads `location_details` and `budget_amount` (required, greater than 0), so every task an employer submits is refused with 400 | any filled-in form from an employer | the body uses the request's keys | not executed | CreateTaskPage.CreateRefusedAsWritten | CreateTaskPage.SubmittedFormCreates |
