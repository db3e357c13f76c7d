/**
 * The task list page (frontend/app/dashboard/tasks/page.tsx): a search
 * box and a status menu filter the task cards, and each card shows a
 * badge for its status.
 */
module TasksPage {
  import opened Wrappers
  import opened Strings
  import opened Seqs
  import opened TaskModel

  /** The fields of a task the page reads. */
  datatype TaskCard = TaskCard(title: string, description: string, status: string)

  /**
   * A card is listed when its title or its description holds the search
   * text, ignoring case, and the status menu is on "all" or on its status.
   */
  predicate Matches(search: string, statusFilter: string, t: TaskCard)
  {
    && (Contains(ToLower(t.title), ToLower(search)) || Contains(ToLower(t.description), ToLower(search)))
    && (statusFilter == "all" || t.status == statusFilter)
  }

  function MatchesOf(search: string, statusFilter: string): TaskCard -> bool
  {
    (t: TaskCard) => Matches(search, statusFilter, t)
  }

  /** filteredTasks: the matching cards, in the order the list holds them. */
  function FilteredTasks(tasks: seq<TaskCard>, search: string, statusFilter: string): (r: seq<TaskCard>)
    ensures IsSubsequence(r, tasks)
    ensures forall t :: t in r <==> t in tasks && Matches(search, statusFilter, t)
  {
    FilterIsSubsequence(tasks, MatchesOf(search, statusFilter));
    Filter(tasks, MatchesOf(search, statusFilter))
  }

  /** An empty search matches every card; with the menu on "all" the whole list shows. */
  lemma EmptySearchListsAll(tasks: seq<TaskCard>)
    ensures FilteredTasks(tasks, "", "all") == tasks
  {
    forall k | 0 <= k < |tasks|
      ensures MatchesOf("", "all")(tasks[k])
    {
      EmptyContained(ToLower(tasks[k].title));
    }
    FilterAll(tasks, MatchesOf("", "all"));
  }

  /** The badge text of a status; the other statuses show no badge. */
  function StatusBadge(status: string): (r: Option<string>)
    ensures r.Some? <==> status in {"recruiting", "in_progress", "completed", "closed"}
  {
    match status
    case "recruiting" => Some("招聘中")
    case "in_progress" => Some("进行中")
    case "completed" => Some("已完成")
    case "closed" => Some("已关闭")
    case _ => None
  }

  /**
   * Of the seven task states, the ones a task waits in before and after
   * recruiting (pending approval, payment pending, rejected) have no
   * badge; the other four each have their own.
   */
  lemma BadgedStates(s: TaskStatus, u: TaskStatus)
    ensures StatusBadge(s.Name()).None? <==> s in {PendingApproval, PaymentPending, Rejected}
    ensures StatusBadge(s.Name()).Some? && StatusBadge(u.Name()) == StatusBadge(s.Name()) ==> s == u
  {
  }

  /** The choices of the status menu. */
  const StatusMenu: seq<string> := ["all", "recruiting", "in_progress", "completed", "closed"]

  /**
   * Every choice of the status menu but "all" names a task state, and a
   * card listed under it shows that choice's badge.
   */
  lemma MenuChoicesShowTheirBadge(tasks: seq<TaskCard>, search: string, choice: string, t: TaskCard)
    requires choice in StatusMenu && choice != "all"
    ensures exists s: TaskStatus :: s.Name() == choice
    ensures t in FilteredTasks(tasks, search, choice) ==> StatusBadge(t.status) == StatusBadge(choice) && StatusBadge(choice).Some?
  {
    if choice == "recruiting" {
      assert Recruiting.Name() == choice;
    } else if choice == "in_progress" {
      assert InProgress.Name() == choice;
    } else if choice == "completed" {
      assert Completed.Name() == choice;
    } else {
      assert Closed.Name() == choice;
    }
  }
}
