/**
 * The dashboard's side bar (frontend/components/dashboard/sidebar.tsx):
 * eight links, two of them restricted to a user type; the bar shows the
 * links the signed-in user may use.
 */
module Sidebar {
  import opened Wrappers
  import opened Seqs
  import opened UserModel
  import AuthMiddleware
  import TaskHandlers
  import Http
  import Dates

  /** A link; `restrictTo`, when there, lists the user types that see it. */
  datatype NavItem = NavItem(href: string, title: string, restrictTo: Option<seq<string>>)

  const CreateTaskItem: NavItem := NavItem("/dashboard/tasks/create", "创建任务", Some(["employer"]))
  const AdminItem: NavItem := NavItem("/dashboard/admin", "管理后台", Some(["admin"]))

  const NavItems: seq<NavItem> := [
    NavItem("/dashboard", "概览", None),
    NavItem("/dashboard/profile", "个人资料", None),
    CreateTaskItem,
    NavItem("/dashboard/tasks", "任务管理", None),
    NavItem("/dashboard/payments", "财务管理", None),
    NavItem("/dashboard/settings", "设置", None),
    AdminItem,
    NavItem("/api-test", "API测试", None)
  ]

  /** The signed-in user as the auth context holds it; `userType` may be missing. */
  datatype SessionUser = SessionUser(userType: Option<string>)

  /** The user's type when there is a user and the type is there and not empty. */
  function Role(user: Option<SessionUser>): (r: Option<string>)
    ensures r.Some? <==> user.Some? && user.value.userType.Some? && user.value.userType.value != ""
    ensures r.Some? ==> r.value == user.value.userType.value
  {
    if user.None? || user.value.userType.None? || user.value.userType.value == "" then None
    else user.value.userType
  }

  /** An unrestricted link shows to everyone; a restricted one to a role it lists. */
  predicate Shown(user: Option<SessionUser>, item: NavItem)
  {
    if item.restrictTo.None? then true
    else if Role(user).None? then false
    else Role(user).value in item.restrictTo.value
  }

  function ShownTo(user: Option<SessionUser>): NavItem -> bool
  {
    (item: NavItem) => Shown(user, item)
  }

  /** filteredNavItems: the links shown, in the bar's order. */
  function Visible(items: seq<NavItem>, user: Option<SessionUser>): (r: seq<NavItem>)
    ensures IsSubsequence(r, items)
    ensures forall item :: item in r <==>
      item in items && (item.restrictTo.None? || (Role(user).Some? && Role(user).value in item.restrictTo.value))
  {
    FilterIsSubsequence(items, ShownTo(user));
    Filter(items, ShownTo(user))
  }

  /** Without a user type only the unrestricted links show, all of them. */
  lemma NoRoleSeesUnrestricted(items: seq<NavItem>, user: Option<SessionUser>)
    requires Role(user).None?
    ensures forall item :: item in Visible(items, user) <==> item in items && item.restrictTo.None?
  {
  }

  /** The user one of the backend's user types signs in as. */
  function As(t: UserType): SessionUser
  {
    SessionUser(Some(t.Name()))
  }

  /** The link to the new-task page shows only to employers. */
  lemma CreateLinkForEmployers(t: UserType)
    ensures CreateTaskItem in Visible(NavItems, Some(As(t))) <==> t == Employer
  {
    assert CreateTaskItem == NavItems[2];
  }

  /** The admin link shows only to admins. */
  lemma AdminLinkForAdmins(t: UserType)
    ensures AdminItem in Visible(NavItems, Some(As(t))) <==> t == Admin
  {
    assert AdminItem == NavItems[6];
  }

  /**
   * The create link shows to exactly the users the new-task handler does
   * not refuse for their role (the route's employer gate also lets admins
   * through; the handler then refuses them).
   */
  lemma CreateLinkMatchesHandler(users: seq<UserRow>, key: nat, body: Option<TaskHandlers.CreateTaskRequest>, today: Dates.Date)
    requires 1 <= key <= |users|
    ensures CreateTaskItem in Visible(NavItems, Some(As(users[key - 1].userType))) <==>
      TaskHandlers.CreateCheck(users, body, Some(key), today) != Err(Http.WrongRole)
  {
    CreateLinkForEmployers(users[key - 1].userType);
  }

  /** The admin link shows to exactly the users the admin gate lets through. */
  lemma AdminLinkMatchesGate(identity: AuthMiddleware.Identity)
    ensures AdminItem in Visible(NavItems, Some(As(identity.user.userType))) <==>
      AuthMiddleware.AdminRequired(Some(identity)).None?
  {
    AdminLinkForAdmins(identity.user.userType);
  }
}
