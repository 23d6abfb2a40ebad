/** The mobile navigation drawer: which main items a user sees, which badges
    appear, and the user card at the bottom. Nothing is drawn while the
    drawer is closed. */
module MobileSidebar {
  import opened Seqs
  import opened Types
  import opened BudgetContext

  datatype NavItem = NavItem(name: string, href: string)

  const Navigation: seq<NavItem> := [
    NavItem("Overview", "/"),
    NavItem("Budgets", "/budgets"),
    NavItem("Anomalies", "/anomalies"),
    NavItem("Reports", "/reports")
  ]

  predicate IsFinanceHead(user: Option<User>) {
    user.Some? && user.value.role == FinanceHead
  }

  predicate IsHrAdmin(user: Option<User>) {
    user.Some? && user.value.role == HrAdmin
  }

  /** The filter on the main menu: "Reports" only for the finance head. */
  function ShowsItem(user: Option<User>): NavItem -> bool {
    (item: NavItem) => !(item.name == "Reports" && !IsFinanceHead(user))
  }

  function VisibleNavigation(user: Option<User>): seq<NavItem> {
    Filter(Navigation, ShowsItem(user))
  }

  /** Overview, Budgets and Anomalies pass the filter for everyone. */
  lemma FirstThreeShown(user: Option<User>)
    ensures forall i :: 0 <= i < 3 ==> ShowsItem(user)(Navigation[i])
  {
    assert Navigation[0].name[0] == 'O' && Navigation[1].name[0] == 'B' && Navigation[2].name[0] == 'A';
  }

  /** The filter keeps the first three items and decides only on the last. */
  lemma VisibleSplit(user: Option<User>)
    ensures VisibleNavigation(user) == Navigation[..3] + Filter(Navigation[3..], ShowsItem(user))
  {
    var p := ShowsItem(user);
    assert Navigation == Navigation[..3] + Navigation[3..];
    FilterAppend(Navigation[..3], Navigation[3..], p);
    FirstThreeShown(user);
    FilterAll(Navigation[..3], p);
  }

  /** "Reports" passes the filter exactly for the finance head. */
  lemma LastItemShown(user: Option<User>)
    ensures Filter(Navigation[3..], ShowsItem(user)) == if IsFinanceHead(user) then Navigation[3..] else []
  {
    assert Navigation[3..] == [Navigation[3]];
    if IsFinanceHead(user) {
      FilterAll(Navigation[3..], ShowsItem(user));
    } else {
      FilterNone(Navigation[3..], ShowsItem(user));
    }
  }

  /** The finance head sees all four items; everyone else, and nobody signed
      in, sees Overview, Budgets and Anomalies in that order. */
  lemma NavigationByRole(user: Option<User>)
    ensures IsFinanceHead(user) ==> VisibleNavigation(user) == Navigation
    ensures !IsFinanceHead(user) ==> VisibleNavigation(user) == Navigation[..3]
  {
    VisibleSplit(user);
    LastItemShown(user);
    assert Navigation[..3] + Navigation[3..] == Navigation;
    assert Navigation[..3] + [] == Navigation[..3];
  }

  /** The user card at the bottom. */
  function Avatar(user: Option<User>): string {
    if user.Some? && user.value.name != "" then [user.value.name[0]] else "JD"
  }

  /** `user?.name ?? "Jane Doe"`: only a missing user falls back; an empty
      name stays empty. */
  function DisplayName(user: Option<User>): string {
    if user.Some? then user.value.name else "Jane Doe"
  }

  function RoleLabel(user: Option<User>): string {
    if IsFinanceHead(user) then "Finance Head"
    else if IsHrAdmin(user) then "HR Admin"
    else "Employee"
  }

  /** What the open drawer shows; a badge is its count when shown. */
  datatype View = View(
    items: seq<NavItem>,
    anomaliesBadge: Option<nat>,
    feedbackBadge: Option<nat>,
    notificationsBadge: Option<nat>,
    avatar: string,
    displayName: string,
    roleLabel: string)

  function Badge(shown: bool, count: nat): Option<nat> {
    if shown then Some(count) else None
  }

  /** The drawer for the given user and the store's pending-anomaly, new
      feedback and unread counts. */
  function Render(open: bool, user: Option<User>, anomaliesCount: nat, newFeedbackCount: nat, unreadCount: nat): (v: Option<View>)
    ensures !open <==> v.None?
    ensures v.Some? ==>
      v.value.items == VisibleNavigation(user) &&
      (v.value.anomaliesBadge.Some? <==> anomaliesCount > 0) &&
      (v.value.feedbackBadge.Some? <==> IsHrAdmin(user) && newFeedbackCount > 0) &&
      (v.value.notificationsBadge.Some? <==> unreadCount > 0)
    ensures v.Some? ==>
      (v.value.anomaliesBadge.Some? ==> v.value.anomaliesBadge.value == anomaliesCount) &&
      (v.value.feedbackBadge.Some? ==> v.value.feedbackBadge.value == newFeedbackCount) &&
      (v.value.notificationsBadge.Some? ==> v.value.notificationsBadge.value == unreadCount)
  {
    if !open then None
    else Some(View(VisibleNavigation(user),
                   Badge(anomaliesCount > 0, anomaliesCount),
                   Badge(IsHrAdmin(user) && newFeedbackCount > 0, newFeedbackCount),
                   Badge(unreadCount > 0, unreadCount),
                   Avatar(user), DisplayName(user), RoleLabel(user)))
  }

  /** The user card. The avatar is one letter, the first of the name shown,
      exactly when a signed-in user has a non-empty name; otherwise it falls
      back to "JD". The name shown is blank only for a signed-in user whose
      name is empty. */
  lemma UserCard(user: Option<User>)
    ensures |Avatar(user)| == 1 <==> user.Some? && user.value.name != ""
    ensures |Avatar(user)| == 1 ==> Avatar(user) <= DisplayName(user)
    ensures |Avatar(user)| != 1 ==> Avatar(user) == "JD"
    ensures DisplayName(user) == "" <==> user.Some? && user.value.name == ""
  {
  }

  /** Different roles read differently, and nobody signed in reads as an
      employee. */
  lemma RoleLabelsDistinct(u: User, v: User)
    ensures RoleLabel(Some(u)) == RoleLabel(Some(v)) <==> u.role == v.role
    ensures RoleLabel(None) == RoleLabel(Some(u)) <==> u.role == Employee
  {
  }

  /** The open drawer for a store: the anomalies badge shows exactly when an
      anomaly is pending, the reports badge exactly when the HR admin has a
      report still "new", and the notifications badge exactly when something
      is unread. */
  function RenderForStore(store: BudgetStore, open: bool, user: Option<User>): (v: Option<View>)
    reads store
    ensures v.Some? <==> open
    ensures v.Some? ==> v.value.items == VisibleNavigation(user)
    ensures v.Some? ==> (v.value.anomaliesBadge.Some? <==>
      exists i :: 0 <= i < |store.anomalies| && store.anomalies[i].status == Pending)
    ensures v.Some? ==> (v.value.feedbackBadge.Some? <==>
      IsHrAdmin(user) && exists i :: 0 <= i < |store.feedbackReports| && store.feedbackReports[i].status == New)
    ensures v.Some? ==> (v.value.notificationsBadge.Some? <==>
      exists i :: 0 <= i < |store.notifications| && !store.notifications[i].read)
  {
    Render(open, user, store.GetAnomaliesCount(), store.GetNewFeedbackCount(), store.GetUnreadNotificationsCount())
  }
}
