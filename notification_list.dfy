/** The notification list: relative time stamps, the icon per notification
    type, the unread count and when "Mark all read" is offered.

    Times are milliseconds since the epoch. `new Date(timestamp)` of a string
    that does not parse is an invalid date whose time is `NaN`; that is the
    `None` of the timestamp parameter. The current time is a parameter. */
module NotificationList {
  import opened Seqs
  import opened Strings
  import opened Types
  import opened BudgetContext

  const HourMs := 3600000
  const DayMs := 86400000

  /** `formatTimestamp`: whole hours, then whole days of those hours, both
      rounded down (`Math.floor`); with an invalid date every comparison with
      `NaN` is false. */
  function FormatTimestamp(now: int, timestamp: Option<int>): string {
    if timestamp.None? then "Just now"
    else
      var diff := now - timestamp.value;
      var hours := diff / HourMs;
      var days := hours / 24;
      if days > 0 then NatToString(days) + "d ago"
      else if hours > 0 then NatToString(hours) + "h ago"
      else "Just now"
  }

  /** Whole days of whole hours are whole days of the difference. */
  lemma DaysOfHours(diff: int)
    ensures (diff / HourMs) / 24 == diff / DayMs
  {
    var h, r1 := diff / HourMs, diff % HourMs;
    var d, r2 := h / 24, h % 24;
    assert diff == DayMs * d + (HourMs * r2 + r1);
    assert 0 <= HourMs * r2 + r1 < DayMs;
  }

  /** The thresholds: a day or more shows whole days, an hour up to a day
      shows whole hours, and anything shorter, any future time and an
      invalid date show "Just now". */
  lemma FormatTimestampCases(now: int, timestamp: Option<int>)
    ensures timestamp.None? ==> FormatTimestamp(now, timestamp) == "Just now"
    ensures timestamp.Some? && now - timestamp.value >= DayMs ==>
      FormatTimestamp(now, timestamp) == NatToString((now - timestamp.value) / DayMs) + "d ago"
    ensures timestamp.Some? && HourMs <= now - timestamp.value < DayMs ==>
      FormatTimestamp(now, timestamp) == NatToString((now - timestamp.value) / HourMs) + "h ago" &&
      1 <= (now - timestamp.value) / HourMs < 24
    ensures timestamp.Some? && now - timestamp.value < HourMs ==> FormatTimestamp(now, timestamp) == "Just now"
  {
    if timestamp.Some? {
      var diff := now - timestamp.value;
      DaysOfHours(diff);
      if diff < 0 {
        assert diff / HourMs < 0;
      }
    }
  }

  datatype Icon = AlertTriangle | AlertCircle | InfoIcon | Bell

  /** `getIcon`: a switch on the type string with a default branch. */
  function IconFor(kind: string): Icon {
    if kind == "alert" then AlertTriangle
    else if kind == "warning" then AlertCircle
    else if kind == "info" then InfoIcon
    else Bell
  }

  function KindSlug(k: NotificationKind): string {
    match k
    case Warning => "warning"
    case Alert => "alert"
    case Info => "info"
  }

  /** Every notification type has its own icon; the bell is only for strings
      outside the type. */
  lemma IconsDistinct(k: NotificationKind, j: NotificationKind)
    ensures IconFor(KindSlug(k)) != Bell
    ensures k != j ==> IconFor(KindSlug(k)) != IconFor(KindSlug(j))
  {
  }

  /** "Mark all read" is shown when not loading and something is unread. */
  predicate ShowMarkAllRead(loading: bool, ns: seq<Notification>) {
    !loading && UnreadCount(ns) > 0
  }

  /** The card's description line. */
  function Description(loading: bool, ns: seq<Notification>): string {
    if loading then "Loading..."
    else if UnreadCount(ns) > 0 then NatToString(UnreadCount(ns)) + " unread notifications"
    else "All caught up!"
  }

  /** The button is shown exactly when some notification is unread and the
      list is not loading, and pressing it hides it. */
  lemma MarkAllReadButton(loading: bool, ns: seq<Notification>)
    ensures ShowMarkAllRead(loading, ns) <==> !loading && exists i :: 0 <= i < |ns| && !ns[i].read
    ensures !ShowMarkAllRead(loading, MarkAllRead(ns))
    ensures !loading ==> (Description(loading, MarkAllRead(ns)) == "All caught up!")
  {
    CountPositive(ns, IsUnread);
    MarkAllReadEffect(ns);
  }

  predicate UniqueNotificationIds(ns: seq<Notification>) {
    forall i, j :: 0 <= i < j < |ns| ==> ns[i].id != ns[j].id
  }

  /** Clicking the notification at position `k` marks exactly that one read. */
  lemma ClickMarksThatOne(ns: seq<Notification>, k: nat)
    requires UniqueNotificationIds(ns) && k < |ns|
    ensures |MarkRead(ns, ns[k].id)| == |ns|
    ensures MarkRead(ns, ns[k].id)[k] == ns[k].(read := true)
    ensures forall i :: 0 <= i < |ns| && i != k ==> MarkRead(ns, ns[k].id)[i] == ns[i]
  {
  }
}
