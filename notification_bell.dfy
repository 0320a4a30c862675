/**
 * The notification bell: the unread badge, the dropdown's open state, the per-type icons, the
 * relative time shown beside each notification, and the two actions it forwards to the
 * dashboard's handlers (mark one as read, clear all).
 */
module NotificationBell {
  import opened Text
  import opened Lists
  import opened Records
  import opened DefaultData
  import opened Inbox
  import opened Storage

  predicate IsUnread(n: Notification) { !n.read }

  /** `unreadCount`: the number on the badge. */
  function UnreadCount(ns: seq<Notification>): nat {
    Count(ns, IsUnread)
  }

  /** The badge is drawn exactly when some notification is unread. */
  function ShowsBadge(ns: seq<Notification>): (b: bool)
    ensures b <==> exists i :: 0 <= i < |ns| && !ns[i].read
  {
    UnreadCount(ns) > 0
  }

  /**
   * Marking `id` as read lowers the badge by exactly the number of unread notifications
   * carrying that id, so it drops exactly when one of them is unread.
   */
  lemma UnreadAfterMarkRead(ns: seq<Notification>, id: int)
    ensures UnreadCount(MarkNotificationRead(ns, id)) + Count(ns, Matching(IsUnread, NotificationId, id))
            == UnreadCount(ns)
    ensures UnreadCount(MarkNotificationRead(ns, id)) < UnreadCount(ns)
            <==> exists i :: 0 <= i < |ns| && !ns[i].read && ns[i].id == id
  {
    CountAfterUpdate(ns, id, NotificationId, Read, IsUnread);
  }

  /** A list of four whose two newest entries are unread and two oldest read shows 2. */
  lemma TwoOfFourUnread(ns: seq<Notification>)
    requires |ns| == 4 && !ns[0].read && !ns[1].read && ns[2].read && ns[3].read
    ensures UnreadCount(ns) == 2
  {
    assert Count(ns[3..], IsUnread) == 0;
    assert ns[2..][1..] == ns[3..];
    assert ns[1..][1..] == ns[2..];
    assert Count(ns[2..], IsUnread) == 0;
    assert Count(ns[1..], IsUnread) == 1;
  }

  /** Both dashboards start with a badge of 2. */
  lemma SeedUnreadCount(now: int)
    ensures UnreadCount(DefaultDonorNotifications(now)) == 2
    ensures UnreadCount(DefaultSeekerNotifications(now)) == 2
  {
    TwoOfFourUnread(DefaultDonorNotifications(now));
    TwoOfFourUnread(DefaultSeekerNotifications(now));
  }

  const BellIcon: string := "\U{1F514}"
  const SuccessIcon: string := "\U{2705}"
  const InfoIcon: string := "\U{2139}\U{FE0F}"
  const WarningIcon: string := "\U{26A0}\U{FE0F}"
  const MessageIcon: string := "\U{1F4AC}"

  /** `getNotificationIcon(type)`: one icon per known type, the bell for any other. */
  function Icon(kind: string): (icon: string)
    ensures kind == "success" <==> icon == SuccessIcon
    ensures kind == "info" <==> icon == InfoIcon
    ensures kind == "warning" <==> icon == WarningIcon
    ensures kind == "message" <==> icon == MessageIcon
    ensures icon == BellIcon <==> kind !in {"success", "info", "warning", "message"}
  {
    match kind
    case "success" => SuccessIcon
    case "info" => InfoIcon
    case "warning" => WarningIcon
    case "message" => MessageIcon
    case _ => BellIcon
  }

  /** How long ago a notification arrived, in the unit `formatTime` picks. */
  datatype Elapsed = JustNow | MinutesAgo(minutes: int) | HoursAgo(hours: int) | DaysAgo(days: int)

  /**
   * `formatTime`'s choice of unit for a difference of `diffMs` milliseconds: whole minutes
   * below an hour, whole hours below a day, whole days beyond; a difference under one minute,
   * including a timestamp in the future, is "just now".
   */
  function ElapsedSince(diffMs: int): (e: Elapsed)
    ensures e == JustNow <==> diffMs < MsPerMinute
    ensures e.MinutesAgo? <==> MsPerMinute <= diffMs < MsPerHour
    ensures e.HoursAgo? <==> MsPerHour <= diffMs < MsPerDay
    ensures e.DaysAgo? <==> MsPerDay <= diffMs
    ensures e.MinutesAgo? ==> 1 <= e.minutes < 60
                              && e.minutes * MsPerMinute <= diffMs < (e.minutes + 1) * MsPerMinute
    ensures e.HoursAgo? ==> 1 <= e.hours < 24 && e.hours * MsPerHour <= diffMs < (e.hours + 1) * MsPerHour
    ensures e.DaysAgo? ==> 1 <= e.days && e.days * MsPerDay <= diffMs < (e.days + 1) * MsPerDay
  {
    // Euclidean division by a positive divisor is `Math.floor` of the quotient.
    var minutes := diffMs / MsPerMinute;
    var hours := diffMs / MsPerHour;
    var days := diffMs / MsPerDay;
    if minutes < 1 then JustNow
    else if minutes < 60 then MinutesAgo(minutes)
    else if hours < 24 then HoursAgo(hours)
    else DaysAgo(days)
  }

  /** The letter five places from the end: 't' of "Just now", else the unit letter. */
  function UnitLetter(e: Elapsed): char {
    match e
    case JustNow => 't'
    case MinutesAgo(_) => 'm'
    case HoursAgo(_) => 'h'
    case DaysAgo(_) => 'd'
  }

  /**
   * The text `formatTime` shows for an elapsed time: "Just now", or the count followed by the
   * unit letter and " ago"; only the first reads "Just now".
   */
  function Render(e: Elapsed): (r: string)
    ensures |r| >= 5 && r[|r| - 5] == UnitLetter(e)
    ensures e != JustNow ==> |r| >= 6 && r[|r| - 4..] == " ago"
    ensures r == "Just now" <==> e == JustNow
  {
    match e
    case JustNow => "Just now"
    case MinutesAgo(m) => IntToString(m) + "m ago"
    case HoursAgo(h) => IntToString(h) + "h ago"
    case DaysAgo(d) => IntToString(d) + "d ago"
  }

  /** Different elapsed times are shown as different texts. */
  lemma RenderInjective(a: Elapsed, b: Elapsed)
    requires Render(a) == Render(b)
    ensures a == b
  {
    var s := Render(a);
    match a
    case JustNow =>
    case MinutesAgo(x) =>
      assert s[..|s| - 5] == IntToString(x) && s[..|s| - 5] == IntToString(b.minutes);
      IntToStringInjective(x, b.minutes);
    case HoursAgo(x) =>
      assert s[..|s| - 5] == IntToString(x) && s[..|s| - 5] == IntToString(b.hours);
      IntToStringInjective(x, b.hours);
    case DaysAgo(x) =>
      assert s[..|s| - 5] == IntToString(x) && s[..|s| - 5] == IntToString(b.days);
      IntToStringInjective(x, b.days);
  }

  /**
   * `formatTime(timestamp)` read at time `now`: "Just now" exactly when less than a minute has
   * passed (or the timestamp lies ahead).
   */
  function FormatTime(now: int, timestamp: int): (r: string)
    ensures r == "Just now" <==> now - timestamp < MsPerMinute
    ensures |r| >= 5 && r[|r| - 5] == UnitLetter(ElapsedSince(now - timestamp))
  {
    Render(ElapsedSince(now - timestamp))
  }

  /** Two timestamps read at the same moment show the same text exactly when they fall in the same bucket. */
  lemma FormatTimeDistinguishes(now: int, a: int, b: int)
    ensures FormatTime(now, a) == FormatTime(now, b) <==> ElapsedSince(now - a) == ElapsedSince(now - b)
  {
    if FormatTime(now, a) == FormatTime(now, b) {
      RenderInjective(ElapsedSince(now - a), ElapsedSince(now - b));
    }
  }

  /** The bell's own state: whether the dropdown is open. */
  class Bell {
    var isOpen: bool

    constructor ()
      ensures !isOpen
    {
      isOpen := false;
    }

    /** `handleToggle`: the bell button flips the dropdown. */
    method Toggle()
      modifies this
      ensures isOpen == !old(isOpen)
    {
      isOpen := !isOpen;
    }

    /** A click on the overlay closes the dropdown. */
    method Close()
      modifies this
      ensures !isOpen
    {
      isOpen := false;
    }

    /**
     * `handleMarkAsRead(id)`: a click on a notification forwards to the dashboard; the
     * dropdown stays as it was and the badge drops by the unread ones with that id.
     */
    method HandleMarkAsRead(inbox: InboxState, id: int)
      modifies inbox`notifications, inbox.store
      ensures inbox.notifications == MarkNotificationRead(old(inbox.notifications), id)
      ensures UnreadCount(inbox.notifications) + Count(old(inbox.notifications), Matching(IsUnread, NotificationId, id))
              == UnreadCount(old(inbox.notifications))
      ensures inbox.NotificationsStored()
      ensures inbox.store.items
              == old(inbox.store.items)[NotificationsKey(inbox.userId) := NotificationList(inbox.notifications)]
    {
      UnreadAfterMarkRead(inbox.notifications, id);
      inbox.MarkNotificationAsRead(id);
    }

    /**
     * `handleClearAll`: the "Clear All" button exists only while the list is nonempty; it
     * empties the list, which removes the badge, and closes the dropdown.
     */
    method HandleClearAll(inbox: InboxState)
      requires |inbox.notifications| > 0
      modifies this, inbox`notifications, inbox.store
      ensures inbox.notifications == [] && !ShowsBadge(inbox.notifications)
      ensures inbox.NotificationsStored()
      ensures inbox.store.items == old(inbox.store.items)[NotificationsKey(inbox.userId) := NotificationList([])]
      ensures !isOpen
    {
      inbox.ClearAllNotifications();
      isOpen := false;
    }
  }
}
