/** The notification bell in the navigation bar: a badge with the unread
    count, a dropdown with the latest five notifications, click-to-open
    and relative ages ("5m ago"). The icon mapping is the notifications
    page's. */
module NotificationBell {
  import opened Wrappers
  import opened JsText
  import opened JsValue
  import opened Backend
  import opened NotificationsPage

  /** What `GET /notifications` answers with. */
  datatype Inbox = Inbox(notifications: seq<Notification>, unreadCount: int)

  /** How many notifications the dropdown keeps. */
  const Shown: nat := 5

  /** `slice(0, 5)`: the first five, or all of them when there are fewer. */
  function Latest(ns: seq<Notification>): (r: seq<Notification>)
    ensures |r| <= Shown
    ensures |r| == if |ns| < Shown then |ns| else Shown
    ensures r <= ns
  {
    if |ns| <= Shown then ns else ns[..Shown]
  }

  /** `Math.max(0, count - 1)`: one fewer, never below zero. */
  function Decrement(count: int): (r: int)
    ensures r >= 0
    ensures count >= 1 ==> r == count - 1
    ensures count < 1 ==> r == 0
  {
    if count - 1 > 0 then count - 1 else 0
  }

  /** Where a click on a notification goes: the same targets as the page's
      links, and nowhere for the placeholder. */
  function Destination(n: Notification): (d: Option<string>)
    ensures d.None? <==> Link(n) == "#"
    ensures d.Some? ==> d.value == Link(n)
  {
    LinkIsPathOrPlaceholder(n);
    if n.relatedType == Some("application") then Some("/applications/" + ToText(n.relatedId))
    else if n.relatedType == Some("job") then Some("/jobs/" + ToText(n.relatedId))
    else None
  }

  // ---------------------------------------------------------------- time ago

  /** A coarse age: under a minute, or a whole number of minutes, hours or
      days. */
  datatype Age = JustNow | Ago(count: nat, unit: char)

  /** The bucket `getTimeAgo` puts an age of `seconds` in; ages under a
      minute (including negative ones, from a clock ahead of the server)
      are "just now", and each other bucket counts the whole units that
      have elapsed. */
  function AgeOf(seconds: int): (a: Age)
    ensures a.JustNow? <==> seconds < 60
    ensures a.Ago? ==> a.count >= 1
    ensures a.Ago? && a.unit == 'm' ==> seconds < 3600 && a.count * 60 <= seconds < a.count * 60 + 60
    ensures a.Ago? && a.unit == 'h' ==> 3600 <= seconds < 86400 && a.count * 3600 <= seconds < a.count * 3600 + 3600
    ensures a.Ago? && a.unit == 'd' ==> 86400 <= seconds && a.count * 86400 <= seconds < a.count * 86400 + 86400
    ensures a.Ago? ==> a.unit in {'m', 'h', 'd'}
    ensures 60 <= seconds < 3600 ==> a.unit == 'm'
    ensures 3600 <= seconds < 86400 ==> a.unit == 'h'
    ensures 86400 <= seconds ==> a.unit == 'd'
  {
    if seconds < 60 then JustNow
    else if seconds < 3600 then Ago(seconds / 60, 'm')
    else if seconds < 86400 then Ago(seconds / 3600, 'h')
    else Ago(seconds / 86400, 'd')
  }

  /** The text of an age: "Just now", or the count, the unit letter and
      " ago". */
  function AgeText(a: Age): (t: string)
    ensures a.JustNow? ==> t == "Just now"
    ensures a.Ago? ==> t == NatToText(a.count) + [a.unit] + " ago"
  {
    match a
    case JustNow => "Just now"
    case Ago(count, unit) => NatToText(count) + [unit] + " ago"
  }

  /** `getTimeAgo`, given the elapsed whole seconds. */
  function TimeAgo(seconds: int): (t: string)
    ensures seconds < 60 <==> t == "Just now"
    ensures seconds >= 60 ==> |t| >= 6 && t[|t| - 4..] == " ago" && t[|t| - 5] in {'m', 'h', 'd'}
  {
    var a := AgeOf(seconds);
    var t := AgeText(a);
    assert a.Ago? ==> t[|t| - 1] == 'o' && t != "Just now";
    t
  }

  /** The count in the text reads back as the floor of the age in its unit:
      minutes under an hour, hours under a day, days beyond. */
  lemma TimeAgoReadsBack(seconds: int)
    ensures seconds < 60 ==> TimeAgo(seconds) == "Just now"
    ensures 60 <= seconds < 3600 ==>
      TimeAgo(seconds) == NatToText(seconds / 60) + "m ago" && 1 <= seconds / 60 <= 59
    ensures 3600 <= seconds < 86400 ==>
      TimeAgo(seconds) == NatToText(seconds / 3600) + "h ago" && 1 <= seconds / 3600 <= 23
    ensures 86400 <= seconds ==>
      TimeAgo(seconds) == NatToText(seconds / 86400) + "d ago" && seconds / 86400 >= 1
  {
    var a := AgeOf(seconds);
    if a.Ago? {
      assert [a.unit] + " ago" == [a.unit, ' ', 'a', 'g', 'o'];
    }
  }

  /** Larger ages never land in a smaller unit. */
  lemma AgeUnitsOrdered(s1: int, s2: int)
    requires s1 <= s2
    ensures AgeOf(s1).Ago? ==> AgeOf(s2).Ago?
    ensures AgeOf(s1).Ago? && AgeOf(s1).unit == 'h' ==> AgeOf(s2).unit in {'h', 'd'}
    ensures AgeOf(s1).Ago? && AgeOf(s1).unit == 'd' ==> AgeOf(s2).unit == 'd'
  {
  }

  // ---------------------------------------------------------------- badge

  /** The badge on the bell: none unless the count is positive, "9+" above
      nine, else the count itself. */
  function BadgeText(count: int): (b: Option<string>)
    ensures b.None? <==> count <= 0
    ensures count > 9 ==> b == Some("9+")
    ensures 0 < count <= 9 ==> b == Some([DigitChar(count)])
  {
    if count <= 0 then None
    else if count > 9 then Some("9+")
    else Some(IntToText(count))
  }

  /** The badge is one or two characters wide, and a single digit only for
      counts one to nine. */
  lemma BadgeIsNarrow(count: int)
    ensures BadgeText(count).Some? ==> 1 <= |BadgeText(count).value| <= 2
    ensures BadgeText(count).Some? ==> (|BadgeText(count).value| == 1 <==> count <= 9)
  {
  }

  // ---------------------------------------------------------------- the bell

  class Bell {
    var notifications: seq<Notification>
    var unreadCount: int
    var showDropdown: bool
    var loading: bool

    constructor()
      ensures notifications == [] && unreadCount == 0 && !showDropdown && !loading
    {
      notifications := [];
      unreadCount := 0;
      showDropdown := false;
      loading := false;
    }

    /** `fetchNotifications` completes (on mount and on every polling tick):
        success keeps the latest five and takes the server's unread count;
        failure keeps both; loading ends either way. */
    method Fetch(reply: Call<Inbox>)
      modifies this
      ensures reply.Resolved? ==> notifications == Latest(reply.value.notifications)
      ensures reply.Resolved? ==> unreadCount == reply.value.unreadCount
      ensures reply.Rejected? ==> notifications == old(notifications) && unreadCount == old(unreadCount)
      ensures |notifications| <= Shown || notifications == old(notifications)
      ensures !loading && showDropdown == old(showDropdown)
    {
      loading := true;
      if reply.Resolved? {
        notifications := Latest(reply.value.notifications);
        unreadCount := reply.value.unreadCount;
      }
      loading := false;
    }

    /** `markAsRead(id)`; `ok` says whether the request succeeded. On
        success the entries with that id are read and the counter drops by
        one, never below zero. */
    method MarkAsRead(id: string, ok: bool)
      modifies this
      ensures notifications == if ok then MarkRead(old(notifications), id) else old(notifications)
      ensures unreadCount == if ok then Decrement(old(unreadCount)) else old(unreadCount)
      ensures showDropdown == old(showDropdown) && loading == old(loading)
    {
      if ok {
        notifications := MarkRead(notifications, id);
        unreadCount := Decrement(unreadCount);
      }
    }

    /** `handleNotificationClick(n)`: marks it read only when it was unread
        (`ok` is that request's outcome), always closes the dropdown, and
        navigates by the related type. */
    method Click(n: Notification, ok: bool) returns (navigate: Option<string>)
      modifies this
      ensures notifications == if !n.isRead && ok then MarkRead(old(notifications), n.id) else old(notifications)
      ensures unreadCount == if !n.isRead && ok then Decrement(old(unreadCount)) else old(unreadCount)
      ensures !showDropdown && loading == old(loading)
      ensures navigate == Destination(n)
    {
      if !n.isRead {
        MarkAsRead(n.id, ok);
      }
      showDropdown := false;
      navigate := Destination(n);
    }

    /** A click on the bell opens or closes the dropdown. */
    method Toggle()
      modifies this
      ensures showDropdown == !old(showDropdown)
      ensures notifications == old(notifications) && unreadCount == old(unreadCount) && loading == old(loading)
    {
      showDropdown := !showDropdown;
    }
  }

  /** Clicking an already-read notification sends nothing and keeps the
      counter: only the dropdown closes. */
  method ClickRead(b: Bell, n: Notification, ok: bool) returns (navigate: Option<string>)
    requires n.isRead
    modifies b
    ensures b.notifications == old(b.notifications) && b.unreadCount == old(b.unreadCount)
    ensures !b.showDropdown && navigate == Destination(n)
  {
    navigate := b.Click(n, ok);
  }
}
