/** The notifications page: the user's notifications with mark-read,
    mark-all-read and delete, an all/unread/read filter with counts, and the
    icon and link shown for each entry. */
module NotificationsPage {
  import opened Wrappers
  import opened JsValue
  import opened Seqs
  import opened Backend

  datatype Notification = Notification(id: string, kind: string, isRead: bool,
                                       relatedType: Option<string>, relatedId: JsVal)

  // ---------------------------------------------------------------- list operations

  /** One entry after `markAsRead(id)`: `{...n, isRead: true}` when the id
      matches. */
  function MarkOne(n: Notification, id: string): Notification {
    if n.id == id then n.(isRead := true) else n
  }

  /** `notifications.map(n => n.id === id ? {...n, isRead: true} : n)`:
      the entries with that id are read and every other entry is unchanged,
      in the same order. */
  function MarkRead(ns: seq<Notification>, id: string): (r: seq<Notification>)
    ensures |r| == |ns|
    ensures forall i :: 0 <= i < |ns| && ns[i].id == id ==> r[i] == ns[i].(isRead := true)
    ensures forall i :: 0 <= i < |ns| && ns[i].id != id ==> r[i] == ns[i]
    decreases |ns|
  {
    if |ns| == 0 then [] else [MarkOne(ns[0], id)] + MarkRead(ns[1..], id)
  }

  /** `notifications.map(n => ({...n, isRead: true}))`. */
  function MarkAllRead(ns: seq<Notification>): (r: seq<Notification>)
    ensures |r| == |ns|
    ensures forall i :: 0 <= i < |ns| ==> r[i] == ns[i].(isRead := true)
  {
    seq(|ns|, i requires 0 <= i < |ns| => ns[i].(isRead := true))
  }

  /** `notifications.filter(n => n.id !== id)`. */
  function Remove(ns: seq<Notification>, id: string): (r: seq<Notification>)
    ensures forall n :: n in r <==> n in ns && n.id != id
    ensures |r| <= |ns|
  {
    Filter(ns, (n: Notification) => n.id != id)
  }

  predicate IsUnread(n: Notification) {
    !n.isRead
  }

  predicate IsRead(n: Notification) {
    n.isRead
  }

  /** The entries the current filter shows: 'unread' keeps the unread ones,
      'read' the read ones, anything else keeps all. */
  function Visible(ns: seq<Notification>, filter: string): (r: seq<Notification>)
    ensures filter == "unread" ==> forall n :: n in r <==> n in ns && !n.isRead
    ensures filter == "read" ==> forall n :: n in r <==> n in ns && n.isRead
    ensures filter != "unread" && filter != "read" ==> r == ns
  {
    if filter == "unread" then Filter(ns, IsUnread)
    else if filter == "read" then Filter(ns, IsRead)
    else ns
  }

  /** A filter keeps the order of the list: showing a list made of two
      parts shows each part in turn. */
  lemma VisibleKeepsOrder(xs: seq<Notification>, ys: seq<Notification>, filter: string)
    ensures Visible(xs + ys, filter) == Visible(xs, filter) + Visible(ys, filter)
  {
    if filter == "unread" {
      FilterAppend(xs, ys, IsUnread);
    } else if filter == "read" {
      FilterAppend(xs, ys, IsRead);
    }
  }

  /** `notifications.filter(n => !n.isRead).length`. */
  function UnreadCount(ns: seq<Notification>): (k: nat)
    ensures k <= |ns|
  {
    |Filter(ns, IsUnread)|
  }

  /** The three filter-button counts agree: the 'Read' count, shown as the
      total minus the unread count, is the number of entries the 'read'
      filter shows. */
  lemma CountsAddUp(ns: seq<Notification>)
    ensures |Visible(ns, "read")| == |ns| - UnreadCount(ns)
    ensures |Visible(ns, "unread")| == UnreadCount(ns)
    ensures |Visible(ns, "all")| == |ns|
  {
    FilterSplit(ns, IsRead, IsUnread);
  }

  /** After mark-all-read nothing is unread. */
  lemma {:induction false} MarkAllReadClearsUnread(ns: seq<Notification>)
    ensures UnreadCount(MarkAllRead(ns)) == 0
  {
    var r := MarkAllRead(ns);
    FilterSplit(r, IsRead, IsUnread);
    FilterKeepsAll(r, IsRead);
  }

  /** The number of unread entries with the given id. */
  function UnreadWithId(ns: seq<Notification>, id: string): nat
    decreases |ns|
  {
    if |ns| == 0 then 0
    else (if ns[0].id == id && !ns[0].isRead then 1 else 0) + UnreadWithId(ns[1..], id)
  }

  /** Marking one id read lowers the unread count by exactly the number of
      unread entries with that id. */
  lemma {:induction false} MarkReadUnreadCount(ns: seq<Notification>, id: string)
    ensures UnreadCount(MarkRead(ns, id)) + UnreadWithId(ns, id) == UnreadCount(ns)
    decreases |ns|
  {
    if |ns| > 0 {
      MarkReadUnreadCount(ns[1..], id);
      assert MarkRead(ns, id) == [MarkOne(ns[0], id)] + MarkRead(ns[1..], id);
      assert ns == [ns[0]] + ns[1..];
      FilterAppend([MarkOne(ns[0], id)], MarkRead(ns[1..], id), IsUnread);
      FilterAppend([ns[0]], ns[1..], IsUnread);
    }
  }

  /** Marking read twice is marking read once. */
  lemma MarkReadIdempotent(ns: seq<Notification>, id: string)
    ensures MarkRead(MarkRead(ns, id), id) == MarkRead(ns, id)
  {
  }

  /** Deleting removes every entry with that id and keeps all the others, in
      their order: deleting from a list made of two parts deletes from each. */
  lemma RemoveKeepsOrder(xs: seq<Notification>, ys: seq<Notification>, id: string)
    ensures Remove(xs + ys, id) == Remove(xs, id) + Remove(ys, id)
  {
    FilterAppend(xs, ys, (n: Notification) => n.id != id);
  }

  // ---------------------------------------------------------------- icon and link

  /** The notification kinds that have an icon of their own. */
  const KnownKinds: set<string> := {"application_status_change", "new_application", "job_posted", "profile_view"}

  /** `getNotificationIcon` (the bell uses the same mapping). */
  function Icon(kind: string): (icon: string)
    ensures kind !in KnownKinds ==> icon == "\U{1F514}"
  {
    match kind
    case "application_status_change" => "\U{1F4CB}"
    case "new_application" => "\U{1F4E8}"
    case "job_posted" => "\U{1F4BC}"
    case "profile_view" => "\U{1F440}"
    case _ => "\U{1F514}"
  }

  /** Every known kind gets its own icon, different from the default bell. */
  lemma IconsDistinct()
    ensures Icon("application_status_change") != Icon("new_application")
    ensures Icon("job_posted") != Icon("profile_view")
    ensures forall k :: k in KnownKinds ==> Icon(k) != "\U{1F514}"
    ensures forall k1, k2 :: k1 in KnownKinds && k2 in KnownKinds && k1 != k2 ==> Icon(k1) != Icon(k2)
  {
  }

  /** `getNotificationLink`: the application page, the job page, or '#'. */
  function Link(n: Notification): (link: string)
    ensures n.relatedType == Some("application") ==> link == "/applications/" + ToText(n.relatedId)
    ensures n.relatedType == Some("job") ==> link == "/jobs/" + ToText(n.relatedId)
    ensures n.relatedType != Some("application") && n.relatedType != Some("job") ==> link == "#"
  {
    if n.relatedType == Some("application") then "/applications/" + ToText(n.relatedId)
    else if n.relatedType == Some("job") then "/jobs/" + ToText(n.relatedId)
    else "#"
  }

  /** A real link starts with '/', the placeholder does not. */
  lemma LinkIsPathOrPlaceholder(n: Notification)
    ensures Link(n) == "#" || Link(n)[0] == '/'
    ensures Link(n) == "#" <==> n.relatedType != Some("application") && n.relatedType != Some("job")
  {
  }

  // ---------------------------------------------------------------- the page

  class Page {
    var notifications: seq<Notification>
    var loading: bool
    var filter: string

    constructor()
      ensures notifications == [] && loading && filter == "all"
    {
      notifications := [];
      loading := true;
      filter := "all";
    }

    /** `fetchNotifications` completes: success replaces the list, failure
        keeps it; loading ends either way. */
    method Load(reply: Call<seq<Notification>>)
      modifies this
      ensures reply.Resolved? ==> notifications == reply.value
      ensures reply.Rejected? ==> notifications == old(notifications)
      ensures !loading && filter == old(filter)
    {
      if reply.Resolved? {
        notifications := reply.value;
      }
      loading := false;
    }

    /** `markAsRead(id)`; `ok` says whether the request succeeded. */
    method MarkAsRead(id: string, ok: bool)
      modifies this
      ensures notifications == if ok then MarkRead(old(notifications), id) else old(notifications)
      ensures loading == old(loading) && filter == old(filter)
    {
      if ok {
        notifications := MarkRead(notifications, id);
      }
    }

    /** `markAllAsRead`. */
    method MarkAllAsRead(ok: bool)
      modifies this
      ensures notifications == if ok then MarkAllRead(old(notifications)) else old(notifications)
      ensures ok ==> UnreadCount(notifications) == 0
      ensures loading == old(loading) && filter == old(filter)
    {
      if ok {
        notifications := MarkAllRead(notifications);
        MarkAllReadClearsUnread(old(notifications));
      }
    }

    /** `deleteNotification(id)`. */
    method Delete(id: string, ok: bool)
      modifies this
      ensures notifications == if ok then Remove(old(notifications), id) else old(notifications)
      ensures loading == old(loading) && filter == old(filter)
    {
      if ok {
        notifications := Remove(notifications, id);
      }
    }

    /** A filter button. */
    method SetFilter(f: string)
      modifies this
      ensures filter == f
      ensures notifications == old(notifications) && loading == old(loading)
    {
      filter := f;
    }

    /** What the list shows. */
    function Shown(): seq<Notification>
      reads this
    {
      Visible(notifications, filter)
    }
  }
}
