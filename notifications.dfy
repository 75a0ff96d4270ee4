/** The notifications page (pro-network/src/app/notifications/page.tsx): the
    list updates behind the row click and the Accept, Decline and View Job
    buttons, the unread count, the per-tab filters, the header summary and
    which actions each entry offers. */
module Notifications {
  import opened Common

  datatype NotificationType = Connection | Message | Job | Event

  datatype Sender = Sender(name: string, avatar: string, title: Option<string>)
  datatype JobRef = JobRef(title: string, company: string)

  datatype Notification = Notification(
    id: string, kind: NotificationType, title: string, description: string,
    timestamp: string, read: bool, actionable: bool,
    sender: Option<Sender>, job: Option<JobRef>)

  // ---------------------------------------------------------------- list updates

  /** `markAsRead(id)`: the list with every entry carrying `id` marked read. */
  function MarkRead(ns: seq<Notification>, id: string): (r: seq<Notification>)
    ensures |r| == |ns|
    ensures forall i :: 0 <= i < |ns| ==>
      r[i] == (if ns[i].id == id then ns[i].(read := true) else ns[i])
  {
    if ns == [] then []
    else [if ns[0].id == id then ns[0].(read := true) else ns[0]] + MarkRead(ns[1..], id)
  }

  /** `markAllAsRead`: every entry marked read, nothing else changed. */
  function MarkAllRead(ns: seq<Notification>): (r: seq<Notification>)
    ensures |r| == |ns|
    ensures forall i :: 0 <= i < |ns| ==> r[i] == ns[i].(read := true)
  {
    if ns == [] then [] else [ns[0].(read := true)] + MarkAllRead(ns[1..])
  }

  /** The entries that `declineConnection(id)` keeps. */
  function KeepsOnDecline(id: string): Notification -> bool {
    (n: Notification) => n.id != id
  }

  /** `declineConnection(id)`: the entries carrying `id` removed, the rest kept in order. */
  function Decline(ns: seq<Notification>, id: string): (r: seq<Notification>)
    ensures forall n :: n in r <==> n in ns && n.id != id
    ensures |r| == |ns| - CountWhere(ns, (n: Notification) => n.id == id)
  {
    DeclineLength(ns, id);
    Filter(ns, KeepsOnDecline(id))
  }

  lemma {:induction false} DeclineLength(ns: seq<Notification>, id: string)
    ensures |Filter(ns, KeepsOnDecline(id))| == |ns| - CountWhere(ns, (n: Notification) => n.id == id)
  {
    if ns != [] {
      DeclineLength(ns[1..], id);
    }
  }

  /** Declining keeps the relative order: declining from two consecutive pieces
      of the list is declining from each piece. */
  lemma DeclineKeepsOrder(a: seq<Notification>, b: seq<Notification>, id: string)
    ensures Decline(a + b, id) == Decline(a, id) + Decline(b, id)
  {
    FilterConcat(a, b, KeepsOnDecline(id));
  }

  /** Declining an id no entry carries changes nothing. */
  lemma DeclineAbsent(ns: seq<Notification>, id: string)
    requires forall i :: 0 <= i < |ns| ==> ns[i].id != id
    ensures Decline(ns, id) == ns
  {
    FilterAll(ns, KeepsOnDecline(id));
  }

  /** Marking read twice is marking read once. */
  lemma MarkReadIdempotent(ns: seq<Notification>, id: string)
    ensures MarkRead(MarkRead(ns, id), id) == MarkRead(ns, id)
  {
  }

  // ---------------------------------------------------------------- counts and tabs

  predicate IsUnread(n: Notification) { !n.read }

  /** The Unread tab: `notifications.filter(n => !n.read)`; its length is the
      number of unread entries. */
  function UnreadTab(ns: seq<Notification>): (r: seq<Notification>)
    ensures forall n :: n in r <==> n in ns && !n.read
    ensures |r| == CountWhere(ns, IsUnread)
  {
    FilterLength(ns, IsUnread);
    Filter(ns, IsUnread)
  }

  /** `unreadCount`: the length of the filtered list. */
  function UnreadCount(ns: seq<Notification>): (r: nat)
    ensures r == |UnreadTab(ns)|
    ensures r == CountWhere(ns, IsUnread)
  {
    FilterLength(ns, IsUnread);
    |Filter(ns, IsUnread)|
  }

  function HasType(t: NotificationType): Notification -> bool {
    (n: Notification) => n.kind == t
  }

  /** The Connections, Messages and Jobs tabs: each holds the entries of its type. */
  function ConnectionsTab(ns: seq<Notification>): (r: seq<Notification>)
    ensures |r| <= |ns|
    ensures forall n :: n in r <==> n in ns && n.kind == Connection
  {
    Filter(ns, HasType(Connection))
  }

  function MessagesTab(ns: seq<Notification>): (r: seq<Notification>)
    ensures |r| <= |ns|
    ensures forall n :: n in r <==> n in ns && n.kind == Message
  {
    Filter(ns, HasType(Message))
  }

  function JobsTab(ns: seq<Notification>): (r: seq<Notification>)
    ensures |r| <= |ns|
    ensures forall n :: n in r <==> n in ns && n.kind == Job
  {
    Filter(ns, HasType(Job))
  }

  /** Each typed tab holds exactly the entries of its type; event entries
      appear in none of them, only under All and Unread. */
  lemma TabContents(ns: seq<Notification>, n: Notification)
    ensures n in ConnectionsTab(ns) <==> n in ns && n.kind == Connection
    ensures n in MessagesTab(ns) <==> n in ns && n.kind == Message
    ensures n in JobsTab(ns) <==> n in ns && n.kind == Job
    ensures n in UnreadTab(ns) <==> n in ns && !n.read
    ensures n.kind == Event ==> n !in ConnectionsTab(ns) && n !in MessagesTab(ns) && n !in JobsTab(ns)
  {
  }

  /** Marking read lowers the unread count by the number of unread entries carrying `id`. */
  lemma {:induction false} MarkReadUnreadCount(ns: seq<Notification>, id: string)
    ensures CountWhere(MarkRead(ns, id), IsUnread)
            == CountWhere(ns, IsUnread) - CountWhere(ns, (n: Notification) => n.id == id && !n.read)
  {
    if ns != [] {
      assert MarkRead(ns, id)[1..] == MarkRead(ns[1..], id);
      MarkReadUnreadCount(ns[1..], id);
    }
  }

  /** After marking everything read no entry is unread. */
  lemma {:induction false} MarkAllReadNoUnread(ns: seq<Notification>)
    ensures UnreadCount(MarkAllRead(ns)) == 0
    ensures UnreadTab(MarkAllRead(ns)) == []
  {
    FilterNone(MarkAllRead(ns), IsUnread);
  }

  // ---------------------------------------------------------------- header and actions

  /** The header line under "Notifications". */
  function Summary(ns: seq<Notification>): (r: string)
    ensures UnreadCount(ns) == 0 <==> r == "No new notifications"
  {
    var c := UnreadCount(ns);
    if c > 0 then "You have " + NatToString(c) + " unread notification" + (if c != 1 then "s" else "")
    else "No new notifications"
  }

  /** The summary names the unread count, with a plural "s" exactly when it is not 1. */
  lemma SummaryText(ns: seq<Notification>)
    requires UnreadCount(ns) > 0
    ensures var r := Summary(ns);
            var prefix := "You have ";
            var digits := NatToString(UnreadCount(ns));
            && r[..|prefix|] == prefix
            && ParseNat(r[|prefix|..|prefix| + |digits|]) == UnreadCount(ns)
            && (r[|r| - 1] == 's' <==> UnreadCount(ns) != 1)
  {
    var digits := NatToString(UnreadCount(ns));
    ParseNatToString(UnreadCount(ns));
    var r := Summary(ns);
    assert r[|"You have "|..|"You have "| + |digits|] == digits;
  }

  /** The "Mark all as read" button and the Unread tab's badge are shown only
      while some entry is unread; the badge shows the count. */
  predicate MarkAllButtonShown(ns: seq<Notification>) { UnreadCount(ns) > 0 }

  function UnreadBadge(ns: seq<Notification>): (r: Option<string>)
    ensures r.Some? <==> MarkAllButtonShown(ns)
    ensures r.Some? ==> AllDigits(r.value) && ParseNat(r.value) == UnreadCount(ns)
  {
    ParseNatToString(UnreadCount(ns));
    if UnreadCount(ns) > 0 then Some(NatToString(UnreadCount(ns))) else None
  }

  /** The buttons an entry offers. The row itself marks the entry read on click. */
  datatype Action = AcceptButton | DeclineButton | ViewJobButton | ViewEventButton

  function Actions(n: Notification): (r: set<Action>)
    ensures AcceptButton in r <==> n.actionable && n.kind == Connection
    ensures DeclineButton in r <==> n.actionable && n.kind == Connection
    ensures ViewJobButton in r <==> n.actionable && n.kind == Job
    ensures ViewEventButton in r <==> n.actionable && n.kind == Event
    ensures !n.actionable ==> r == {}
  {
    if !n.actionable then {}
    else match n.kind
      case Connection => {AcceptButton, DeclineButton}
      case Job => {ViewJobButton}
      case Event => {ViewEventButton}
      case Message => {}
  }

  // ---------------------------------------------------------------- the page component

  /** The notifications page component and its `notifications` state list. */
  class NotificationsPage {
    var notifications: seq<Notification>

    constructor (initial: seq<Notification>)
      ensures notifications == initial
    {
      notifications := initial;
    }

    method MarkAsRead(id: string)
      modifies this
      ensures notifications == MarkRead(old(notifications), id)
    {
      notifications := MarkRead(notifications, id);
    }

    /** `markAllAsRead`; afterwards the button is hidden and the summary reads
        "No new notifications". */
    method MarkAllAsRead()
      modifies this
      ensures notifications == MarkAllRead(old(notifications))
      ensures UnreadCount(notifications) == 0 && !MarkAllButtonShown(notifications)
      ensures Summary(notifications) == "No new notifications"
    {
      notifications := MarkAllRead(notifications);
      MarkAllReadNoUnread(old(notifications));
    }

    /** `acceptConnection`: the list changes exactly as `markAsRead` changes it. */
    method AcceptConnection(id: string)
      modifies this
      ensures notifications == MarkRead(old(notifications), id)
    {
      MarkAsRead(id);
    }

    method DeclineConnection(id: string)
      modifies this
      ensures notifications == Decline(old(notifications), id)
    {
      notifications := Decline(notifications, id);
    }

    /** `viewJob`: the list changes exactly as `markAsRead` changes it. */
    method ViewJob(id: string)
      modifies this
      ensures notifications == MarkRead(old(notifications), id)
    {
      MarkAsRead(id);
    }
  }
}
