/**
 * The doula's notifications as both views show them: one row per notification, joined
 * with the mother's name, and the link to the live monitor a contraction alert carries.
 */
module Notifications {
  import opened Wrappers
  import opened Seqs

  /** A notification row; `motherName` is the joined `profiles.full_name`. */
  datatype Notification = Notification(
    id: string, kind: string, title: string, message: string, isRead: bool,
    pregnancyId: Option<string>, motherName: Option<string>)

  const MonitorPath: string := "/doula/live-monitor/"

  /**
   * The live-monitor button: shown only for a contraction alert that names a pregnancy,
   * leading to that pregnancy's monitor.
   */
  function MonitorLink(n: Notification): (r: Option<string>)
    ensures r.Some? <==> n.kind == "contraction" && Truthy(n.pregnancyId)
    ensures r.Some? ==> |r.value| >= |MonitorPath| && r.value[..|MonitorPath|] == MonitorPath && r.value[|MonitorPath|..] == n.pregnancyId.value
  {
    if n.kind == "contraction" && Truthy(n.pregnancyId) then Some(MonitorPath + n.pregnancyId.value) else None
  }

  /** The icon beside a notification: a pulse for contractions, a bell for the rest. */
  datatype Icon = Pulse | Bell

  function IconOf(n: Notification): (r: Icon)
    ensures r == Pulse <==> n.kind == "contraction"
  {
    if n.kind == "contraction" then Pulse else Bell
  }

  /** A notification that leads to a monitor always shows the pulse icon. */
  lemma MonitorLinkHasPulse(n: Notification)
    requires MonitorLink(n).Some?
    ensures IconOf(n) == Pulse
  {
  }

  predicate Unread(n: Notification) {
    !n.isRead
  }

  /** `filter((n) => n.id !== id)`: every notification with that id goes, the rest stay in order. */
  function RemoveById(ns: seq<Notification>, id: string): (r: seq<Notification>)
    ensures SubsequenceOf(r, ns)
    ensures forall i :: 0 <= i < |r| ==> r[i].id != id
    ensures forall i :: 0 <= i < |ns| && ns[i].id != id ==> ns[i] in r
  {
    var keep := (n: Notification) => n.id != id;
    FilterSubsequence(ns, keep);
    Filter(ns, keep)
  }

  /** Removing twice removes nothing more. */
  lemma RemoveByIdIdempotent(ns: seq<Notification>, id: string)
    ensures RemoveById(RemoveById(ns, id), id) == RemoveById(ns, id)
  {
    var r := RemoveById(ns, id);
    FilterKeepsAll(r, (n: Notification) => n.id != id);
  }

  /** Exactly the notifications with that id are removed. */
  lemma RemoveByIdCount(ns: seq<Notification>, id: string)
    ensures |RemoveById(ns, id)| == |ns| - Count(ns, (n: Notification) => n.id == id)
  {
    var keep := (n: Notification) => n.id != id;
    var drop := (n: Notification) => n.id == id;
    FilterPartition(ns, keep, drop);
    FilterCount(ns, drop);
  }

  /**
   * The list after a server call about one notification that, when it succeeds, drops it
   * from the list shown: the notification centre's delete and the alerts widget's mark
   * as read both update their lists this way, and a failed call leaves the list as it was.
   */
  function DropOnSuccess(ns: seq<Notification>, id: string, ok: bool): (r: seq<Notification>)
    ensures ok ==> r == RemoveById(ns, id)
    ensures !ok ==> r == ns
  {
    if ok then RemoveById(ns, id) else ns
  }

  /**
   * `map((n) => n.id === id ? { ...n, is_read: true } : n)`: afterwards no notification
   * with that id is unread; nothing else about any notification changes.
   */
  function MarkRead(ns: seq<Notification>, id: string): (r: seq<Notification>)
    ensures |r| == |ns|
    ensures forall i :: 0 <= i < |ns| && ns[i].id == id ==> !Unread(r[i])
    ensures forall i :: 0 <= i < |ns| ==> r[i].(isRead := ns[i].isRead) == ns[i]
    ensures forall i :: 0 <= i < |ns| && ns[i].id != id ==> r[i] == ns[i]
  {
    if ns == [] then []
    else [if ns[0].id == id then ns[0].(isRead := true) else ns[0]] + MarkRead(ns[1..], id)
  }

  /** Marking twice is marking once. */
  lemma MarkReadIdempotent(ns: seq<Notification>, id: string)
    ensures MarkRead(MarkRead(ns, id), id) == MarkRead(ns, id)
  {
  }

  /**
   * The two views agree: the unread part of the list after marking a notification read
   * is the unread part before, without that notification.
   */
  lemma {:induction false} UnreadAfterMark(ns: seq<Notification>, id: string)
    ensures Filter(MarkRead(ns, id), Unread) == RemoveById(Filter(ns, Unread), id)
  {
    if ns != [] {
      UnreadAfterMark(ns[1..], id);
      var m := MarkRead(ns, id);
      assert m[1..] == MarkRead(ns[1..], id);
      var u := Filter(ns, Unread);
      if Unread(ns[0]) {
        assert u[1..] == Filter(ns[1..], Unread);
        assert u == [ns[0]] + Filter(ns[1..], Unread);
      }
    }
  }
}

/** The doula's notification centre: every notification, newest first. */
module NotificationsPage {
  import opened Wrappers
  import opened Notifications

  /** The small `מערכת` caption: no mother name and not a contraction alert. */
  predicate ShowsSystemCaption(n: Notification) {
    !Truthy(n.motherName) && n.kind != "contraction"
  }

  /** The caption and the monitor link never appear on the same notification. */
  lemma CaptionAndLinkExclusive(n: Notification)
    ensures !(ShowsSystemCaption(n) && MonitorLink(n).Some?)
    ensures ShowsSystemCaption(n) ==> IconOf(n) == Bell
  {
  }

  /** The mark-as-read button appears only on unread notifications. */
  function ShowsMarkButton(n: Notification): (r: bool)
    ensures r <==> Unread(n)
  {
    !n.isRead
  }
}

/** The dashboard's alerts widget (site generation): the five newest unread notifications. */
module AlertsWidget {
  import opened Wrappers
  import opened Seqs
  import opened Notifications

  const SystemSender: string := "מערכת"

  /** The sender line: the mother's name, or `מערכת`. */
  function SenderName(n: Notification): (r: string)
    ensures r != []
    ensures Truthy(n.motherName) ==> r == n.motherName.value
    ensures !Truthy(n.motherName) ==> r == SystemSender
  {
    if Truthy(n.motherName) then n.motherName.value else SystemSender
  }

  /** The counter beside the title: the number shown, and nothing for an empty list. */
  function CountBadge(ns: seq<Notification>): (r: Option<nat>)
    ensures r.Some? <==> |ns| > 0
    ensures r.Some? ==> r.value == |ns|
  {
    if |ns| > 0 then Some(|ns|) else None
  }

  /** The query: the doula's unread notifications, newest first, at most five. */
  function WidgetQuery(all: seq<Notification>): (r: seq<Notification>)
    ensures |r| <= 5
    ensures forall i :: 0 <= i < |r| ==> Unread(r[i])
    ensures |r| <= |Filter(all, Unread)| && r == Filter(all, Unread)[..|r|]
    ensures |r| == 5 || r == Filter(all, Unread)
  {
    var u := Filter(all, Unread);
    if |u| <= 5 then u else u[..5]
  }
}
