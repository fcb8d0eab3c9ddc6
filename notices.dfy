/** The notification list both contexts keep (src/context/FinanceContext.tsx
    and src/context/FinanceContextSupabase.tsx): newest first, each item
    unread until it is marked read. */
module Notices {

  import opened Base
  import opened FinanceTypes

  /** `{ ...notification, id, timestamp, read: false }` placed before the existing items. */
  function AddNotice(ns: seq<Notification>, id: string, kind: NoticeKind, message: string,
                     timestamp: string): (r: seq<Notification>)
    ensures |r| == |ns| + 1 && r[1..] == ns
    ensures r[0].id == id && r[0].kind == kind && r[0].message == message && !r[0].read
    ensures r[0].timestamp == timestamp
    ensures UnreadCount(r) == UnreadCount(ns) + 1
  {
    var n := Notification(id, kind, message, timestamp, false);
    assert ([n] + ns)[1..] == ns;
    [n] + ns
  }

  function IsUnread(n: Notification): bool { !n.read }

  /** The number of unread items (what the header badge counts). */
  function UnreadCount(ns: seq<Notification>): nat
  {
    Count(ns, IsUnread)
  }

  /** `prev.map(n => n.id === id ? { ...n, read: true } : n)`. */
  function MarkRead(ns: seq<Notification>, id: string): (r: seq<Notification>)
    ensures |r| == |ns|
    ensures forall i :: 0 <= i < |ns| ==>
      r[i] == (if ns[i].id == id then ns[i].(read := true) else ns[i])
  {
    ReplaceWhere(ns, (n: Notification) => n.id == id, (n: Notification) => n.(read := true))
  }

  /** Marking read twice is the same as once; afterwards no item with that id
      is unread, and the unread count has not grown. */
  lemma {:induction false} MarkReadLaws(ns: seq<Notification>, id: string)
    ensures MarkRead(MarkRead(ns, id), id) == MarkRead(ns, id)
    ensures forall n :: n in MarkRead(ns, id) && n.id == id ==> n.read
    ensures UnreadCount(MarkRead(ns, id)) <= UnreadCount(ns)
  {
    var r := MarkRead(ns, id);
    assert MarkRead(r, id) == r;
    if ns != [] {
      MarkReadLaws(ns[1..], id);
      assert r[1..] == MarkRead(ns[1..], id);
    }
  }
}
