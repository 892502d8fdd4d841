/**
 * What the two notice pages share: a notice as listed, its "time ago"
 * label and "new" flag taken from the server item, the list load, marking
 * a notice read and dropping a deleted one.
 */
module Notices {
  import opened Common
  import opened Text
  import opened Seqs
  import opened Formatters

  /**
   * A notice as the server lists it. `stamp` is the time that
   * `updated_at || created_at` stands for, `None` when neither is there.
   */
  datatype Item = Item(
    id: int, title: string, content: string, priority: Option<string>, status: Option<string>,
    expiresAt: Option<string>, isPublic: Option<bool>, stamp: Option<int>)

  /** A notice as the page holds it. */
  datatype Notice = Notice(
    id: int, title: string, content: string, timeAgo: string, isNew: bool,
    priority: Option<string>, status: Option<string>, expiresAt: Option<string>, isPublic: Option<bool>)

  /**
   * The load mapping at time `nowMs`. Without a date, `new Date(undefined)`
   * is not a number: the label falls through to "Just now" and the notice
   * is not new.
   */
  function NoticeOf(item: Item, nowMs: int): (n: Notice)
    ensures n.id == item.id && n.title == item.title && n.content == item.content
    ensures n.priority == item.priority && n.status == item.status
    ensures n.expiresAt == item.expiresAt && n.isPublic == item.isPublic
    ensures n.isNew <==> item.stamp.Some? && nowMs - item.stamp.value < 7 * DayMs
    ensures item.stamp.None? ==> n.timeAgo == "Just now"
  {
    var ago := if item.stamp.Some? then TimeAgo(nowMs - item.stamp.value) else "Just now";
    var recent := item.stamp.Some? && IsNew(item.stamp.value, nowMs);
    Notice(item.id, item.title, item.content, ago, recent, item.priority, item.status, item.expiresAt, item.isPublic)
  }

  /** `data.data.map(...)` */
  function NoticesOf(items: seq<Item>, nowMs: int): (r: seq<Notice>)
    ensures |r| == |items|
    ensures forall i :: 0 <= i < |items| ==> r[i] == NoticeOf(items[i], nowMs)
  {
    seq(|items|, i requires 0 <= i < |items| => NoticeOf(items[i], nowMs))
  }

  /**
   * `fetchNotices`: a request that throws or a body that is not JSON is a
   * server error; a success carrying a list gives the notices; anything
   * else gives the server's message or "Failed to load notices".
   */
  function LoadNotices(reply: Reply<seq<Item>>, nowMs: int): (r: Result<seq<Notice>>)
    ensures r.Ok? <==> reply.Carries()
    ensures r.Ok? ==> r.value == NoticesOf(reply.payload.value, nowMs)
    ensures !reply.Json? ==> r == Err("Server error while loading notices.")
    ensures reply.Json? && !reply.Carries() ==> r == Err(reply.MessageOr("Failed to load notices"))
  {
    match reply
    case Json(_, _, success, message, payload) =>
      if success && payload.Some? then Ok(NoticesOf(payload.value, nowMs))
      else Err(reply.MessageOr("Failed to load notices"))
    case _ => Err("Server error while loading notices.")
  }

  /** `prev.map(n => n.id === id ? { ...n, isNew: false } : n)` */
  function MarkAsRead(notices: seq<Notice>, id: int): (r: seq<Notice>)
    ensures |r| == |notices|
  {
    seq(|notices|, i requires 0 <= i < |notices| => if notices[i].id == id then notices[i].(isNew := false) else notices[i])
  }

  /**
   * Marking read clears the flag of exactly the notices with that id, changes
   * nothing else, and doing it twice is the same as once.
   */
  lemma MarkAsReadSpec(notices: seq<Notice>, id: int)
    ensures forall i :: 0 <= i < |notices| ==>
      var n := MarkAsRead(notices, id)[i];
      && n.(isNew := notices[i].isNew) == notices[i]
      && (n.isNew <==> notices[i].isNew && notices[i].id != id)
    ensures MarkAsRead(MarkAsRead(notices, id), id) == MarkAsRead(notices, id)
  {
  }

  /** `prev.filter(n => n.id !== id)` */
  function WithoutNotice(notices: seq<Notice>, id: int): (r: seq<Notice>)
    ensures |r| <= |notices|
  {
    Filter(notices, (n: Notice) => n.id != id)
  }

  /** Deleting keeps, in order, exactly the notices with another id. */
  lemma WithoutNoticeSpec(notices: seq<Notice>, id: int)
    ensures forall n :: n in WithoutNotice(notices, id) <==> n in notices && n.id != id
    ensures IsSubseq(WithoutNotice(notices, id), notices)
  {
    FilterMembers(notices, (n: Notice) => n.id != id);
    FilterSubseq(notices, (n: Notice) => n.id != id);
  }
}
