/**
 * The manager's notice page (`ManagerNoticePage`): the notice list loaded
 * once, and marking a notice read.
 */
module ManagerNoticePage {
  import opened Common
  import opened Notices

  class NoticePage {
    var notices: seq<Notice>
    var err: string

    constructor()
      ensures notices == [] && err == ""
    {
      notices := [];
      err := "";
    }

    /** `fetchNotices` at time `nowMs`: a good reply replaces the list, a bad one sets the error. */
    method FetchNotices(reply: Reply<seq<Item>>, nowMs: int)
      modifies this
      ensures LoadNotices(reply, nowMs).Ok? ==> notices == LoadNotices(reply, nowMs).value && err == ""
      ensures LoadNotices(reply, nowMs).Err? ==> notices == old(notices) && err == LoadNotices(reply, nowMs).message
    {
      err := "";
      var r := LoadNotices(reply, nowMs);
      if r.Ok? {
        notices := r.value;
      } else {
        err := r.message;
      }
    }

    /** `markAsRead`: only the flag of the notices with that id changes. */
    method MarkRead(id: int)
      modifies this
      ensures notices == MarkAsRead(old(notices), id) && err == old(err)
    {
      notices := MarkAsRead(notices, id);
    }
  }
}
