/**
 * The coordinator's notice page (`CoordinatorNoticePage`): the notice list
 * with its load, mark-read and delete, and the create/edit dialog with its
 * form, guard and request body.
 */
module CoordinatorNoticePage {
  import opened Common
  import opened Notices

  /** The dialog's form. */
  datatype Form = Form(title: string, content: string, priority: string, status: string, expiresAt: string, isPublic: bool)

  /** The form of a new notice. */
  const BlankForm := Form("", "", "normal", "active", "", true)

  /** `openEdit`: the notice's fields, with missing ones at their defaults. */
  function FormOf(n: Notice): (f: Form)
    ensures f.title == n.title && f.content == n.content
    ensures f.priority == n.priority.GetOr("normal") && f.status == n.status.GetOr("active")
    ensures f.expiresAt == n.expiresAt.GetOr("") && f.isPublic == n.isPublic.GetOr(true)
  {
    Form(n.title, n.content, n.priority.GetOr("normal"), n.status.GetOr("active"), n.expiresAt.GetOr(""), n.isPublic.GetOr(true))
  }

  /** A notice with every optional field missing opens with the defaults of a new one. */
  lemma FormOfBare(id: int, title: string, content: string, ago: string, isNew: bool)
    ensures FormOf(Notice(id, title, content, ago, isNew, None, None, None, None)) == BlankForm.(title := title, content := content)
  {
  }

  /** The save body: `id` only in edit mode, `is_public` as 1 or 0. */
  datatype Body = Body(id: Option<int>, title: string, content: string, priority: string, status: string, expiresAt: string, isPublic: int)

  /** `handleSubmit`'s guard and body. The title and content only have to be non-empty: blanks pass. */
  function SubmitCheck(form: Form, editMode: Option<int>): (r: Result<Body>)
    ensures r.Err? <==> form.title == "" || form.content == ""
    ensures r.Err? ==> r.message == "Title and content are required"
    ensures r.Ok? ==> (r.value.id.Some? <==> Truthy(editMode)) && (r.value.id.Some? ==> r.value.id == editMode)
    ensures r.Ok? ==> r.value.isPublic == (if form.isPublic then 1 else 0)
    ensures r.Ok? ==> r.value.title == form.title && r.value.content == form.content && r.value.priority == form.priority
                      && r.value.status == form.status && r.value.expiresAt == form.expiresAt
  {
    if form.title == "" || form.content == "" then Err("Title and content are required")
    else
      Ok(Body(if Truthy(editMode) then editMode else None, form.title, form.content, form.priority, form.status,
              form.expiresAt, if form.isPublic then 1 else 0))
  }

  /** The requests the page sends. */
  datatype Request = ListNotices | Save(body: Body) | DeleteNotice(id: int)

  class NoticePage {
    var notices: seq<Notice>
    var error: string
    var showModal: bool
    /** The id being edited; `None` for a new notice. */
    var editMode: Option<int>
    var form: Form
    var sent: seq<Request>

    constructor()
      ensures notices == [] && error == "" && !showModal && editMode.None? && form == BlankForm && sent == []
    {
      notices := [];
      error := "";
      showModal := false;
      editMode := None;
      form := BlankForm;
      sent := [];
    }

    /** `fetchNotices` at time `nowMs`: a good reply replaces the list, a bad one sets the error. */
    method FetchNotices(reply: Reply<seq<Item>>, nowMs: int)
      modifies this
      ensures sent == old(sent) + [ListNotices]
      ensures LoadNotices(reply, nowMs).Ok? ==> notices == LoadNotices(reply, nowMs).value && error == ""
      ensures LoadNotices(reply, nowMs).Err? ==> notices == old(notices) && error == LoadNotices(reply, nowMs).message
      ensures showModal == old(showModal) && editMode == old(editMode) && form == old(form)
    {
      sent := sent + [ListNotices];
      var r := LoadNotices(reply, nowMs);
      match r {
        case Ok(ns) =>
          notices := ns;
          error := "";
        case Err(m) =>
          error := m;
      }
    }

    /** `openNew`: a blank form for a new notice. */
    method OpenNew()
      modifies this
      ensures editMode.None? && form == BlankForm && showModal
      ensures notices == old(notices) && error == old(error) && sent == old(sent)
    {
      editMode := None;
      form := BlankForm;
      showModal := true;
    }

    /** `openEdit`: the notice's form, in edit mode for its id. */
    method OpenEdit(n: Notice)
      modifies this
      ensures editMode == Some(n.id) && form == FormOf(n) && showModal
      ensures notices == old(notices) && error == old(error) && sent == old(sent)
    {
      editMode := Some(n.id);
      form := FormOf(n);
      showModal := true;
    }

    /**
     * `handleSubmit`: the guard sets its message and sends nothing. A saved
     * notice resets the form, closes the dialog, leaves edit mode and
     * reloads the list; otherwise the error says why.
     */
    method Submit(reply: Reply<()>, reloadReply: Reply<seq<Item>>, nowMs: int)
      modifies this
      ensures SubmitCheck(old(form), old(editMode)).Err? ==>
        error == "Title and content are required" && sent == old(sent) && notices == old(notices)
        && form == old(form) && showModal == old(showModal) && editMode == old(editMode)
      ensures SubmitCheck(old(form), old(editMode)).Ok? && reply.Json? && reply.success ==>
        && sent == old(sent) + [Save(SubmitCheck(old(form), old(editMode)).value), ListNotices]
        && form == BlankForm && !showModal && editMode.None?
        && (LoadNotices(reloadReply, nowMs).Ok? ==> notices == LoadNotices(reloadReply, nowMs).value && error == "")
        && (LoadNotices(reloadReply, nowMs).Err? ==>
              notices == old(notices) && error == LoadNotices(reloadReply, nowMs).message)
      ensures SubmitCheck(old(form), old(editMode)).Ok? && !(reply.Json? && reply.success) ==>
        && sent == old(sent) + [Save(SubmitCheck(old(form), old(editMode)).value)]
        && form == old(form) && showModal == old(showModal) && editMode == old(editMode) && notices == old(notices)
        && error == (if reply.Json? then reply.MessageOr("Failed to save notice") else "Server error while saving notice.")
    {
      var check := SubmitCheck(form, editMode);
      if check.Err? {
        error := check.message;
        return;
      }
      error := "";
      sent := sent + [Save(check.value)];
      if reply.Json? && reply.success {
        form := BlankForm;
        showModal := false;
        editMode := None;
        FetchNotices(reloadReply, nowMs);
      } else if reply.Json? {
        error := reply.MessageOr("Failed to save notice");
      } else {
        error := "Server error while saving notice.";
      }
    }

    /**
     * `handleDelete`: nothing unless confirmed; a successful delete drops
     * the notices with that id, a failed one only sets the error.
     */
    method Delete(id: int, confirmed: bool, reply: Reply<()>)
      modifies this
      ensures !confirmed ==> notices == old(notices) && sent == old(sent) && error == old(error)
      ensures confirmed ==> sent == old(sent) + [DeleteNotice(id)]
      ensures confirmed && reply.Json? && reply.success ==> notices == WithoutNotice(old(notices), id) && error == old(error)
      ensures confirmed && !(reply.Json? && reply.success) ==>
        && notices == old(notices)
        && error == (if reply.Json? then reply.MessageOr("Failed to delete notice") else "Server error while deleting notice.")
      ensures form == old(form) && showModal == old(showModal) && editMode == old(editMode)
    {
      if !confirmed {
        return;
      }
      sent := sent + [DeleteNotice(id)];
      if reply.Json? && reply.success {
        notices := WithoutNotice(notices, id);
      } else if reply.Json? {
        error := reply.MessageOr("Failed to delete notice");
      } else {
        error := "Server error while deleting notice.";
      }
    }

    /** `markAsRead`: only the flag of the notices with that id changes. */
    method MarkRead(id: int)
      modifies this
      ensures notices == MarkAsRead(old(notices), id)
      ensures error == old(error) && sent == old(sent) && form == old(form) && showModal == old(showModal)
      ensures editMode == old(editMode)
    {
      notices := MarkAsRead(notices, id);
    }
  }
}
