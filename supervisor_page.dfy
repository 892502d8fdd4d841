/**
 * The coordinator's supervisor page (`SupervisorPage`): the supervisor list
 * with its avatar links, the create/edit dialog with its guard and request
 * body, and delete.
 */
module SupervisorPage {
  import opened Common
  import opened Text
  import opened Seqs

  /** A supervisor as the server lists it. */
  datatype Item = Item(
    id: int, fullName: string, email: string, contact: string, facultyName: string,
    departmentName: string, about: string, kind: string)

  /** A supervisor as the page holds it: the server's fields and an avatar link. */
  datatype Supervisor = Supervisor(item: Item, image: string)

  /** `s.replace(/\s+/g, '+')`: each run of white space becomes one '+'. */
  function PlusRuns(s: string): (r: string)
    ensures forall i :: 0 <= i < |r| ==> !IsSpace(r[i])
    ensures |r| <= |s|
  {
    if s == [] then []
    else if IsSpace(s[0]) then
      var t := TrimStart(s[1..]);
      assert |t| < |s|;
      var rest := PlusRuns(t);
      assert forall i :: 0 <= i < |rest| ==> !IsSpace(rest[i]);
      "+" + rest
    else [s[0]] + PlusRuns(s[1..])
  }

  /** A name without white space is kept as it is. */
  lemma {:induction false} PlusRunsNoSpace(s: string)
    requires forall i :: 0 <= i < |s| ==> !IsSpace(s[i])
    ensures PlusRuns(s) == s
  {
    if s != [] {
      PlusRunsNoSpace(s[1..]);
    }
  }

  /** A word without white space passes through unchanged in front of the rest. */
  lemma {:induction false} PlusRunsWord(w: string, t: string)
    requires forall i :: 0 <= i < |w| ==> !IsSpace(w[i])
    ensures PlusRuns(w + t) == w + PlusRuns(t)
  {
    if w != [] {
      assert (w + t)[0] == w[0] && (w + t)[1..] == w[1..] + t;
      assert PlusRuns(w + t) == [w[0]] + PlusRuns(w[1..] + t);
      PlusRunsWord(w[1..], t);
      assert w == [w[0]] + w[1..];
    } else {
      assert w + t == t;
    }
  }

  /** Two words with a run of white space between them are joined by a single '+'. */
  lemma PlusRunsJoin(w1: string, gap: string, w2: string)
    requires forall i :: 0 <= i < |w1| ==> !IsSpace(w1[i])
    requires forall i :: 0 <= i < |w2| ==> !IsSpace(w2[i])
    requires gap != [] && IsBlank(gap)
    ensures PlusRuns(w1 + gap + w2) == w1 + "+" + w2
  {
    assert w1 + gap + w2 == w1 + (gap + w2);
    PlusRunsWord(w1, gap + w2);
    PlusRunsGap(gap, w2);
  }

  /** A run of white space in front of a word becomes one '+'. */
  lemma PlusRunsGap(gap: string, w: string)
    requires forall i :: 0 <= i < |w| ==> !IsSpace(w[i])
    requires gap != [] && IsBlank(gap)
    ensures PlusRuns(gap + w) == "+" + w
  {
    assert (gap + w)[0] == gap[0] && (gap + w)[1..] == gap[1..] + w;
    GapTrim(gap[1..], w);
    PlusRunsNoSpace(w);
  }

  /** Trimming the front of blank text and a word leaves the word. */
  lemma {:induction false} GapTrim(gap: string, w: string)
    requires IsBlank(gap)
    requires w == [] || !IsSpace(w[0])
    ensures TrimStart(gap + w) == w
  {
    if gap != [] {
      assert (gap + w)[1..] == gap[1..] + w;
      GapTrim(gap[1..], w);
    } else {
      assert gap + w == w;
    }
  }

  /** The avatar link built from the full name. */
  function AvatarUrl(fullName: string): string {
    "https://ui-avatars.com/api/?name=" + PlusRuns(fullName) + "&background=34d399&color=fff"
  }

  /** `data.supervisors.map(item => ({ ...item, image }))` */
  function WithAvatars(items: seq<Item>): (r: seq<Supervisor>)
    ensures |r| == |items|
    ensures forall i :: 0 <= i < |items| ==> r[i].item == items[i] && r[i].image == AvatarUrl(items[i].fullName)
  {
    seq(|items|, i requires 0 <= i < |items| => Supervisor(items[i], AvatarUrl(items[i].fullName)))
  }

  /**
   * `fetchSupervisors`: a request that throws or a body that is not JSON is
   * a server error; a success carrying a list gives the supervisors;
   * anything else gives the server's message or "Failed to load supervisors".
   */
  function LoadSupervisors(reply: Reply<seq<Item>>): (r: Result<seq<Supervisor>>)
    ensures r.Ok? <==> reply.Carries()
    ensures r.Ok? ==> r.value == WithAvatars(reply.payload.value)
    ensures !reply.Json? ==> r == Err("Server error while loading supervisors.")
    ensures reply.Json? && !reply.Carries() ==> r == Err(reply.MessageOr("Failed to load supervisors"))
  {
    if !reply.Json? then Err("Server error while loading supervisors.")
    else if reply.Carries() then Ok(WithAvatars(reply.payload.value))
    else Err(reply.MessageOr("Failed to load supervisors"))
  }

  /** The dialog's form. */
  datatype Form = Form(
    fullName: string, email: string, contact: string, kind: string,
    facultyName: string, departmentName: string, about: string)

  const BlankForm := Form("", "", "", "supervisor", "", "", "")

  /** `openEdit`: the supervisor's own fields. */
  function FormOf(s: Supervisor): (f: Form)
    ensures f.fullName == s.item.fullName && f.email == s.item.email && f.contact == s.item.contact
    ensures f.kind == s.item.kind && f.facultyName == s.item.facultyName
    ensures f.departmentName == s.item.departmentName && f.about == s.item.about
  {
    Form(s.item.fullName, s.item.email, s.item.contact, s.item.kind, s.item.facultyName, s.item.departmentName, s.item.about)
  }

  /** The save body: `{ id: editMode, ...form }` in edit mode, the form alone otherwise. */
  datatype Body = Body(id: Option<int>, form: Form)

  /**
   * `handleSubmit`'s guard and body: name, email, faculty and department
   * must be non-empty; contact and about may be empty.
   */
  function SubmitCheck(form: Form, editMode: Option<int>): (r: Result<Body>)
    ensures r.Err? <==> form.fullName == "" || form.email == "" || form.facultyName == "" || form.departmentName == ""
    ensures r.Err? ==> r.message == "Name, email, faculty, and department are required"
    ensures r.Ok? ==> r.value.form == form
    ensures r.Ok? ==> (r.value.id.Some? <==> Truthy(editMode)) && (Truthy(editMode) ==> r.value.id == editMode)
  {
    if form.fullName == "" || form.email == "" || form.facultyName == "" || form.departmentName == "" then
      Err("Name, email, faculty, and department are required")
    else
      Ok(Body(if Truthy(editMode) then editMode else None, form))
  }

  /** `prev.filter(s => s.id !== id)` */
  function WithoutSupervisor(sups: seq<Supervisor>, id: int): (r: seq<Supervisor>)
    ensures |r| <= |sups|
  {
    Filter(sups, (s: Supervisor) => s.item.id != id)
  }

  /** Deleting keeps, in order, exactly the supervisors with another id. */
  lemma WithoutSupervisorSpec(sups: seq<Supervisor>, id: int)
    ensures forall s :: s in WithoutSupervisor(sups, id) <==> s in sups && s.item.id != id
    ensures IsSubseq(WithoutSupervisor(sups, id), sups)
  {
    FilterMembers(sups, (s: Supervisor) => s.item.id != id);
    FilterSubseq(sups, (s: Supervisor) => s.item.id != id);
  }

  /** The requests the page sends. */
  datatype Request = ListSupervisors | Save(body: Body) | DeleteSupervisor(id: int)

  class SupervisorList {
    var supervisors: seq<Supervisor>
    var error: string
    var showModal: bool
    var editMode: Option<int>
    var form: Form
    var sent: seq<Request>

    constructor()
      ensures supervisors == [] && error == "" && !showModal && editMode.None? && form == BlankForm && sent == []
    {
      supervisors := [];
      error := "";
      showModal := false;
      editMode := None;
      form := BlankForm;
      sent := [];
    }

    /** `fetchSupervisors`: a good reply replaces the list, a bad one sets the error. */
    method FetchSupervisors(reply: Reply<seq<Item>>)
      modifies this
      ensures sent == old(sent) + [ListSupervisors]
      ensures LoadSupervisors(reply).Ok? ==> supervisors == LoadSupervisors(reply).value && error == ""
      ensures LoadSupervisors(reply).Err? ==> supervisors == old(supervisors) && error == LoadSupervisors(reply).message
      ensures showModal == old(showModal) && editMode == old(editMode) && form == old(form)
    {
      sent := sent + [ListSupervisors];
      error := "";
      var r := LoadSupervisors(reply);
      if r.Ok? {
        supervisors := r.value;
      } else {
        error := r.message;
      }
    }

    /** `openNew`: a blank form, not in edit mode. */
    method OpenNew()
      modifies this
      ensures editMode.None? && form == BlankForm && showModal
      ensures supervisors == old(supervisors) && error == old(error) && sent == old(sent)
    {
      editMode := None;
      form := BlankForm;
      showModal := true;
    }

    /** `openEdit`: the supervisor's form, in edit mode for its id. */
    method OpenEdit(s: Supervisor)
      modifies this
      ensures editMode == Some(s.item.id) && form == FormOf(s) && showModal
      ensures supervisors == old(supervisors) && error == old(error) && sent == old(sent)
    {
      editMode := Some(s.item.id);
      form := FormOf(s);
      showModal := true;
    }

    /**
     * `handleSubmit`: the guard sets its message and sends nothing. A save
     * resets the form (type 'supervisor'), closes the dialog, leaves edit
     * mode and reloads the list; otherwise the error says why.
     */
    method Submit(reply: Reply<()>, reloadReply: Reply<seq<Item>>)
      modifies this
      ensures SubmitCheck(old(form), old(editMode)).Err? ==>
        && error == SubmitCheck(old(form), old(editMode)).message && sent == old(sent)
        && supervisors == old(supervisors) && form == old(form) && showModal == old(showModal) && editMode == old(editMode)
      ensures SubmitCheck(old(form), old(editMode)).Ok? && reply.Json? && reply.success ==>
        && sent == old(sent) + [Save(SubmitCheck(old(form), old(editMode)).value), ListSupervisors]
        && form == BlankForm && !showModal && editMode.None?
        && (LoadSupervisors(reloadReply).Ok? ==> supervisors == LoadSupervisors(reloadReply).value && error == "")
        && (LoadSupervisors(reloadReply).Err? ==>
              supervisors == old(supervisors) && error == LoadSupervisors(reloadReply).message)
      ensures SubmitCheck(old(form), old(editMode)).Ok? && !(reply.Json? && reply.success) ==>
        && sent == old(sent) + [Save(SubmitCheck(old(form), old(editMode)).value)]
        && form == old(form) && showModal == old(showModal) && editMode == old(editMode) && supervisors == old(supervisors)
        && error == (if reply.Json? then reply.MessageOr("Failed to save supervisor") else "Server error while saving supervisor.")
    {
      var check := SubmitCheck(form, editMode);
      if check.Err? {
        error := check.message;
        return;
      }
      error := "";
      sent := sent + [Save(check.value)];
      if reply.Json? && reply.success {
        form := BlankForm;
        showModal := false;
        editMode := None;
        FetchSupervisors(reloadReply);
      } else if reply.Json? {
        error := reply.MessageOr("Failed to save supervisor");
      } else {
        error := "Server error while saving supervisor.";
      }
    }

    /** `handleDelete`: nothing unless confirmed; a successful delete drops that id. */
    method Delete(id: int, confirmed: bool, reply: Reply<()>)
      modifies this
      ensures !confirmed ==> supervisors == old(supervisors) && sent == old(sent) && error == old(error)
      ensures confirmed ==> sent == old(sent) + [DeleteSupervisor(id)]
      ensures confirmed && reply.Json? && reply.success ==>
        supervisors == WithoutSupervisor(old(supervisors), id) && error == old(error)
      ensures confirmed && !(reply.Json? && reply.success) ==>
        && supervisors == old(supervisors)
        && error == (if reply.Json? then reply.MessageOr("Failed to delete supervisor") else "Server error while deleting supervisor.")
      ensures form == old(form) && showModal == old(showModal) && editMode == old(editMode)
    {
      if !confirmed {
        return;
      }
      sent := sent + [DeleteSupervisor(id)];
      if reply.Json? && reply.success {
        supervisors := WithoutSupervisor(supervisors, id);
      } else if reply.Json? {
        error := reply.MessageOr("Failed to delete supervisor");
      } else {
        error := "Server error while deleting supervisor.";
      }
    }
  }
}
