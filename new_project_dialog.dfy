/**
 * The manager's new-project dialog (`NewProjectDialogPage`): the field
 * check, the save button's enabling condition, the create request and the
 * field reset on close. `parse` stands for `new Date(s).getTime()`, `None`
 * for an invalid date (NaN, which every comparison rejects).
 */
module NewProjectDialog {
  import opened Common
  import opened Text

  /** `new Date(a) > new Date(b)`: false when either is not a date. */
  predicate After(a: string, b: string, parse: string -> Option<int>) {
    parse(a).Some? && parse(b).Some? && parse(a).value > parse(b).value
  }

  /** `new Date(a) <= new Date(b)`: false when either is not a date. */
  predicate NotAfter(a: string, b: string, parse: string -> Option<int>) {
    parse(a).Some? && parse(b).Some? && parse(a).value <= parse(b).value
  }

  /** `validate`: the first problem found, or '' when there is none. */
  function Validate(title: string, startDate: string, endDate: string, parse: string -> Option<int>): (r: string)
    ensures r == "" <==> !IsBlank(title) && startDate != "" && endDate != "" && !After(startDate, endDate, parse)
    ensures IsBlank(title) ==> r == "Project title is required"
    ensures !IsBlank(title) && startDate == "" ==> r == "Start date is required"
    ensures !IsBlank(title) && startDate != "" && endDate == "" ==> r == "End date is required"
  {
    if Trim(title) == "" then "Project title is required"
    else if startDate == "" then "Start date is required"
    else if endDate == "" then "End date is required"
    else if After(startDate, endDate, parse) then "End date must be on or after the start date"
    else ""
  }

  /** `canSave`: a title, two dates in order, and no save under way. */
  predicate CanSave(title: string, startDate: string, endDate: string, isLoading: bool, parse: string -> Option<int>) {
    |Trim(title)| > 0 && startDate != "" && endDate != "" && NotAfter(startDate, endDate, parse) && !isLoading
  }

  /**
   * An enabled save button always passes the check; the check also passes
   * dates that do not parse, which keep the button disabled.
   */
  lemma CanSaveValidates(title: string, startDate: string, endDate: string, parse: string -> Option<int>)
    ensures CanSave(title, startDate, endDate, false, parse) ==> Validate(title, startDate, endDate, parse) == ""
    ensures Validate(title, startDate, endDate, parse) == "" && parse(startDate).Some? && parse(endDate).Some? ==>
      CanSave(title, startDate, endDate, false, parse)
    ensures Validate(title, startDate, endDate, parse) == "" && parse(startDate).None? ==>
      !CanSave(title, startDate, endDate, false, parse)
  {
  }

  /** The create body: trimmed title, trimmed description or `null`, and the two dates as typed. */
  datatype Payload = Payload(title: string, description: Option<string>, startDate: string, endDate: string)

  function PayloadOf(title: string, desc: string, startDate: string, endDate: string): (p: Payload)
    ensures p.title == Trim(title) && p.startDate == startDate && p.endDate == endDate
    ensures p.description.None? <==> IsBlank(desc)
    ensures p.description.Some? ==> p.description.value == Trim(desc)
  {
    Payload(Trim(title), if Trim(desc) == "" then None else Some(Trim(desc)), startDate, endDate)
  }

  /**
   * The whole effect of a create request: a created project closes the
   * dialog, clears the fields and tells the list once; otherwise the fields
   * stay and the error says why.
   */
  ghost predicate SendEffect(
    payload: Payload, reply: Reply<()>,
    sent0: seq<Payload>, open0: bool, created0: nat, title0: string, desc0: string, start0: string, end0: string,
    sent: seq<Payload>, open: bool, created: nat, title: string, desc: string, startDate: string, endDate: string, err: string)
  {
    && sent == sent0 + [payload]
    && (reply.Json? && reply.success ==>
          && !open && created == created0 + 1 && err == ""
          && title == "" && desc == "" && startDate == "" && endDate == "")
    && (!(reply.Json? && reply.success) ==>
          && open == open0 && created == created0 && title == title0 && desc == desc0
          && startDate == start0 && endDate == end0
          && err == (if reply.Json? then reply.MessageOr("Failed to create project.") else "Server error while creating project."))
  }

  class Dialog {
    var open: bool
    var title: string
    var desc: string
    var startDate: string
    var endDate: string
    var err: string
    var sent: seq<Payload>
    /** How many times `onProjectCreated` has been called. */
    var created: nat

    constructor()
      ensures !open && title == "" && desc == "" && startDate == "" && endDate == "" && err == ""
      ensures sent == [] && created == 0
    {
      open := false;
      title := "";
      desc := "";
      startDate := "";
      endDate := "";
      err := "";
      sent := [];
      created := 0;
    }

    /** The open/close effect: closing clears the four fields and the error; opening changes nothing else. */
    method SetOpen(isOpen: bool)
      modifies this
      ensures open == isOpen && sent == old(sent) && created == old(created)
      ensures !isOpen ==> title == "" && desc == "" && startDate == "" && endDate == "" && err == ""
      ensures isOpen ==> title == old(title) && desc == old(desc) && startDate == old(startDate)
                         && endDate == old(endDate) && err == old(err)
    {
      open := isOpen;
      if !isOpen {
        title := "";
        desc := "";
        startDate := "";
        endDate := "";
        err := "";
      }
    }

    /**
     * `handleCreate`: a problem found by the check is shown and nothing is
     * sent. A created project closes the dialog, clears the fields and tells
     * the list; otherwise the error says why.
     */
    method Create(reply: Reply<()>, parse: string -> Option<int>)
      modifies this
      ensures Validate(old(title), old(startDate), old(endDate), parse) != "" ==>
        && err == Validate(old(title), old(startDate), old(endDate), parse)
        && sent == old(sent) && open == old(open) && created == old(created) && title == old(title)
        && desc == old(desc) && startDate == old(startDate) && endDate == old(endDate)
      ensures Validate(old(title), old(startDate), old(endDate), parse) == "" ==>
        SendEffect(PayloadOf(old(title), old(desc), old(startDate), old(endDate)), reply,
                   old(sent), old(open), old(created), old(title), old(desc), old(startDate), old(endDate), sent, open, created, title, desc, startDate, endDate, err)
    {
      var v := Validate(title, startDate, endDate, parse);
      if v != "" {
        err := v;
        return;
      }
      Send(PayloadOf(title, desc, startDate, endDate), reply);
    }

    /** The create request once the check has passed. */
    method Send(payload: Payload, reply: Reply<()>)
      modifies this
      ensures SendEffect(payload, reply, old(sent), old(open), old(created), old(title), old(desc), old(startDate), old(endDate),
                         sent, open, created, title, desc, startDate, endDate, err)
    {
      err := "";
      sent := sent + [payload];
      if reply.Json? && reply.success {
        SetOpen(false);
        created := created + 1;
      } else if reply.Json? {
        err := reply.MessageOr("Failed to create project.");
      } else {
        err := "Server error while creating project.";
      }
    }
  }
}
