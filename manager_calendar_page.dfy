/**
 * The manager's calendar (`ManagerCalendarPage`): the event list, the day
 * selection, the event form with its add/update and delete, and the event
 * detail fetched on a click.
 */
module ManagerCalendarPage {
  import opened Common
  import opened Text
  import opened Seqs
  import opened Calendar

  /** The saved fields; `None` is a field left out of the JSON body (`|| undefined`). */
  datatype EventData = EventData(title: string, date: string, time: Option<string>, meetLink: Option<string>, description: Option<string>)

  /** The requests the page sends. */
  datatype Request = ListEvents | GetEvent(id: string) | Create(data: EventData) | Update(id: string, data: EventData) | DeleteEvent(id: string)

  /**
   * `handleAddEvent`'s guard and request: a title that is blank after
   * trimming or an empty date is refused; a form with an id updates that
   * event, one without creates a new one. The title is sent untrimmed.
   */
  function AddCheck(form: Event): (r: Result<Request>)
    ensures r.Err? <==> IsBlank(form.title) || form.date == ""
    ensures r.Err? ==> r.message == "Title and date are required."
    ensures r.Ok? ==> (r.value.Update? <==> form.id != "") && (r.value.Create? <==> form.id == "")
    ensures r.Ok? && r.value.Update? ==> r.value.id == form.id
    ensures r.Ok? ==> (r.value.Update? || r.value.Create?) && r.value.data.title == form.title && r.value.data.date == form.date
    ensures r.Ok? ==> r.value.data.time == NonEmpty(form.time) && r.value.data.meetLink == NonEmpty(form.link)
                      && r.value.data.description == NonEmpty(form.description)
  {
    if Trim(form.title) == "" || form.date == "" then Err("Title and date are required.")
    else
      var data := EventData(form.title, form.date, NonEmpty(form.time), NonEmpty(form.link), NonEmpty(form.description));
      if form.id != "" then Ok(Update(form.id, data)) else Ok(Create(data))
  }

  /** `HTTP error! status: n` */
  function HttpErrorText(status: int): string {
    "HTTP error! status: " + IntToString(status)
  }

  /**
   * The message a failed handler shows: a request that threw gives its own
   * message; a status that is not ok gives the HTTP error, checked before
   * the body is parsed; a body that is not JSON gives "API did not return
   * JSON"; a JSON answer gives the server's message or `fallback`.
   */
  function Failure<T>(reply: Reply<T>, fallback: string): string {
    match reply
    case NetworkError(e) => e
    case NotJson(ok, status, _) => if !ok then HttpErrorText(status) else "API did not return JSON"
    case Json(ok, status, _, _, _) => if !ok then HttpErrorText(status) else reply.MessageOr(fallback)
  }

  /**
   * The refresh after a save: only an ok JSON answer carrying `events`
   * replaces the list; anything else keeps it.
   */
  function Refreshed(events: seq<Event>, reply: Reply<seq<RawEvent>>): (r: seq<Event>)
    ensures reply.Json? && reply.ok && reply.payload.Some? ==> r == NormalizeAll(reply.payload.value)
    ensures !(reply.Json? && reply.ok && reply.payload.Some?) ==> r == events
  {
    if reply.Json? && reply.ok && reply.payload.Some? then NormalizeAll(reply.payload.value) else events
  }

  /** `events.filter(e => e.id !== id)` */
  function WithoutEvent(events: seq<Event>, id: string): (r: seq<Event>)
    ensures |r| <= |events|
  {
    Filter(events, (e: Event) => e.id != id)
  }

  /** Deleting keeps, in order, exactly the events with another id. */
  lemma WithoutEventSpec(events: seq<Event>, id: string)
    ensures forall e :: e in WithoutEvent(events, id) <==> e in events && e.id != id
    ensures IsSubseq(WithoutEvent(events, id), events)
  {
    FilterMembers(events, (e: Event) => e.id != id);
    FilterSubseq(events, (e: Event) => e.id != id);
  }

  /** The whole effect of a save that passed the guard, from the state before it to the state after. */
  ghost predicate SaveEffect(
    request: Request, reply: Reply<()>, reloadReply: Reply<seq<RawEvent>>,
    sent0: seq<Request>, events0: seq<Event>, form0: Event,
    sent: seq<Request>, events: seq<Event>, form: Event, err: string)
  {
    if !reply.Succeeded() then
      sent == sent0 + [request] && err == Failure(reply, "Failed to save event") && events == events0 && form == form0
    else
      && sent == sent0 + [request, ListEvents]
      && (reloadReply.NetworkError? ==> err == reloadReply.error && events == events0 && form == form0)
      && (!reloadReply.NetworkError? ==> err == "" && events == Refreshed(events0, reloadReply) && form == BlankEvent)
  }

  class CalendarPage {
    var events: seq<Event>
    var selectedDate: string
    /** The form (`newEvent`); a non-empty id means editing that event. */
    var form: Event
    var err: string
    var selectedEvent: Option<Event>
    var showModal: bool
    var sent: seq<Request>

    constructor()
      ensures events == [] && selectedDate == "" && form == BlankEvent && err == ""
      ensures selectedEvent.None? && !showModal && sent == []
    {
      events := [];
      selectedDate := "";
      form := BlankEvent;
      err := "";
      selectedEvent := None;
      showModal := false;
      sent := [];
    }

    /** `fetchEvents`: a good reply replaces the list, a bad one sets the error. */
    method FetchEvents(reply: Reply<seq<RawEvent>>)
      modifies this
      ensures sent == old(sent) + [ListEvents]
      ensures LoadEvents(reply).Ok? ==> events == LoadEvents(reply).value && err == ""
      ensures LoadEvents(reply).Err? ==> events == old(events) && err == LoadEvents(reply).message
      ensures form == old(form) && selectedDate == old(selectedDate) && selectedEvent == old(selectedEvent)
      ensures showModal == old(showModal)
    {
      sent := sent + [ListEvents];
      err := "";
      var r := LoadEvents(reply);
      if r.Ok? {
        events := r.value;
      } else {
        err := r.message;
      }
    }

    /** `handleDateClick`: the day is selected and becomes the form's date; the rest of the form stays. */
    method DateClick(dateStr: string)
      modifies this
      ensures selectedDate == dateStr && form == old(form).(date := dateStr)
      ensures events == old(events) && err == old(err) && sent == old(sent) && selectedEvent == old(selectedEvent)
      ensures showModal == old(showModal)
    {
      selectedDate := dateStr;
      form := form.(date := dateStr);
    }

    /** `handleEventClick`: the event's details from the server open in the dialog; otherwise the error says why. */
    method EventClick(id: string, reply: Reply<RawEvent>)
      modifies this
      ensures sent == old(sent) + [GetEvent(id)]
      ensures reply.Succeeded() && reply.payload.Some? ==>
        selectedEvent == Some(Normalize(reply.payload.value)) && showModal && err == old(err)
      ensures !(reply.Succeeded() && reply.payload.Some?) ==>
        && err == Failure(reply, "Failed to load event details")
        && selectedEvent == old(selectedEvent) && showModal == old(showModal)
      ensures events == old(events) && form == old(form) && selectedDate == old(selectedDate)
    {
      sent := sent + [GetEvent(id)];
      if reply.Succeeded() && reply.payload.Some? {
        selectedEvent := Some(Normalize(reply.payload.value));
        showModal := true;
      } else {
        err := Failure(reply, "Failed to load event details");
      }
    }

    /**
     * `handleAddEvent`: the guard sets its message and sends nothing;
     * otherwise the request is saved as `SaveAndRefresh` says.
     */
    method AddEvent(reply: Reply<()>, reloadReply: Reply<seq<RawEvent>>)
      modifies this
      ensures AddCheck(old(form)).Err? ==>
        err == AddCheck(old(form)).message && sent == old(sent) && events == old(events) && form == old(form)
      ensures AddCheck(old(form)).Ok? ==>
        SaveEffect(AddCheck(old(form)).value, reply, reloadReply, old(sent), old(events), old(form), sent, events, form, err)
      ensures selectedDate == old(selectedDate) && selectedEvent == old(selectedEvent)
      ensures showModal == old(showModal)
    {
      var check := AddCheck(form);
      if check.Err? {
        err := check.message;
        return;
      }
      SaveAndRefresh(check.value, reply, reloadReply);
    }

    /**
     * The save after the guard: a refused save shows why; a save refreshes
     * the list and clears the form, unless the refresh throws, which leaves
     * the form and shows its message.
     */
    method SaveAndRefresh(request: Request, reply: Reply<()>, reloadReply: Reply<seq<RawEvent>>)
      modifies this
      ensures SaveEffect(request, reply, reloadReply, old(sent), old(events), old(form), sent, events, form, err)
      ensures selectedDate == old(selectedDate) && selectedEvent == old(selectedEvent)
      ensures showModal == old(showModal)
    {
      err := "";
      sent := sent + [request];
      if !reply.Succeeded() {
        err := Failure(reply, "Failed to save event");
        return;
      }
      sent := sent + [ListEvents];
      if reloadReply.NetworkError? {
        err := reloadReply.error;
        return;
      }
      events := Refreshed(events, reloadReply);
      form := BlankEvent;
    }

    /**
     * `handleDelete`: nothing unless confirmed. A successful delete drops the
     * events with that id and clears the form only when it was editing that
     * event.
     */
    method Delete(id: string, confirmed: bool, reply: Reply<()>)
      modifies this
      ensures !confirmed ==> events == old(events) && sent == old(sent) && err == old(err) && form == old(form)
      ensures confirmed ==> sent == old(sent) + [DeleteEvent(id)]
      ensures confirmed && reply.Succeeded() ==>
        && events == WithoutEvent(old(events), id) && err == ""
        && form == (if old(form).id == id then BlankEvent else old(form))
      ensures confirmed && !reply.Succeeded() ==>
        events == old(events) && form == old(form) && err == Failure(reply, "Failed to delete event")
      ensures selectedDate == old(selectedDate) && selectedEvent == old(selectedEvent)
      ensures showModal == old(showModal)
    {
      if !confirmed {
        return;
      }
      err := "";
      sent := sent + [DeleteEvent(id)];
      if !reply.Succeeded() {
        err := Failure(reply, "Failed to delete event");
        return;
      }
      events := WithoutEvent(events, id);
      if form.id == id {
        form := BlankEvent;
      }
    }

    /** `handleEdit`: the form takes the event's fields, its id included. */
    method Edit(e: Event)
      modifies this
      ensures form == e
      ensures events == old(events) && err == old(err) && sent == old(sent) && selectedDate == old(selectedDate)
      ensures selectedEvent == old(selectedEvent) && showModal == old(showModal)
    {
      form := e;
    }

    /** `clearForm`: every field '' and no error. */
    method ClearForm()
      modifies this
      ensures form == BlankEvent && err == ""
      ensures events == old(events) && sent == old(sent) && selectedDate == old(selectedDate)
      ensures selectedEvent == old(selectedEvent) && showModal == old(showModal)
    {
      form := BlankEvent;
      err := "";
    }
  }
}
