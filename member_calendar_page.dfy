/**
 * The member's calendar (`MemberCalendarPage`): read-only. The page state
 * is a value: the listed events, the selected day and the event shown in
 * the dialog.
 */
module MemberCalendarPage {
  import opened Common
  import opened Seqs
  import opened Calendar

  datatype View = View(events: seq<Event>, selectedDate: string, selectedEvent: Option<Event>, showModal: bool, err: string)

  const Initial := View([], "", None, false, "")

  /** `fetchEvents`: the list on success, the error message otherwise. */
  function Loaded(v: View, reply: Reply<seq<RawEvent>>): (r: View)
    ensures LoadEvents(reply).Ok? ==> r == v.(events := LoadEvents(reply).value, err := "")
    ensures LoadEvents(reply).Err? ==> r == v.(err := LoadEvents(reply).message)
  {
    var l := LoadEvents(reply);
    if l.Ok? then v.(events := l.value, err := "") else v.(err := l.message)
  }

  /** `handleDateClick`: only the selected day changes. */
  function DateClick(v: View, dateStr: string): (r: View)
    ensures r == v.(selectedDate := dateStr)
  {
    v.(selectedDate := dateStr)
  }

  /** `handleEventClick`: the first listed event with that id opens the dialog; an unknown id changes nothing. */
  function EventClick(v: View, id: string): (r: View)
  {
    var e := Find(v.events, (e: Event) => e.id == id);
    if e.Some? then v.(selectedEvent := e, showModal := true) else v
  }

  /** A click on a listed id shows the first event with it; a click on an unlisted id leaves the page as it was. */
  lemma EventClickSpec(v: View, id: string)
    ensures (forall i :: 0 <= i < |v.events| ==> v.events[i].id != id) ==> EventClick(v, id) == v
    ensures (exists i :: 0 <= i < |v.events| && v.events[i].id == id) ==>
      && EventClick(v, id).showModal
      && EventClick(v, id).events == v.events && EventClick(v, id).selectedDate == v.selectedDate
      && exists i :: 0 <= i < |v.events| && EventClick(v, id).selectedEvent == Some(v.events[i])
           && v.events[i].id == id && forall j :: 0 <= j < i ==> v.events[j].id != id
  {
  }

  /** The day's events shown under the calendar. */
  function DayEvents(v: View): (r: seq<Event>)
    ensures forall e :: e in r <==> e in v.events && e.date == v.selectedDate
  {
    EventsOnDateSpec(v.events, v.selectedDate);
    EventsOnDate(v.events, v.selectedDate)
  }
}
