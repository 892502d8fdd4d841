/**
 * What the manager's and the member's calendars share: an event as the
 * server lists it, the normalised event the page holds, the list load and
 * the events of one day.
 */
module Calendar {
  import opened Common
  import opened Text
  import opened Seqs

  /** An event as the server lists it; a missing field is `None`. */
  datatype RawEvent = RawEvent(
    id: int, title: Option<string>, date: Option<string>, time: Option<string>,
    description: Option<string>, meetLink: Option<string>)

  /** An event as the page holds it: every field a string. */
  datatype Event = Event(id: string, title: string, date: string, time: string, description: string, link: string)

  /** The empty form (`clearForm`). */
  const BlankEvent := Event("", "", "", "", "", "")

  /**
   * The load mapping: the id as text, each missing text field as '', the
   * time cut to its first five characters (`HH:MM`), the meeting link from
   * `meet_link`.
   */
  function Normalize(item: RawEvent): (e: Event)
    ensures e.id == IntToString(item.id)
    ensures e.title == item.title.GetOr("") && e.date == item.date.GetOr("")
    ensures e.description == item.description.GetOr("") && e.link == item.meetLink.GetOr("")
    ensures |e.time| <= 5
    ensures e.time == Take(item.time.GetOr(""), 5)
  {
    var time := item.time.GetOr("");
    Event(IntToString(item.id), item.title.GetOr(""), item.date.GetOr(""),
          if time != "" then Take(time, 5) else "", item.description.GetOr(""), item.meetLink.GetOr(""))
  }

  /** A time of at most five characters is kept whole; a longer one loses its seconds. */
  lemma NormalizeTime(item: RawEvent)
    requires item.time.Some?
    ensures |item.time.value| <= 5 ==> Normalize(item).time == item.time.value
    ensures |item.time.value| > 5 ==> Normalize(item).time == item.time.value[..5]
  {
  }

  function NormalizeAll(items: seq<RawEvent>): (r: seq<Event>)
    ensures |r| == |items|
    ensures forall i :: 0 <= i < |items| ==> r[i] == Normalize(items[i])
  {
    seq(|items|, i requires 0 <= i < |items| => Normalize(items[i]))
  }

  /**
   * `fetchEvents`: a request that throws or a body that is not JSON is a
   * server error; any JSON answer carrying `events` gives them, whatever
   * `success` says; otherwise the server's message or "Failed to load events".
   */
  function LoadEvents(reply: Reply<seq<RawEvent>>): (r: Result<seq<Event>>)
    ensures r.Ok? <==> reply.Json? && reply.payload.Some?
    ensures r.Ok? ==> r.value == NormalizeAll(reply.payload.value)
    ensures !reply.Json? ==> r == Err("Server error while loading events.")
    ensures reply.Json? && reply.payload.None? ==> r == Err(reply.MessageOr("Failed to load events"))
  {
    match reply
    case Json(_, _, _, _, payload) =>
      if payload.Some? then Ok(NormalizeAll(payload.value)) else Err(reply.MessageOr("Failed to load events"))
    case _ => Err("Server error while loading events.")
  }

  /** `events.filter(e => e.date === selectedDate)` */
  function EventsOnDate(events: seq<Event>, date: string): (r: seq<Event>)
    ensures |r| <= |events|
    ensures forall i :: 0 <= i < |r| ==> r[i].date == date
  {
    Filter(events, (e: Event) => e.date == date)
  }

  /** The day's events are exactly the listed ones on that date, in listed order. */
  lemma EventsOnDateSpec(events: seq<Event>, date: string)
    ensures forall e :: e in EventsOnDate(events, date) <==> e in events && e.date == date
    ensures IsSubseq(EventsOnDate(events, date), events)
  {
    FilterMembers(events, (e: Event) => e.date == date);
    FilterSubseq(events, (e: Event) => e.date == date);
  }
}
