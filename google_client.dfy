/**
 * The data-shaping part of the Google Calendar client: the list request that
 * `get_events` sends, the projection of the service's events into
 * `{start_time, event}` records, and the event body that
 * `add_event_to_calendar` inserts. The service itself (authentication, the
 * `events().list(...)` and `events().insert(...)` round trips) is a pair of
 * function parameters: `list` answers a list request, `insert` answers an
 * insert request.
 */
module CalendarClient {
  import opened Wrappers

  const PrimaryCalendar: string := "primary"
  const OrderByStartTime: string := "startTime"
  /** The one time zone every inserted event is written in. */
  const EventTimeZone: string := "America/Los_Angeles"
  /** The exception `event["start"]` raises for an event without a start. */
  const MissingStart: string := "KeyError: 'start'"
  /** The exception `event["summary"]` raises for an event without a title. */
  const MissingSummary: string := "KeyError: 'summary'"

  /** The `start` object of a listed event; each of its two keys may be absent. */
  datatype EventDate = EventDate(dateTime: Option<string>, date: Option<string>)

  /** One listed event, as far as `get_events` looks at it; either of its two keys may be absent. */
  datatype RawEvent = RawEvent(start: Option<EventDate>, summary: Option<string>)

  /** The body of a list response; its `items` key may be missing. */
  datatype EventsResponse = EventsResponse(items: Option<seq<RawEvent>>)

  /** The record `get_events` returns per event; `start_time` is `None` when `start` has neither key. */
  datatype EventRecord = EventRecord(startTime: Option<string>, event: string)

  /** The keyword arguments of `service.events().list(...)`. */
  datatype ListRequest = ListRequest(
    calendarId: string, timeMin: string, maxResults: int, singleEvents: bool, orderBy: string)

  /** One end of an inserted event: `{'dateTime': ..., 'timeZone': ...}`. */
  datatype EventTime = EventTime(dateTime: string, timeZone: string)

  /** The `event` dictionary handed to `service.events().insert(...)`. */
  datatype EventBody = EventBody(summary: string, description: string, start: EventTime, end: EventTime)

  /** The keyword arguments of `service.events().insert(...)`. */
  datatype InsertRequest = InsertRequest(calendarId: string, body: EventBody)

  /** What the service answers for an inserted event. */
  datatype CreatedEvent = CreatedEvent(id: string, htmlLink: string)

  /**
   * The list request of `get_events`: the next `maxResult` single events of the
   * primary calendar from now on, by start time. `clock` is the rendering of
   * `datetime.utcnow().isoformat()`; the request adds the UTC marker "Z".
   */
  function ListRequestFor(maxResult: int, clock: string): (request: ListRequest)
    ensures request.calendarId == PrimaryCalendar
    ensures request.timeMin == clock + "Z"
    ensures request.maxResults == maxResult
    ensures request.singleEvents
    ensures request.orderBy == OrderByStartTime
  {
    ListRequest(PrimaryCalendar, clock + "Z", maxResult, true, OrderByStartTime)
  }

  /** `start.get("dateTime", start.get("date"))`: the date-time, else the all-day date. */
  function StartTime(start: EventDate): (time: Option<string>)
    ensures time.Some? <==> start.dateTime.Some? || start.date.Some?
    ensures start.dateTime.Some? ==> time == start.dateTime
    ensures start.dateTime.None? ==> time == start.date
  {
    if start.dateTime.Some? then start.dateTime else start.date
  }

  /** The `items` of a response, the empty list when the key is missing. */
  function ItemsOf(response: EventsResponse): (items: seq<RawEvent>)
    ensures response.items.None? ==> items == []
    ensures response.items.Some? ==> items == response.items.value
  {
    if response.items.Some? then response.items.value else []
  }

  /** Both keys the loop reads are present, so neither `event["start"]` nor `event["summary"]` raises. */
  predicate WellFormed(event: RawEvent)
  {
    event.start.Some? && event.summary.Some?
  }

  /** One pass of the loop body: `event["start"]` is read before `event["summary"]`. */
  function RecordOf(event: RawEvent): (r: Result<EventRecord, string>)
    ensures r.Success? <==> WellFormed(event)
    ensures event.start.None? ==> r == Failure(MissingStart)
    ensures event.start.Some? && event.summary.None? ==> r == Failure(MissingSummary)
    ensures r.Success? ==> r.value.startTime == StartTime(event.start.value) && Some(r.value.event) == event.summary
  {
    if event.start.None? then Failure(MissingStart)
    else if event.summary.None? then Failure(MissingSummary)
    else Success(EventRecord(StartTime(event.start.value), event.summary.value))
  }

  /** The records as the loop of `get_events` appends them; the first event that raises ends it. */
  function Records(events: seq<RawEvent>): (r: Result<seq<EventRecord>, string>)
    ensures r.Success? ==> |r.value| == |events|
  {
    if events == [] then Success([])
    else
      match Records(events[..|events| - 1])
      case Failure(e) => Failure(e)
      case Success(records) =>
        match RecordOf(events[|events| - 1])
        case Failure(e) => Failure(e)
        case Success(record) => Success(records + [record])
  }

  /**
   * The loop succeeds exactly when every event has both keys; it then builds
   * one record per event, in the service's order, each from its own event.
   * Otherwise its error is that of the first event missing a key.
   */
  lemma {:induction false} RecordsOnePerEvent(events: seq<RawEvent>)
    ensures Records(events).Success? <==> forall i :: 0 <= i < |events| ==> WellFormed(events[i])
    ensures Records(events).Success? ==>
      forall i :: 0 <= i < |events| ==> RecordOf(events[i]) == Success(Records(events).value[i])
    ensures Records(events).Failure? ==>
      exists k :: 0 <= k < |events| && (forall j :: 0 <= j < k ==> WellFormed(events[j]))
                  && RecordOf(events[k]) == Failure(Records(events).error)
  {
    if events != [] {
      var prefix := events[..|events| - 1];
      RecordsOnePerEvent(prefix);
      assert forall i :: 0 <= i < |prefix| ==> prefix[i] == events[i];
      if Records(prefix).Failure? {
        var k :| 0 <= k < |prefix| && (forall j :: 0 <= j < k ==> WellFormed(prefix[j]))
                 && RecordOf(prefix[k]) == Failure(Records(prefix).error);
        assert RecordOf(events[k]) == Failure(Records(events).error);
      } else if Records(events).Failure? {
        assert RecordOf(events[|prefix|]) == Failure(Records(events).error);
      }
    }
  }

  /** Once a prefix of the events has raised, the later events change nothing. */
  lemma {:induction false} FailurePersists(events: seq<RawEvent>, k: nat)
    requires k <= |events|
    requires Records(events[..k]).Failure?
    ensures Records(events) == Records(events[..k])
    decreases |events|
  {
    if k < |events| {
      var prefix := events[..|events| - 1];
      assert prefix[..k] == events[..k];
      FailurePersists(prefix, k);
    } else {
      assert events[..k] == events;
    }
  }

  /**
   * What `get_events` returns for the service's answer: `None` (not an empty
   * list) when there are no items, a `KeyError` when an event lacks `start`
   * or `summary`, and otherwise the records.
   */
  function EventsOf(response: EventsResponse): (r: Result<Option<seq<EventRecord>>, string>)
    ensures r == Success(None) <==> ItemsOf(response) == []
    ensures r.Failure? ==> r.error == MissingStart || r.error == MissingSummary
    ensures ItemsOf(response) != [] ==> (r.Success? <==> Records(ItemsOf(response)).Success?)
    ensures ItemsOf(response) != [] && r.Failure? ==> r.error == Records(ItemsOf(response)).error
  {
    var events := ItemsOf(response);
    if events == [] then Success(None)
    else
      match Records(events)
      case Failure(e) => RecordsOnePerEvent(events); Failure(e)
      case Success(records) => Success(Some(records))
  }

  /**
   * For a non-empty listing, the result holds exactly one record per event,
   * in the service's order, with the start-time fallback and the summary as
   * the event name, when every event has both keys; otherwise it is the
   * `KeyError` of the first event that lacks one, `start` checked first.
   */
  lemma EventsOfProjects(response: EventsResponse)
    requires ItemsOf(response) != []
    ensures var r, events := EventsOf(response), ItemsOf(response);
      && (r.Success? <==> forall i :: 0 <= i < |events| ==> WellFormed(events[i]))
      && (r.Success? ==>
            && r.value.Some? && |r.value.value| == |events|
            && forall i :: 0 <= i < |events| ==>
                 r.value.value[i].startTime == StartTime(events[i].start.value)
                 && Some(r.value.value[i].event) == events[i].summary)
      && (r.Failure? ==>
            exists k :: 0 <= k < |events| && (forall j :: 0 <= j < k ==> WellFormed(events[j]))
                        && !WellFormed(events[k])
                        && (if events[k].start.None? then r.error == MissingStart else r.error == MissingSummary))
  {
    var events := ItemsOf(response);
    RecordsOnePerEvent(events);
  }

  /** `get_events`: send the list request, then build the records one event at a time. */
  method GetEvents(maxResult: int, clock: string, list: ListRequest -> EventsResponse)
    returns (r: Result<Option<seq<EventRecord>>, string>)
    ensures r == EventsOf(list(ListRequestFor(maxResult, clock)))
  {
    var response := list(ListRequestFor(maxResult, clock));
    var events := if response.items.Some? then response.items.value else [];
    if events == [] {
      return Success(None);
    }
    var result := [];
    for i := 0 to |events|
      invariant Records(events[..i]) == Success(result)
    {
      var event := events[i];
      assert events[..i + 1][..i] == events[..i];
      if event.start.None? {
        FailurePersists(events, i + 1);
        return Failure(MissingStart);
      }
      if event.summary.None? {
        FailurePersists(events, i + 1);
        return Failure(MissingSummary);
      }
      result := result + [EventRecord(StartTime(event.start.value), event.summary.value)];
    }
    assert events[..|events|] == events;
    return Success(Some(result));
  }

  /** The `event` dictionary of `add_event_to_calendar`. */
  function EventBodyFor(summary: string, description: string, startTime: string, endTime: string)
    : (body: EventBody)
    ensures body.summary == summary && body.description == description
    ensures body.start.dateTime == startTime && body.end.dateTime == endTime
    ensures body.start.timeZone == EventTimeZone && body.end.timeZone == EventTimeZone
  {
    EventBody(summary, description, EventTime(startTime, EventTimeZone), EventTime(endTime, EventTimeZone))
  }

  /** `add_event_to_calendar`: insert the body into the primary calendar and return the service's answer. */
  function AddEventToCalendar(
    summary: string, description: string, startTime: string, endTime: string,
    insert: InsertRequest -> CreatedEvent): (created: CreatedEvent)
    ensures created == insert(InsertRequest(PrimaryCalendar, EventBodyFor(summary, description, startTime, endTime)))
  {
    var body := EventBodyFor(summary, description, startTime, endTime);
    insert(InsertRequest(PrimaryCalendar, body))
  }
}
