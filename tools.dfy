/**
 * The three tools the agent can call, and the helper that turns a free-text
 * time expression into a start and an end. Time is a count of seconds; the
 * fuzzy date parser is the parameter `parse` (`None` where it raises
 * `ValueError`), and the ISO rendering of a time is the parameter `format`.
 */
module Tools {
  import opened Wrappers
  import CalendarClient

  /** The default length of an event whose query names only its start. */
  const OneHour: int := 3600
  /** The message of the `ValueError` raised when no time can be parsed. */
  const ParseFailure: string := "Unable to parse date and time from the query."
  /** The error the tool wrapper raises when a call's arguments do not fit the tool's parameters. */
  const InvalidArguments: string := "ValidationError: arguments do not match the tool's parameters"

  /** `multiply`: the exact product, with no machine-word bound. */
  function Multiply(a: int, b: int): (product: int)
    ensures product == a * b
  {
    a * b
  }

  /**
   * The body of `get_calendar_events`: forwards `maxResult` to `get_events` and
   * returns its answer. The tool table holds the tool form, `GetCalendarEventsTool`,
   * which is specified by the same function `EventsOf` that this method is proved equal to.
   */
  method GetCalendarEvents(
    maxResult: int, clock: string, list: CalendarClient.ListRequest -> CalendarClient.EventsResponse)
    returns (r: Result<Option<seq<CalendarClient.EventRecord>>, string>)
    ensures r == CalendarClient.EventsOf(list(CalendarClient.ListRequestFor(maxResult, clock)))
  {
    r := CalendarClient.GetEvents(maxResult, clock, list);
  }

  /**
   * `parse_time_from_query`: the parsed start and an end one hour later, or
   * the parse failure re-raised with a fixed message.
   */
  function ParseTimeFromQuery(parse: string -> Option<int>, query: string): (r: Result<(int, int), string>)
    ensures r.Success? <==> parse(query).Some?
    ensures r.Success? ==> r.value.0 == parse(query).value && r.value.1 - r.value.0 == OneHour
    ensures r.Failure? ==> r.error == ParseFailure
  {
    match parse(query)
    case Some(start) => Success((start, start + OneHour))
    case None => Failure(ParseFailure)
  }

  /**
   * `add_calendar_event`: parse the query's time, render both ends, and hand
   * them with the unchanged summary and description to the calendar writer.
   */
  function AddCalendarEvent(
    summary: string, description: string, userQuery: string,
    parse: string -> Option<int>, format: int -> string,
    insert: CalendarClient.InsertRequest -> CalendarClient.CreatedEvent)
    : (r: Result<CalendarClient.CreatedEvent, string>)
    ensures r.Failure? <==> parse(userQuery).None?
    ensures r.Failure? ==> r.error == ParseFailure
    ensures r.Success? ==>
      var start := parse(userQuery).value;
      r.value == insert(CalendarClient.InsertRequest(
        CalendarClient.PrimaryCalendar,
        CalendarClient.EventBodyFor(summary, description, format(start), format(start + OneHour))))
  {
    match ParseTimeFromQuery(parse, userQuery)
    case Failure(e) => Failure(e)
    case Success(times) =>
      Success(CalendarClient.AddEventToCalendar(summary, description, format(times.0), format(times.1), insert))
  }

  /** When the time cannot be parsed, the outcome does not depend on the calendar writer at all. */
  lemma AddCalendarEventWritesNothingOnParseFailure(
    summary: string, description: string, userQuery: string,
    parse: string -> Option<int>, format: int -> string,
    insert: CalendarClient.InsertRequest -> CalendarClient.CreatedEvent,
    otherInsert: CalendarClient.InsertRequest -> CalendarClient.CreatedEvent)
    requires parse(userQuery).None?
    ensures AddCalendarEvent(summary, description, userQuery, parse, format, insert)
         == AddCalendarEvent(summary, description, userQuery, parse, format, otherInsert)
         == Failure(ParseFailure)
  {
  }

  /** The arguments of one tool call, one variant per tool signature. */
  datatype ToolArgs =
    | MultiplyArgs(a: int, b: int)
    | GetCalendarEventsArgs(maxResult: int)
    | AddCalendarEventArgs(summary: string, description: string, userQuery: string)

  /** The value a tool returns. */
  datatype ToolValue =
    | Product(n: int)
    | Events(events: Option<seq<CalendarClient.EventRecord>>)
    | Created(event: CalendarClient.CreatedEvent)

  /** A tool as the agent invokes it: its arguments in, its value or the exception it raised out. */
  type Tool = ToolArgs -> Result<ToolValue, string>

  /** The services the tools reach: the parser, the ISO renderer, the clock and the calendar. */
  datatype Services = Services(
    parse: string -> Option<int>,
    format: int -> string,
    clock: string,
    list: CalendarClient.ListRequest -> CalendarClient.EventsResponse,
    insert: CalendarClient.InsertRequest -> CalendarClient.CreatedEvent)

  /** The `multiply` tool: its two integer arguments in, their product out. */
  function MultiplyTool(args: ToolArgs): (r: Result<ToolValue, string>)
    ensures r.Success? <==> args.MultiplyArgs?
    ensures r.Success? ==> r.value == Product(args.a * args.b)
    ensures r.Failure? ==> r.error == InvalidArguments
  {
    if args.MultiplyArgs? then Success(Product(Multiply(args.a, args.b))) else Failure(InvalidArguments)
  }

  /** The `get_calendar_events` tool: whatever `get_events` answers for `maxResult`. */
  function GetCalendarEventsTool(services: Services, args: ToolArgs): (r: Result<ToolValue, string>)
    ensures !args.GetCalendarEventsArgs? ==> r == Failure(InvalidArguments)
    ensures args.GetCalendarEventsArgs? ==>
      var answer := CalendarClient.EventsOf(services.list(CalendarClient.ListRequestFor(args.maxResult, services.clock)));
      (r.Success? <==> answer.Success?) && (r.Success? ==> r.value == Events(answer.value))
      && (r.Failure? ==> r.error == answer.error)
  {
    if !args.GetCalendarEventsArgs? then Failure(InvalidArguments)
    else
      match CalendarClient.EventsOf(services.list(CalendarClient.ListRequestFor(args.maxResult, services.clock)))
      case Success(events) => Success(Events(events))
      case Failure(e) => Failure(e)
  }

  /** The `add_calendar_event` tool: the created event, or the parse failure. */
  function AddCalendarEventTool(services: Services, args: ToolArgs): (r: Result<ToolValue, string>)
    ensures !args.AddCalendarEventArgs? ==> r == Failure(InvalidArguments)
    ensures args.AddCalendarEventArgs? ==>
      var outcome := AddCalendarEvent(args.summary, args.description, args.userQuery,
                                      services.parse, services.format, services.insert);
      (r.Success? <==> outcome.Success?) && (r.Success? ==> r.value == Created(outcome.value))
      && (r.Failure? ==> r.error == outcome.error)
  {
    if !args.AddCalendarEventArgs? then Failure(InvalidArguments)
    else
      match AddCalendarEvent(args.summary, args.description, args.userQuery,
                             services.parse, services.format, services.insert)
      case Success(event) => Success(Created(event))
      case Failure(e) => Failure(e)
  }
}
