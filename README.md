# schedule-builder-ai, modelled in Dafny

This project models the core of a small conversational scheduling agent. A
chat model can call three tools: `multiply`, `get_calendar_events` and
`add_calendar_event`. The model covers three parts:

- **The turn handler** (`model.py`, module `Agent`). `ScheduleBuilder.CallModel`
  is the graph's one node. It clears `google_tool_call`, asks the chat model,
  and appends the reply to the state's transcript. It then runs each requested
  tool call through the name-to-tool table in call order and appends each
  result. Finally it asks the model again and returns that second reply.
  `Router` picks the next node from `google_tool_call`. `GetResponse` seeds each
  conversation with the persona prompt and the user's query. The chat model is
  an oracle from transcript to reply, held by a `ChatModel` object that logs
  every transcript it is asked about. That log lets the model state how often
  the chat model is asked: twice on a successful turn, and once on a turn that
  a tool call ends with an error. The method is proved against the
  specification function `CallModelTurn`, and the lemmas beside that function
  state the ordering guarantees and the "only extends" guarantee.
- **The tools** (`tools.py`, module `Tools`). Multiplication is exact. Time
  parsing gives the parsed start and an end one hour later. Adding an event
  composes parsing with the calendar writer. Fetching events forwards to the
  client. Time is an integer count of seconds. The fuzzy date parser is the
  parameter `parse`, which gives `None` where the parser raises `ValueError`.
  ISO rendering is the parameter `format`.
- **The calendar client's data shaping** (`google/client.py`, module
  `CalendarClient`). This covers the list request, the projection of listed
  events into `{start_time, event}` records, and the insert body with its
  fixed time zone. The service round trips are the function parameters `list`
  and `insert`. The current time is the parameter `clock`, which is the string
  `utcnow().isoformat()` renders.

An exception in the source becomes `Failure` of a `Result`. `None` becomes
`None` of an `Option`.

## Model

| member | source | states |
|---|---|---|
| `CalendarClient.ListRequestFor` | google/client.py:44-52 | the list request targets calendar "primary", starts at the clock's time with the UTC marker "Z", asks for `maxResult` events, expands recurring events and orders by start time |
| `CalendarClient.StartTime` | google/client.py:64 | a record's start is `start.dateTime` when present and `start.date` otherwise; it is absent only when both are |
| `CalendarClient.ItemsOf` | google/client.py:55 | the events are the response's `items`, or the empty list when that key is missing |
| `CalendarClient.RecordOf` | google/client.py:64-68 | one event gives `KeyError: 'start'` when it has no `start`, else `KeyError: 'summary'` when it has no `summary`, else the record of its start fallback and its summary |
| `CalendarClient.Records` | google/client.py:62-68 | the loop's result: on success it holds as many records as there are events |
| `CalendarClient.RecordsOnePerEvent` | google/client.py:62-68 | the loop succeeds exactly when every event has both keys; then record i is the record of event i, in the service's order; otherwise the error is that of the first event missing a key |
| `CalendarClient.FailurePersists` | google/client.py:63-67 | once an event raises, the later events change nothing |
| `CalendarClient.EventsOf` | google/client.py:55-69 | the result is `None` (not an empty list) exactly when the response has no items or no `items` key; any error is a `KeyError` on `start` or `summary`; a non-empty listing succeeds exactly when the loop does, and fails with the loop's error |
| `CalendarClient.EventsOfProjects` | google/client.py:62-69 | for a non-empty listing, success holds exactly when every event has `start` and `summary`; then there are as many records as events, and record i carries event i's start fallback and summary; otherwise there is a first event missing a key, every event before it has both, and the error is `KeyError: 'start'` when that event lacks `start`, else `KeyError: 'summary'` |
| `CalendarClient.GetEvents` | google/client.py:40-69 | the method sends `ListRequestFor(maxResult, clock)` and its loop returns exactly what `EventsOf` specifies for the service's answer |
| `CalendarClient.EventBodyFor` | google/client.py:74-85 | the insert body carries summary and description unchanged and uses the given start and end strings; both ends are in 'America/Los_Angeles' |
| `CalendarClient.AddEventToCalendar` | google/client.py:72-88 | the insert service receives calendar "primary" and exactly that body; its answer is returned |
| `Tools.Multiply` | tools.py:8-11 | the exact product of two unbounded integers |
| `Tools.GetCalendarEvents` | tools.py:13-16 | forwards `maxResult` unchanged and returns whatever `get_events` returns |
| `Tools.ParseTimeFromQuery` | tools.py:19-33 | succeeds exactly when the parser does; the start is the parsed time and the end is one hour (3600 s) later; on a parse failure the error is "Unable to parse date and time from the query." |
| `Tools.AddCalendarEvent` | tools.py:35-56 | fails with the parse error exactly when parsing fails; otherwise the writer gets the unchanged summary and description, and both ends come from one parsed start, one hour apart |
| `Tools.AddCalendarEventWritesNothingOnParseFailure` | tools.py:49-56 | when parsing fails, the outcome is the parse error whatever the calendar writer would do, so the writer is never used |
| `Tools.MultiplyTool` | tools.py:8-11 | the tool gives the product for integer arguments and a validation error for other arguments |
| `Tools.GetCalendarEventsTool` | tools.py:13-16 | the tool gives exactly the client's answer for its `maxResult`, or the client's `KeyError` |
| `Tools.AddCalendarEventTool` | tools.py:35-56 | the tool gives exactly the created event of `add_calendar_event`, or its parse error |
| `Agent.ToolTable` | model.py:25-29 | the table holds exactly the names multiply, add_calendar_event and get_calendar_events, each bound to its own tool |
| `Agent.InvokeTool` | model.py:77 | a name outside the table is a `KeyError`; a tool that raises propagates its error; otherwise the result message names the call's id and tool |
| `Agent.RunTools` | model.py:76-78 | the tool loop appends at most one result per call; when it raises, it has appended fewer results than there are calls |
| `Agent.RunToolsInCallOrder` | model.py:76-78 | the loop appends one result per call it ran, in call order; it either completes with one result per call or stops at the first failing call |
| `Agent.RunToolsCompletes` | model.py:76-78 | the tool loop completes exactly when every call succeeds |
| `Agent.RaisedPersists` | model.py:76-78 | after the first error, later calls are neither run nor appended |
| `Agent.CallModelTurn` | model.py:61-88 | a turn asks the model once or twice, first about the incoming messages; it keeps the incoming messages in front; it returns a reply exactly when the model is asked twice |
| `Agent.CallModelOnlyExtends` | model.py:72-78 | the incoming messages stay in front; the first reply follows them at once, before any tool result; everything after it is a tool result, at most one per call |
| `Agent.ToolResultsFollowCalls` | model.py:76-78 | a turn succeeds exactly when every call succeeds; then the transcript holds exactly one result per call, in the order of the calls |
| `Agent.ModelAskedTwice` | model.py:72-88 | a successful turn asks the model about the incoming messages, then about the final transcript, and returns the second reply unchanged without running its calls; a failed turn asks once |
| `Agent.NoToolCallsSecondPrompt` | model.py:72-87 | with no tool calls, the second question is the incoming messages plus the first reply |
| `Agent.UnknownToolFails` | model.py:77 | a call naming a tool outside the three registered names makes the turn fail; when the earlier calls succeed, the failure is that name's `KeyError`, after their results |
| `Agent.ChatModel.Invoke` | model.py:72 | the reply is the oracle's answer for the transcript, and the transcript is logged |
| `Agent.ScheduleBuilder.constructor` | model.py:16-53 | the builder has the persona system message and the tool table, and its model has not been asked anything |
| `Agent.ScheduleBuilder.Router` | model.py:55-59 | gives "google_calendar" exactly when `google_tool_call` is set, and "end" exactly when it is not |
| `Agent.ScheduleBuilder.CallModel` | model.py:61-88 | removes `google_tool_call`; the transcript, the returned reply and the model's log become exactly those of `CallModelTurn` on the old transcript |
| `Agent.ScheduleBuilder.GetResponse` | model.py:103-112 | every run starts from a fresh state holding exactly `[system_modifier, user query]`, and that is the first transcript the model is asked about |

## Left out

- The chat-model client (`ChatOpenAI`, `bind_tools`, the network call) is replaced by the oracle `ChatModel.respond`.
- The LangGraph machinery is not modelled: `StateGraph`, `MemorySaver`, `app.stream` and the `uuid` thread ids. Neither is the `MessagesState` reducer that merges the node's returned reply into the stored state. `GetResponse` returns the state and the reply directly.
- `handle_google_calendar` and the commented-out graph edges are not modelled. That node is never added to the graph.
- `Router` is never wired into the graph either. It is modelled because it is defined.
- The `initialized` flag is set but never read, so it is kept only as a field.
- Truthiness of `google_tool_call` is modelled as present (`Some`) versus absent. A present but falsy value is not distinguished.
- OAuth, `token.json`, `get_calendar_service` and every `.execute()` call are I/O. They are the function parameters `list` and `insert`, which never fail. `HttpError` is not modelled.
- `delete_event` and `search_events` are not modelled. They pass requests straight through to the service and print.
- The calendar service keeps no state between calls. `list` and `insert` are pure functions, so a listing does not show an event inserted earlier in the same turn, and two identical inserts get identical answers. For the same reason, the value of each tool result in `Agent.ToolResultsFollowCalls` depends only on its own call's arguments. In the source, the tools of one reply run one after the other against one live calendar.
- The chat model never raises: `ChatModel.respond` is total. In the source, either `model.invoke` call can raise and end the turn.
- `datetime.utcnow()` is the parameter `clock`. It is one value per tool table, not a new reading per call.
- Date parsing is the parameter `parse`, and `isoformat` is the parameter `format`. Timestamps are whole seconds.
- `Tools.ParseTimeFromQuery`: exceptions other than `ValueError` are not modelled. An example is an `OverflowError` when adding an hour to the largest date. Such an exception would escape unchanged.
- Tool output is kept structured: a `ToolResult` message carries the tool's `ToolValue`. In the source, the tool message appended to the transcript holds that output rendered as a string, so, for example, the `None` of an empty listing becomes text.
- The tool wrapper's argument validation is reduced to the shape of `ToolArgs`. Arguments for another tool's signature give a validation error.
- All `print` and `pretty_print` output is left out.
