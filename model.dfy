/**
 * The single-node turn handler of the schedule builder. One call of
 * `CallModel` asks the chat model once, appends its reply to the transcript,
 * runs each tool call of that reply through the tool table in call order,
 * appends each result, asks the model a second time on the extended
 * transcript and returns that second reply. Tool calls carried by the second
 * reply are not run. A call naming a tool outside the table, or a tool that
 * raises, ends the turn with that error; nothing contains it.
 *
 * The chat model is an oracle from transcript to reply, kept in a `ChatModel`
 * object that logs every transcript it is asked about.
 */
module Agent {
  import opened Wrappers
  import opened Tools

  /** A tool call requested by the model: its identifier, the tool's name and the arguments. */
  datatype ToolCall = ToolCall(id: string, name: string, args: ToolArgs)

  /** A reply of the chat model: its text and the tool calls it requests. */
  datatype AIReply = AIReply(content: string, toolCalls: seq<ToolCall>)

  /** A transcript entry. A tool result names the call it answers. */
  datatype Message =
    | System(content: string)
    | User(content: string)
    | Assistant(reply: AIReply)
    | ToolResult(toolCallId: string, name: string, value: ToolValue)

  /** Why a turn stopped: a `KeyError` on the tool name, or the exception a tool raised. */
  datatype CallError = UnknownTool(name: string) | ToolRaised(name: string, reason: string)

  const GoogleCalendarNode: string := "google_calendar"
  const EndNode: string := "end"

  /** The persona prompt that opens every conversation. */
  const SystemPrompt: string :=
    "You are a pirate who speaks English. When using tools or functions, \n"
    + "\t\t        continue to respond in English. All your responses, including function calls and \n"
    + "\t\t        explanations, should be in English with a pirate's personality. Arr!"

  const ToolNames: set<string> := {"multiply", "add_calendar_event", "get_calendar_events"}

  /** The tool table of the schedule builder: each tool under its own name. */
  function ToolTable(services: Services): (table: map<string, Tool>)
    ensures table.Keys == ToolNames
    ensures forall args :: table["multiply"](args) == MultiplyTool(args)
    ensures forall args :: table["add_calendar_event"](args) == AddCalendarEventTool(services, args)
    ensures forall args :: table["get_calendar_events"](args) == GetCalendarEventsTool(services, args)
  {
    map[
      "multiply" := MultiplyTool,
      "add_calendar_event" := (args: ToolArgs) => AddCalendarEventTool(services, args),
      "get_calendar_events" := (args: ToolArgs) => GetCalendarEventsTool(services, args)
    ]
  }

  /** One step of the tool loop: look the tool up by name, invoke it, wrap its value as a tool result. */
  function InvokeTool(tools: map<string, Tool>, call: ToolCall): (r: Result<Message, CallError>)
    ensures call.name !in tools ==> r == Failure(UnknownTool(call.name))
    ensures call.name in tools ==> (r.Success? <==> tools[call.name](call.args).Success?)
    ensures r.Success? ==> r.value == ToolResult(call.id, call.name, tools[call.name](call.args).value)
    ensures r.Failure? && call.name in tools ==> r.error == ToolRaised(call.name, tools[call.name](call.args).error)
  {
    if call.name !in tools then Failure(UnknownTool(call.name))
    else
      match tools[call.name](call.args)
      case Success(value) => Success(ToolResult(call.id, call.name, value))
      case Failure(e) => Failure(ToolRaised(call.name, e))
  }

  /** The messages the tool loop appended, and the error that stopped it, if any. */
  datatype ToolRun = Completed(results: seq<Message>) | Raised(results: seq<Message>, error: CallError)

  /** The tool loop over `calls`, one call after the other; the first error stops it. */
  function RunTools(tools: map<string, Tool>, calls: seq<ToolCall>): (run: ToolRun)
    ensures |run.results| <= |calls|
    ensures run.Raised? ==> |run.results| < |calls|
    decreases |calls|
  {
    if calls == [] then Completed([])
    else
      var run := RunTools(tools, calls[..|calls| - 1]);
      if run.Raised? then run
      else
        match InvokeTool(tools, calls[|calls| - 1])
        case Success(result) => Completed(run.results + [result])
        case Failure(e) => Raised(run.results, e)
  }

  /**
   * The loop appends exactly one result per call it ran, in call order; it
   * completes with one result per call, or stops at the first call that
   * fails, with the results of the calls before it.
   */
  lemma {:induction false} RunToolsInCallOrder(tools: map<string, Tool>, calls: seq<ToolCall>)
    ensures var run := RunTools(tools, calls);
      && |run.results| <= |calls|
      && (forall i :: 0 <= i < |run.results| ==> InvokeTool(tools, calls[i]) == Success(run.results[i]))
      && (run.Completed? ==> |run.results| == |calls|)
      && (run.Raised? ==> |run.results| < |calls| && InvokeTool(tools, calls[|run.results|]) == Failure(run.error))
  {
    if calls != [] {
      var prefix := calls[..|calls| - 1];
      RunToolsInCallOrder(tools, prefix);
      assert forall i :: 0 <= i < |prefix| ==> prefix[i] == calls[i];
    }
  }

  /** The loop completes exactly when every call succeeds. */
  lemma RunToolsCompletes(tools: map<string, Tool>, calls: seq<ToolCall>)
    ensures RunTools(tools, calls).Completed? <==>
      forall i :: 0 <= i < |calls| ==> InvokeTool(tools, calls[i]).Success?
  {
    RunToolsInCallOrder(tools, calls);
  }

  /** Once a prefix of the calls has stopped the loop, the later calls change nothing. */
  lemma {:induction false} RaisedPersists(tools: map<string, Tool>, calls: seq<ToolCall>, k: nat)
    requires k <= |calls|
    requires RunTools(tools, calls[..k]).Raised?
    ensures RunTools(tools, calls) == RunTools(tools, calls[..k])
    decreases |calls|
  {
    if k < |calls| {
      var prefix := calls[..|calls| - 1];
      assert prefix[..k] == calls[..k];
      RaisedPersists(tools, prefix, k);
    } else {
      assert calls[..k] == calls;
    }
  }

  /**
   * The outcome of one `call_model` on the incoming transcript `messages`:
   * the transcripts the model is asked about, in order, the transcript the
   * state holds afterwards, and the returned reply or the error.
   */
  datatype Turn = Turn(prompts: seq<seq<Message>>, transcript: seq<Message>, reply: Result<AIReply, CallError>)

  function CallModelTurn(respond: seq<Message> -> AIReply, tools: map<string, Tool>, messages: seq<Message>)
    : (turn: Turn)
    ensures 1 <= |turn.prompts| <= 2 && turn.prompts[0] == messages
    ensures |messages| < |turn.transcript| && turn.transcript[..|messages|] == messages
    ensures turn.reply.Success? <==> |turn.prompts| == 2
  {
    var first := respond(messages);
    var run := RunTools(tools, first.toolCalls);
    var transcript := messages + [Assistant(first)] + run.results;
    if run.Raised? then Turn([messages], transcript, Failure(run.error))
    else Turn([messages, transcript], transcript, Success(respond(transcript)))
  }

  /**
   * A turn only extends the transcript: the incoming messages stay in front,
   * the first reply follows them at once, and then come at most one result per
   * call of that reply.
   */
  lemma CallModelOnlyExtends(respond: seq<Message> -> AIReply, tools: map<string, Tool>, messages: seq<Message>)
    ensures var turn, first := CallModelTurn(respond, tools, messages), respond(messages);
      && |messages| < |turn.transcript| <= |messages| + 1 + |first.toolCalls|
      && turn.transcript[..|messages|] == messages
      && turn.transcript[|messages|] == Assistant(first)
      && forall i :: |messages| < i < |turn.transcript| ==> turn.transcript[i].ToolResult?
  {
    var first := respond(messages);
    var run := RunTools(tools, first.toolCalls);
    RunToolsInCallOrder(tools, first.toolCalls);
    var turn := CallModelTurn(respond, tools, messages);
    forall i | |messages| < i < |turn.transcript| ensures turn.transcript[i].ToolResult? {
      var j := i - |messages| - 1;
      assert turn.transcript[i] == run.results[j];
      assert InvokeTool(tools, first.toolCalls[j]) == Success(run.results[j]);
    }
  }

  /**
   * A turn succeeds exactly when every tool call of the first reply succeeds;
   * then the transcript holds one result per call, in the order of the calls,
   * each naming its call.
   */
  lemma ToolResultsFollowCalls(respond: seq<Message> -> AIReply, tools: map<string, Tool>, messages: seq<Message>)
    ensures var turn, calls := CallModelTurn(respond, tools, messages), respond(messages).toolCalls;
      && (turn.reply.Success? <==> forall i :: 0 <= i < |calls| ==> InvokeTool(tools, calls[i]).Success?)
      && (turn.reply.Success? ==>
            && |turn.transcript| == |messages| + 1 + |calls|
            && forall i :: 0 <= i < |calls| ==>
                 && calls[i].name in tools
                 && turn.transcript[|messages| + 1 + i]
                    == ToolResult(calls[i].id, calls[i].name, tools[calls[i].name](calls[i].args).value))
  {
    var calls := respond(messages).toolCalls;
    RunToolsInCallOrder(tools, calls);
    RunToolsCompletes(tools, calls);
    var turn := CallModelTurn(respond, tools, messages);
    if turn.reply.Success? {
      var run := RunTools(tools, calls);
      forall i | 0 <= i < |calls|
        ensures calls[i].name in tools
        ensures turn.transcript[|messages| + 1 + i]
                == ToolResult(calls[i].id, calls[i].name, tools[calls[i].name](calls[i].args).value)
      {
        assert InvokeTool(tools, calls[i]) == Success(run.results[i]);
        assert turn.transcript[|messages| + 1 + i] == run.results[i];
      }
    }
  }

  /**
   * The model is asked twice on a successful turn: first about the incoming
   * messages, then about the final transcript, and the second reply is
   * returned as it is, its own tool calls unrun. A failed turn asks it once.
   */
  lemma ModelAskedTwice(respond: seq<Message> -> AIReply, tools: map<string, Tool>, messages: seq<Message>)
    ensures var turn := CallModelTurn(respond, tools, messages);
      && turn.prompts[0] == messages
      && (turn.reply.Success? ==>
            turn.prompts == [messages, turn.transcript] && turn.reply.value == respond(turn.transcript))
      && (turn.reply.Failure? ==> turn.prompts == [messages])
  {
  }

  /** With no tool calls, the second question is the incoming messages plus the first reply. */
  lemma NoToolCallsSecondPrompt(respond: seq<Message> -> AIReply, tools: map<string, Tool>, messages: seq<Message>)
    requires respond(messages).toolCalls == []
    ensures var turn, extended := CallModelTurn(respond, tools, messages), messages + [Assistant(respond(messages))];
      turn.prompts == [messages, extended] && turn.transcript == extended && turn.reply == Success(respond(extended))
  {
    assert RunTools(tools, []) == Completed([]);
    assert messages + [Assistant(respond(messages))] + [] == messages + [Assistant(respond(messages))];
  }

  /**
   * With the schedule builder's table, a call naming a tool outside the three
   * registered ones makes the turn fail; when the calls before it succeed, it
   * fails with that name's `KeyError`, the results of those calls appended.
   */
  lemma UnknownToolFails(
    respond: seq<Message> -> AIReply, services: Services, messages: seq<Message>, k: nat)
    requires k < |respond(messages).toolCalls|
    requires respond(messages).toolCalls[k].name !in ToolNames
    ensures var turn, calls := CallModelTurn(respond, ToolTable(services), messages), respond(messages).toolCalls;
      && turn.reply.Failure?
      && ((forall i :: 0 <= i < k ==> InvokeTool(ToolTable(services), calls[i]).Success?) ==>
            turn.reply == Failure(UnknownTool(calls[k].name)) && |turn.transcript| == |messages| + 1 + k)
  {
    var tools, calls := ToolTable(services), respond(messages).toolCalls;
    RunToolsInCallOrder(tools, calls);
    RunToolsCompletes(tools, calls);
    var run := RunTools(tools, calls);
    assert InvokeTool(tools, calls[k]).Failure?;
    if forall i :: 0 <= i < k ==> InvokeTool(tools, calls[i]).Success? {
      assert run.Raised? && InvokeTool(tools, calls[|run.results|]).Failure?;
    }
  }

  /** The chat model: a fixed answer for every transcript, and the log of the transcripts it was asked about. */
  class ChatModel {
    const respond: seq<Message> -> AIReply
    ghost var invocations: seq<seq<Message>>

    constructor (respond: seq<Message> -> AIReply)
      ensures this.respond == respond && invocations == []
    {
      this.respond := respond;
      invocations := [];
    }

    /** `model.invoke(messages)`. */
    method Invoke(messages: seq<Message>) returns (reply: AIReply)
      modifies this
      ensures reply == respond(messages)
      ensures invocations == old(invocations) + [messages]
    {
      reply := respond(messages);
      invocations := invocations + [messages];
    }
  }

  /** The graph state handed to the node: the transcript and the optional `google_tool_call` entry. */
  class GraphState {
    var messages: seq<Message>
    var googleToolCall: Option<ToolCall>

    constructor (messages: seq<Message>)
      ensures this.messages == messages && googleToolCall == None
    {
      this.messages := messages;
      googleToolCall := None;
    }
  }

  class ScheduleBuilder {
    const systemModifier: Message
    const tools: map<string, Tool>
    const model: ChatModel
    var initialized: bool

    constructor (respond: seq<Message> -> AIReply, services: Services)
      ensures systemModifier == System(SystemPrompt)
      ensures tools == ToolTable(services) && tools.Keys == ToolNames
      ensures fresh(model) && model.respond == respond && model.invocations == []
      ensures !initialized
    {
      systemModifier := System(SystemPrompt);
      tools := ToolTable(services);
      model := new ChatModel(respond);
      initialized := false;
    }

    /** The routing function: to the calendar node exactly when `google_tool_call` is set. */
    function Router(state: GraphState): (next: string)
      reads state
      ensures next == GoogleCalendarNode <==> state.googleToolCall.Some?
      ensures next == EndNode <==> state.googleToolCall.None?
    {
      if state.googleToolCall.Some? then GoogleCalendarNode else EndNode
    }

    /**
     * `call_model`: drop `google_tool_call`, ask the model, append its reply,
     * run and append each requested tool call in order, ask the model again
     * and return that reply. The transcript is the state's own list, so an
     * error leaves what was appended before it.
     */
    method CallModel(state: GraphState) returns (r: Result<AIReply, CallError>)
      modifies state, model
      ensures state.googleToolCall == None
      ensures var turn := CallModelTurn(model.respond, tools, old(state.messages));
        && state.messages == turn.transcript
        && r == turn.reply
        && model.invocations == old(model.invocations) + turn.prompts
    {
      state.googleToolCall := None;
      ghost var input := state.messages;
      var response := model.Invoke(state.messages);
      state.messages := state.messages + [Assistant(response)];
      var calls := response.toolCalls;
      for i := 0 to |calls|
        invariant RunTools(tools, calls[..i]).Completed?
        invariant state.messages == input + [Assistant(response)] + RunTools(tools, calls[..i]).results
        invariant model.invocations == old(model.invocations) + [input]
        invariant state.googleToolCall == None
      {
        var call := calls[i];
        assert calls[..i + 1][..i] == calls[..i];
        if call.name !in tools {
          RaisedPersists(tools, calls, i + 1);
          return Failure(UnknownTool(call.name));
        }
        var output := tools[call.name](call.args);
        if output.Failure? {
          RaisedPersists(tools, calls, i + 1);
          return Failure(ToolRaised(call.name, output.error));
        }
        state.messages := state.messages + [ToolResult(call.id, call.name, output.value)];
      }
      assert calls[..|calls|] == calls;
      var reply := model.Invoke(state.messages);
      r := Success(reply);
    }

    /**
     * `get_response`: a fresh conversation whose state starts from exactly the
     * persona prompt and the user's query, then one run of the model node.
     */
    method GetResponse(query: string) returns (state: GraphState, r: Result<AIReply, CallError>)
      modifies model
      ensures fresh(state)
      ensures var turn := CallModelTurn(model.respond, tools, [systemModifier, User(query)]);
        && state.messages == turn.transcript
        && r == turn.reply
        && model.invocations == old(model.invocations) + turn.prompts
      ensures model.invocations[|old(model.invocations)|] == [systemModifier, User(query)]
    {
      state := new GraphState([systemModifier, User(query)]);
      r := CallModel(state);
    }
  }
}
