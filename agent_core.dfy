/** The agent executor: it gathers the tools of every worker that connected,
    runs the "agent" -> "tools" -> "agent" loop over an append-only message
    history, answers every requested tool call with exactly one tool message,
    and turns the final assistant message (or the failure) into the output
    text. The chat model and the tools are oracles handed in as functions. */
module AgentCore {
  import opened Wrappers
  import opened PyText
  import opened Messages
  import opened McpHelper

  // ------------------------------------------------------------ the oracles

  /** What awaiting a tool's coroutine gave: `str(output)`, or the text of the exception. */
  datatype ToolOutcome = Returned(rendered: string) | Raised(error: string)

  /** The worker side of a tool call: the result of `call_tool(toolName, arguments)`. */
  type ToolRunner = (Wrapper, seq<(string, Json)>) -> ToolOutcome

  /** What the chat model answered: an assistant message, or the text of the exception. */
  datatype LlmReply = Reply(content: Content, toolCalls: seq<ToolCall>) | LlmError(error: string)

  /** The chat model with the tool catalogue bound to it, asked with the whole history. */
  type ChatModel = (seq<Tool>, seq<Message>) -> LlmReply

  // --------------------------------------------------------- tool catalogue

  /** The worker scripts started by `initialize`, in order. */
  const ServerFiles: seq<string> := ["computer_info_server.py", "security_server.py", "maintenance_server.py"]

  /** The tools one worker contributes: its compiled listing when both the
      connection and the listing succeed, otherwise none. */
  function ServerTools(file: string, connect: string -> ConnectOutcome,
                       listTools: string -> Result<seq<ToolInfo>, string>): seq<Tool>
  {
    if connect(file).Connected? && listTools(file).Ok? then CompileTools(file, listTools(file).value) else []
  }

  /** The concatenation of `f(x)` over `xs`, in order. */
  function FlatMap<T>(xs: seq<string>, f: string -> seq<T>): seq<T>
    decreases |xs|
  {
    if xs == [] then [] else FlatMap(xs[..|xs| - 1], f) + f(xs[|xs| - 1])
  }

  lemma {:induction false} FlatMapAppend<T>(a: seq<string>, b: seq<string>, f: string -> seq<T>)
    ensures FlatMap(a + b, f) == FlatMap(a, f) + FlatMap(b, f)
    decreases |b|
  {
    if b == [] {
      assert a + b == a;
    } else {
      var init := b[..|b| - 1];
      var ab := a + b;
      assert ab[..|ab| - 1] == a + init && ab[|ab| - 1] == b[|b| - 1];
      FlatMapAppend(a, init, f);
    }
  }

  /** The catalogue of `initialize`: each worker's tools, in `files` order. */
  function Aggregate(files: seq<string>, connect: string -> ConnectOutcome,
                     listTools: string -> Result<seq<ToolInfo>, string>): seq<Tool>
  {
    FlatMap(files, file => ServerTools(file, connect, listTools))
  }

  /** The workers whose connection succeeded, in order: these join `mcp_clients`. */
  function ConnectedPaths(files: seq<string>, connect: string -> ConnectOutcome): seq<string>
    decreases |files|
  {
    if files == [] then []
    else
      var last := files[|files| - 1];
      ConnectedPaths(files[..|files| - 1], connect) + (if connect(last).Connected? then [last] else [])
  }

  /** Every tool's coroutine calls the tool under its own name. */
  predicate WrappersBound(tools: seq<Tool>)
  {
    forall t :: t in tools ==> t.coroutine.toolName == t.name
  }

  function Paths(clients: seq<MCPClient>): (ps: seq<string>)
    ensures |ps| == |clients|
    ensures forall i :: 0 <= i < |clients| ==> ps[i] == clients[i].serverScriptPath
  {
    seq(|clients|, i requires 0 <= i < |clients| => clients[i].serverScriptPath)
  }

  /** A worker that fails to connect contributes no tools: the catalogue is
      the one built without it. */
  lemma FailedServerContributesNothing(files: seq<string>, k: nat, connect: string -> ConnectOutcome,
                                       listTools: string -> Result<seq<ToolInfo>, string>)
    requires k < |files| && !connect(files[k]).Connected?
    ensures Aggregate(files, connect, listTools) == Aggregate(files[..k] + files[k + 1..], connect, listTools)
  {
    var f := file => ServerTools(file, connect, listTools);
    assert files == files[..k] + [files[k]] + files[k + 1..];
    FlatMapAppend(files[..k] + [files[k]], files[k + 1..], f);
    FlatMapAppend(files[..k], [files[k]], f);
    FlatMapAppend(files[..k], files[k + 1..], f);
    assert [files[k]][..0] == [];
    assert FlatMap([files[k]], f) == [];
  }

  /** Every catalogued tool is bound to its own name on a worker that connected. */
  lemma {:induction false} AggregateOwners(files: seq<string>, connect: string -> ConnectOutcome,
                                           listTools: string -> Result<seq<ToolInfo>, string>)
    ensures WrappersBound(Aggregate(files, connect, listTools))
    ensures forall t :: t in Aggregate(files, connect, listTools) ==> t.coroutine.server in ConnectedPaths(files, connect)
    decreases |files|
  {
    if files != [] {
      var init, last := files[..|files| - 1], files[|files| - 1];
      AggregateOwners(init, connect, listTools);
      var ts := ServerTools(last, connect, listTools);
      assert Aggregate(files, connect, listTools) == Aggregate(init, connect, listTools) + ts;
      forall t | t in ts ensures t.coroutine.toolName == t.name && t.coroutine.server == last && connect(last).Connected? {
        var i :| 0 <= i < |ts| && ts[i] == t;
      }
    }
  }

  // --------------------------------------------------------------- dispatch

  /** `next((t for t in tools if t.name == name), None)`: the first tool with that name. */
  function FindTool(tools: seq<Tool>, name: string): (r: Option<Tool>)
    ensures r.None? <==> forall i :: 0 <= i < |tools| ==> tools[i].name != name
    ensures r.Some? ==> exists i :: 0 <= i < |tools| && tools[i] == r.value && r.value.name == name &&
                                    forall j :: 0 <= j < i ==> tools[j].name != name
    decreases |tools|
  {
    if tools == [] then None
    else if tools[0].name == name then Some(tools[0])
    else
      var r := FindTool(tools[1..], name);
      if r.Some? then
        var i :| 0 <= i < |tools[1..]| && tools[1..][i] == r.value && r.value.name == name &&
          forall j :: 0 <= j < i ==> tools[1..][j].name != name;
        assert tools[i + 1] == r.value;
        r
      else r
  }

  /** Duplicate names are not detected: once some tool in `first` has the
      name, the tools after `first` are never reached for it, so a later
      tool with the same name is never selected. */
  lemma {:induction false} ShadowedToolUnreachable(first: seq<Tool>, later: seq<Tool>, name: string)
    requires exists i :: 0 <= i < |first| && first[i].name == name
    ensures FindTool(first + later, name) == FindTool(first, name)
    decreases |first|
  {
    assert (first + later)[0] == first[0];
    if first[0].name != name {
      var i :| 0 <= i < |first| && first[i].name == name;
      assert first[1..][i - 1].name == name;
      assert (first + later)[1..] == first[1..] + later;
      ShadowedToolUnreachable(first[1..], later, name);
    }
  }

  function NotFoundText(name: string): string
  {
    "Error: Tool " + name + " not found."
  }

  function ToolErrorText(name: string, error: string): string
  {
    "Error executing tool " + name + ": " + error
  }

  /** The tool message answering one call: tagged with the call's id and name,
      holding the tool's output, the not-found text or the exception text. */
  function Observe(tools: seq<Tool>, run: ToolRunner, call: ToolCall): (m: Message)
    ensures m.ToolMessage? && m.toolCallId == call.id && m.name == call.name
  {
    var output :=
      match FindTool(tools, call.name)
      case None => NotFoundText(call.name)
      case Some(t) =>
        match run(t.coroutine, call.args)
        case Returned(o) => o
        case Raised(e) => ToolErrorText(call.name, e);
    ToolMessage(call.id, call.name, output)
  }

  /** A call of an unknown tool reaches no worker: its message is the same
      whatever the workers would do, and says the tool was not found. */
  lemma UnknownToolInvokesNothing(tools: seq<Tool>, run1: ToolRunner, run2: ToolRunner, call: ToolCall)
    requires forall i :: 0 <= i < |tools| ==> tools[i].name != call.name
    ensures Observe(tools, run1, call) == Observe(tools, run2, call)
    ensures Observe(tools, run1, call).content == "Error: Tool " + call.name + " not found."
  {
  }

  /** A call of a known tool asks the owning worker for the requested name,
      and its message is the worker's output or the text of the exception. */
  lemma KnownToolCalledByName(tools: seq<Tool>, run: ToolRunner, call: ToolCall, k: nat)
    requires WrappersBound(tools)
    requires k < |tools| && tools[k].name == call.name
    requires forall j :: 0 <= j < k ==> tools[j].name != call.name
    ensures var w := Wrapper(tools[k].coroutine.server, call.name);
      Observe(tools, run, call).content ==
        match run(w, call.args)
        case Returned(o) => o
        case Raised(e) => "Error executing tool " + call.name + ": " + e
  {
  }

  /** The observations answer the calls one to one, in order, by id and name. */
  predicate Answers(calls: seq<ToolCall>, obs: seq<Message>)
  {
    |obs| == |calls| &&
    forall i :: 0 <= i < |obs| ==>
      obs[i].ToolMessage? && obs[i].toolCallId == calls[i].id && obs[i].name == calls[i].name
  }

  /** The tool messages of one turn: each call answered on its own. With
      the runner a pure function, one failing call changes nothing for the
      others; side effects between calls are not modelled. */
  function Dispatch(tools: seq<Tool>, run: ToolRunner, calls: seq<ToolCall>): (obs: seq<Message>)
    ensures Answers(calls, obs)
    ensures forall i :: 0 <= i < |calls| ==> obs[i] == Observe(tools, run, calls[i])
  {
    seq(|calls|, i requires 0 <= i < |calls| => Observe(tools, run, calls[i]))
  }

  // ------------------------------------------------------------ graph loop

  datatype Route = Continue | End

  /** `should_continue`: on to the tools node exactly when the assistant asked for tools. */
  function ShouldContinue(last: Message): (r: Route)
    requires last.AIMessage?
    ensures r == Continue <==> last.toolCalls != []
  {
    if |last.toolCalls| > 0 then Continue else End
  }

  /** The text of the error raised when the graph runs out of steps. */
  const RecursionLimitError: string := "Recursion limit reached without hitting a stop condition."

  /** The messages one graph run appends: assistant messages, each one that
      asks for tools followed by exactly one answer per call, ending with an
      assistant message that asks for none. */
  predicate AgentRun(s: seq<Message>)
    decreases |s|
  {
    |s| > 0 && s[0].AIMessage? &&
    if s[0].toolCalls == [] then |s| == 1
    else
      var k := |s[0].toolCalls|;
      |s| > 1 + k && Answers(s[0].toolCalls, s[1..1 + k]) && AgentRun(s[1 + k..])
  }

  /** The compiled graph run from `msgs`: "agent" then, while the reply asks
      for tools, "tools" and "agent" again. Each node run costs one of `steps`. */
  function Run(tools: seq<Tool>, llm: ChatModel, run: ToolRunner, msgs: seq<Message>, steps: nat): Result<seq<Message>, string>
    decreases steps
  {
    if steps == 0 then Err(RecursionLimitError)
    else
      match llm(tools, msgs)
      case LlmError(e) => Err(e)
      case Reply(c, calls) =>
        var ai := AIMessage(c, calls);
        if ShouldContinue(ai) == End then Ok(msgs + [ai])
        else if steps == 1 then Err(RecursionLimitError)
        else Run(tools, llm, run, msgs + [ai] + Dispatch(tools, run, calls), steps - 2)
  }

  /** A run only appends, and what it appends is a well-formed agent run:
      every call answered before the model is asked again, and the run stops
      exactly at an assistant message without tool calls. */
  lemma {:induction false} RunTranscript(tools: seq<Tool>, llm: ChatModel, run: ToolRunner, msgs: seq<Message>, steps: nat)
    requires Run(tools, llm, run, msgs, steps).Ok?
    ensures var final := Run(tools, llm, run, msgs, steps).value;
      |final| > |msgs| && final[..|msgs|] == msgs && AgentRun(final[|msgs|..])
    decreases steps
  {
    var reply := llm(tools, msgs);
    var ai := AIMessage(reply.content, reply.toolCalls);
    if reply.toolCalls == [] {
      var final := msgs + [ai];
      assert final[|msgs|..] == [ai];
    } else {
      var obs := Dispatch(tools, run, reply.toolCalls);
      var next := msgs + [ai] + obs;
      RunTranscript(tools, llm, run, next, steps - 2);
      var final := Run(tools, llm, run, next, steps - 2).value;
      assert final == Run(tools, llm, run, msgs, steps).value;
      var k := |reply.toolCalls|;
      var s := final[|msgs|..];
      assert final[..|next|] == next;
      assert final[..|msgs|] == next[..|msgs|] == msgs;
      assert s[0] == next[|msgs|] == ai;
      assert s[1..1 + k] == final[|msgs| + 1..|next|] == next[|msgs| + 1..] == obs;
      assert s[1 + k..] == final[|next|..];
    }
  }

  /** The last message of an agent run is an assistant message without tool calls. */
  lemma {:induction false} AgentRunEnds(s: seq<Message>)
    requires AgentRun(s)
    ensures s[|s| - 1].AIMessage? && s[|s| - 1].toolCalls == []
    decreases |s|
  {
    if s[0].toolCalls != [] {
      var k := |s[0].toolCalls|;
      AgentRunEnds(s[1 + k..]);
    }
  }

  /** A successful run appends a well-formed agent run to `msgs` and ends
      with an assistant message that asks for no tools. */
  lemma RunAnswers(tools: seq<Tool>, llm: ChatModel, run: ToolRunner, msgs: seq<Message>, steps: nat)
    ensures var r := Run(tools, llm, run, msgs, steps);
      r.Ok? ==>
        |r.value| > |msgs| && r.value[..|msgs|] == msgs && AgentRun(r.value[|msgs|..]) &&
        r.value[|r.value| - 1].AIMessage? && r.value[|r.value| - 1].toolCalls == []
  {
    var r := Run(tools, llm, run, msgs, steps);
    if r.Ok? {
      RunTranscript(tools, llm, run, msgs, steps);
      var s := r.value[|msgs|..];
      AgentRunEnds(s);
      assert s[|s| - 1] == r.value[|r.value| - 1];
    }
  }

  // ----------------------------------------------------------------- output

  /** The items `text_parts` collects from list content, in order: each string
      part, and the `'text'` of each dict part that has one. */
  function PartText(p: Part): seq<PyValue>
  {
    match p
    case DictPart(Some(v)) => [v]
    case StrPart(s) => [PyStr(s)]
    case _ => []
  }

  function TextParts(parts: seq<Part>): seq<PyValue>
    decreases |parts|
  {
    if parts == [] then [] else TextParts(parts[..|parts| - 1]) + PartText(parts[|parts| - 1])
  }

  /** The position of the first item that is not a string, if any. */
  function FirstNonStr(items: seq<PyValue>): (r: Option<nat>)
    ensures r.None? <==> forall k :: 0 <= k < |items| ==> items[k].PyStr?
    ensures r.Some? ==> (r.value < |items| && items[r.value].PyNonStr? &&
                         forall k :: 0 <= k < r.value ==> items[k].PyStr?)
    decreases |items|
  {
    if items == [] then None
    else if items[0].PyNonStr? then Some(0)
    else
      match FirstNonStr(items[1..])
      case None => None
      case Some(k) => Some(k + 1)
  }

  function Strs(items: seq<PyValue>): (ss: seq<string>)
    requires forall k :: 0 <= k < |items| ==> items[k].PyStr?
    ensures |ss| == |items| && forall k :: 0 <= k < |items| ==> ss[k] == items[k].s
  {
    seq(|items|, k requires 0 <= k < |items| => items[k].s)
  }

  /** The `TypeError` message of `str.join` for item `k` of type `typeName`. */
  function JoinTypeError(k: nat, typeName: string): string
  {
    "sequence item " + NatToString(k) + ": expected str instance, " +
    (if |typeName| <= 80 then typeName else typeName[..80]) + " found"
  }

  /** `sep.join(items)`: the joined text, or the `TypeError` for the first non-string item. */
  function StrJoin(sep: string, items: seq<PyValue>): Result<string, string>
  {
    match FirstNonStr(items)
    case Some(k) => Err(JoinTypeError(k, items[k].typeName))
    case None => Ok(JoinStrings(sep, Strs(items)))
  }

  /** The output text of the final content: a string as it is, list content
      joined by newlines, anything else as `str(content)`. */
  function Flatten(content: Content): Result<string, string>
  {
    match content
    case Text(s) => Ok(s)
    case Parts(parts) => StrJoin("\n", TextParts(parts))
    case OtherContent(rendered) => Ok(rendered)
  }

  /** List content flattens without error exactly when every collected text is
      a string; then, when none holds a newline, splitting the output on
      newlines gives back the collected texts in order. */
  lemma {:induction false} FlattenRecoversParts(parts: seq<Part>)
    ensures Flatten(Parts(parts)).Ok? ==> forall k :: 0 <= k < |TextParts(parts)| ==> TextParts(parts)[k].PyStr?
    ensures (forall k :: 0 <= k < |TextParts(parts)| ==> TextParts(parts)[k].PyStr?) ==> Flatten(Parts(parts)).Ok?
    ensures var items := TextParts(parts);
      (|items| > 0 && forall k :: 0 <= k < |items| ==> items[k].PyStr? && '\n' !in items[k].s) ==>
        Flatten(Parts(parts)) == Ok(JoinStrings("\n", Strs(items))) &&
        SplitOn('\n', JoinStrings("\n", Strs(items))) == Strs(items)
  {
    var items := TextParts(parts);
    assert Flatten(Parts(parts)) == StrJoin("\n", items);
    if FirstNonStr(items).None? {
      assert Flatten(Parts(parts)) == Ok(JoinStrings("\n", Strs(items)));
      if |items| > 0 && forall k :: 0 <= k < |items| ==> '\n' !in items[k].s {
        SplitJoin('\n', Strs(items));
      }
    } else {
      var bad := FirstNonStr(items).value;
      assert items[bad].PyNonStr?;
    }
  }

  /** Flattening a string content gives the string itself. */
  lemma FlattenText(s: string)
    ensures Flatten(Text(s)) == Ok(s)
  {
  }

  /** The model name the error message mentions. */
  const ModelName: string := "gemini-2.5-flash"

  const ModelNotFoundPrefix: string :=
    "Error: Model '" + ModelName + "' not found. Please check your API key or model name.\nDetails: "

  const GenericErrorPrefix: string := "An error occurred: "

  /** The two marks by which an exception is taken for a missing model. */
  const StatusMark: string := "404"
  const PhraseMark: string := "not found"

  /** The text of an exception is taken for a missing model. */
  predicate LooksLikeMissingModel(error: string)
  {
    Contains(error, StatusMark) || Contains(Lower(error), PhraseMark)
  }

  /** The output for an exception that reached `invoke`. */
  function ErrorOutput(error: string): string
  {
    (if LooksLikeMissingModel(error) then ModelNotFoundPrefix else GenericErrorPrefix) + error
  }

  /** The output reports a missing model exactly when the error text holds
      "404" or, ignoring case, "not found"; either way it ends with the error text. */
  lemma ErrorOutputClassifies(error: string)
    ensures var out := ErrorOutput(error);
      (|out| >= |ModelNotFoundPrefix| && out[..|ModelNotFoundPrefix|] == ModelNotFoundPrefix) ==>
        (exists i :: OccursAt(error, StatusMark, i)) || (exists i :: OccursAt(Lower(error), PhraseMark, i))
    ensures var out := ErrorOutput(error);
      ((exists i :: OccursAt(error, StatusMark, i)) || (exists i :: OccursAt(Lower(error), PhraseMark, i))) ==>
        |out| >= |ModelNotFoundPrefix| && out[..|ModelNotFoundPrefix|] == ModelNotFoundPrefix
    ensures var out := ErrorOutput(error);
      !((exists i :: OccursAt(error, StatusMark, i)) || (exists i :: OccursAt(Lower(error), PhraseMark, i))) ==>
        |out| >= |GenericErrorPrefix| && out[..|GenericErrorPrefix|] == GenericErrorPrefix
    ensures var out := ErrorOutput(error);
      |out| >= |error| && out[|out| - |error|..] == error
  {
    ContainsIff(error, StatusMark);
    ContainsIff(Lower(error), PhraseMark);
    var out := ErrorOutput(error);
    var n := |ModelNotFoundPrefix|;
    if LooksLikeMissingModel(error) {
      assert out == ModelNotFoundPrefix + error;
      assert out[..n] == ModelNotFoundPrefix;
      if Contains(error, StatusMark) {
        assert exists i :: OccursAt(error, StatusMark, i);
      } else {
        assert Contains(Lower(error), PhraseMark);
        assert exists i :: OccursAt(Lower(error), PhraseMark, i);
      }
    } else {
      assert out == GenericErrorPrefix + error;
      assert out[..|GenericErrorPrefix|] == GenericErrorPrefix;
      assert out[0] == 'A' && ModelNotFoundPrefix[0] == 'E';
      assert |out| >= n ==> out[..n][0] == out[0];
    }
    assert out[|out| - |error|..] == error;
  }

  /** The output of `invoke` for a flattening outcome. */
  function OutputOf(flat: Result<string, string>): string
  {
    match flat
    case Ok(text) => text
    case Err(e) => ErrorOutput(e)
  }

  /** `inputs.get("input", "")`. */
  function UserInput(inputs: map<string, string>): string
  {
    if "input" in inputs then inputs["input"] else ""
  }

  // --------------------------------------------------------------- executor

  class LangGraphAgentExecutor {
    /** Whether the graph has been built (`self.app` is set). */
    var app: bool
    var mcpClients: seq<MCPClient>
    var tools: seq<Tool>
    var conversationHistory: seq<Message>

    /** The history opens with the system directive, and every tool is bound
        to its own name on a client that connected. */
    ghost predicate Valid()
      reads this
    {
      |conversationHistory| > 0 && conversationHistory[0].SystemMessage? &&
      WrappersBound(tools) &&
      forall t :: t in tools ==> t.coroutine.server in Paths(mcpClients)
    }

    constructor (systemPrompt: string)
      ensures Valid() && !app
      ensures mcpClients == [] && tools == []
      ensures conversationHistory == [SystemMessage(systemPrompt)]
    {
      app := false;
      mcpClients := [];
      tools := [];
      conversationHistory := [SystemMessage(systemPrompt)];
    }

    /** Connects to every worker in turn. A worker joins `mcp_clients` when it
        connects, and adds its tools when its listing succeeds too. */
    method Initialize(connect: string -> ConnectOutcome, listTools: string -> Result<seq<ToolInfo>, string>)
      requires Valid()
      modifies this
      ensures Valid() && app
      ensures tools == Aggregate(ServerFiles, connect, listTools)
      ensures |mcpClients| >= |old(mcpClients)| && mcpClients[..|old(mcpClients)|] == old(mcpClients)
      ensures Paths(mcpClients) == old(Paths(mcpClients)) + ConnectedPaths(ServerFiles, connect)
      ensures conversationHistory == old(conversationHistory)
    {
      var collected: seq<Tool> := [];
      var i := 0;
      while i < |ServerFiles|
        invariant 0 <= i <= |ServerFiles|
        invariant collected == Aggregate(ServerFiles[..i], connect, listTools)
        invariant |mcpClients| >= |old(mcpClients)| && mcpClients[..|old(mcpClients)|] == old(mcpClients)
        invariant Paths(mcpClients) == old(Paths(mcpClients)) + ConnectedPaths(ServerFiles[..i], connect)
        invariant conversationHistory == old(conversationHistory) && tools == old(tools)
      {
        var file := ServerFiles[i];
        var client := new MCPClient(file);
        var connected := client.Connect(connect(file));
        if connected.Ok? {
          mcpClients := mcpClients + [client];
          var listed := client.GetTools(listTools(file));
          if listed.Ok? {
            collected := collected + listed.value;
          }
        }
        assert ServerFiles[..i + 1][..i] == ServerFiles[..i];
        i := i + 1;
      }
      assert ServerFiles[..i] == ServerFiles;
      tools := collected;
      app := true;
      AggregateOwners(ServerFiles, connect, listTools);
    }

    /** `execute_tools`: one tool message per call of the last message, in order. */
    method ExecuteTools(messages: seq<Message>, run: ToolRunner) returns (results: seq<Message>)
      requires |messages| > 0 && messages[|messages| - 1].AIMessage?
      ensures results == Dispatch(tools, run, messages[|messages| - 1].toolCalls)
      ensures Answers(messages[|messages| - 1].toolCalls, results)
    {
      var toolCalls := messages[|messages| - 1].toolCalls;
      results := [];
      var i := 0;
      while i < |toolCalls|
        invariant 0 <= i <= |toolCalls|
        invariant results == Dispatch(tools, run, toolCalls[..i])
      {
        var call := toolCalls[i];
        var output: string;
        var selected := FindTool(tools, call.name);
        if selected.Some? {
          var outcome := run(selected.value.coroutine, call.args);
          output := if outcome.Returned? then outcome.rendered else ToolErrorText(call.name, outcome.error);
        } else {
          output := NotFoundText(call.name);
        }
        results := results + [ToolMessage(call.id, call.name, output)];
        assert toolCalls[..i + 1] == toolCalls[..i] + [call];
        i := i + 1;
      }
      assert toolCalls[..i] == toolCalls;
    }

    /** The compiled graph's `ainvoke`: the agent/tools loop over a copy of the history. */
    method RunGraph(initial: seq<Message>, llm: ChatModel, run: ToolRunner, steps: nat) returns (r: Result<seq<Message>, string>)
      ensures r == Run(tools, llm, run, initial, steps)
    {
      var messages := initial;
      var budget := steps;
      while true
        invariant Run(tools, llm, run, messages, budget) == Run(tools, llm, run, initial, steps)
        decreases budget
      {
        if budget == 0 {
          return Err(RecursionLimitError);
        }
        var reply := llm(tools, messages);
        if reply.LlmError? {
          return Err(reply.error);
        }
        var ai := AIMessage(reply.content, reply.toolCalls);
        messages := messages + [ai];
        if ShouldContinue(ai) == End {
          return Ok(messages);
        }
        if budget == 1 {
          return Err(RecursionLimitError);
        }
        var results := ExecuteTools(messages, run);
        messages := messages + results;
        budget := budget - 2;
      }
    }

    /** The text collected from the final content, built part by part. */
    static method FlattenContent(content: Content) returns (r: Result<string, string>)
      ensures r == Flatten(content)
    {
      match content
      case Text(s) =>
        r := Ok(s);
      case OtherContent(rendered) =>
        r := Ok(rendered);
      case Parts(parts) =>
        var textParts: seq<PyValue> := [];
        var i := 0;
        while i < |parts|
          invariant 0 <= i <= |parts|
          invariant textParts == TextParts(parts[..i])
        {
          var part := parts[i];
          if part.DictPart? && part.text.Some? {
            textParts := textParts + [part.text.value];
          } else if part.StrPart? {
            textParts := textParts + [PyStr(part.s)];
          }
          assert parts[..i + 1][..i] == parts[..i];
          i := i + 1;
        }
        assert parts[..i] == parts;
        r := StrJoin("\n", textParts);
    }

    /** The part of `invoke` after the graph exists: appends the user
        message, runs the graph, extends the history with what the run
        appended and returns the flattened final content; an exception from
        the run leaves only the user message appended and becomes the error output. */
    method Respond(userInput: string, llm: ChatModel, run: ToolRunner, steps: nat) returns (output: string)
      requires Valid()
      modifies this`conversationHistory
      ensures Valid()
      ensures var sent := old(conversationHistory) + [HumanMessage(userInput)];
        match Run(tools, llm, run, sent, steps)
        case Err(e) =>
          conversationHistory == sent && output == ErrorOutput(e)
        case Ok(final) =>
          conversationHistory == final && |final| > |sent| && final[..|sent|] == sent &&
          AgentRun(final[|sent|..]) &&
          final[|final| - 1].AIMessage? && final[|final| - 1].toolCalls == [] &&
          output == OutputOf(Flatten(final[|final| - 1].reply))
    {
      conversationHistory := conversationHistory + [HumanMessage(userInput)];
      var initial := conversationHistory;
      var r := RunGraph(initial, llm, run, steps);
      if r.Err? {
        output := ErrorOutput(r.error);
        return;
      }
      var final := r.value;
      RunAnswers(tools, llm, run, initial, steps);
      var last := final[|final| - 1];
      conversationHistory := conversationHistory + final[|conversationHistory|..];
      assert conversationHistory == final by {
        assert final == final[..|initial|] + final[|initial|..];
      }
      assert conversationHistory[0] == initial[0];
      var flat := FlattenContent(last.reply);
      output := OutputOf(flat);
    }

    /** `invoke`: builds the graph and connects the workers on first use
        only, then answers the user input found under `"input"`. */
    method Invoke(inputs: map<string, string>, connect: string -> ConnectOutcome,
                  listTools: string -> Result<seq<ToolInfo>, string>,
                  llm: ChatModel, run: ToolRunner, steps: nat) returns (output: string)
      requires Valid()
      modifies this
      ensures Valid() && app
      ensures tools == if old(app) then old(tools) else Aggregate(ServerFiles, connect, listTools)
      ensures old(app) ==> mcpClients == old(mcpClients)
      ensures !old(app) ==>
        |mcpClients| >= |old(mcpClients)| && mcpClients[..|old(mcpClients)|] == old(mcpClients)
      ensures !old(app) ==> Paths(mcpClients) == old(Paths(mcpClients)) + ConnectedPaths(ServerFiles, connect)
      ensures var sent := old(conversationHistory) + [HumanMessage(UserInput(inputs))];
        match Run(tools, llm, run, sent, steps)
        case Err(e) =>
          conversationHistory == sent && output == ErrorOutput(e)
        case Ok(final) =>
          conversationHistory == final && |final| > |sent| && final[..|sent|] == sent &&
          AgentRun(final[|sent|..]) &&
          final[|final| - 1].AIMessage? && final[|final| - 1].toolCalls == [] &&
          output == OutputOf(Flatten(final[|final| - 1].reply))
    {
      if !app {
        Initialize(connect, listTools);
      }
      output := Respond(UserInput(inputs), llm, run, steps);
    }
  }
}
