/** The stdio server of src/integration/mcp-stdio.ts on its asynchronous path: each data chunk is
  * framed into lines, well-formed lines join a serial queue, malformed lines are answered at once.
  * Decoding a line and running a tool are parameters; a tool may answer or throw.
  */
module McpStdio {
  import opened Wrappers
  import opened StdioFraming
  import opened Text

  datatype RpcId = NullId | TextId(text: string) | NumberId(number: int)

  /** A decoded request; an absent id reads as null, an absent method as the empty one. */
  datatype Request = Request(id: RpcId, methodName: string, protocolVersion: Option<string>, toolName: Option<string>)

  /** `Unusable` is JSON the handler throws on, such as `null`. */
  datatype Decoded = Malformed | Unusable | Message(request: Request)

  datatype ToolResult = Succeeded(text: string) | Failed(reason: string)
  datatype ToolOutcome = Resolved(result: ToolResult) | Rejected

  datatype Body =
    | Initialized(protocolVersion: string)
    | Pong
    | ToolList
    | ToolAnswer(text: string, isError: bool)
    | RpcError(code: int, message: string)

  datatype Reply = Reply(id: RpcId, body: Body)

  const DEFAULT_PROTOCOL_VERSION: string := "2024-11-05"
  const PARSE_ERROR: Reply := Reply(NullId, RpcError(-32700, "Parse error."))

  predicate IsNotification(request: Request) {
    "notifications/" <= request.methodName
  }

  function HandleMcpRequestAsync(request: Request, outcome: ToolOutcome): Option<Reply> {
    if IsNotification(request) then None
    else
      var body :=
        if request.methodName == "initialize" then
          match request.protocolVersion
          case Some(version) => Initialized(if |version| > 0 then version else DEFAULT_PROTOCOL_VERSION)
          case None => Initialized(DEFAULT_PROTOCOL_VERSION)
        else if request.methodName == "ping" then Pong
        else if request.methodName == "tools/list" then ToolList
        else if request.methodName == "tools/call" then
          (match request.toolName
           case None => RpcError(-32602, "tools/call requires a tool name.")
           case Some(_) =>
             match outcome
             case Resolved(Succeeded(text)) => ToolAnswer(text, false)
             case Resolved(Failed(reason)) => ToolAnswer(reason, true)
             case Rejected => ToolAnswer("Tool call failed.", true))
        else RpcError(-32601, "Unknown method " + request.methodName + ".");
      Some(Reply(request.id, body))
  }

  datatype ServerState = ServerState(buffer: string, pending: seq<Decoded>, output: seq<Reply>)

  const START: ServerState := ServerState("", [], [])

  function Receive(state: ServerState, decoded: Decoded): ServerState {
    if decoded.Malformed? then state.(output := state.output + [PARSE_ERROR])
    else state.(pending := state.pending + [decoded])
  }

  function ReceiveAll(state: ServerState, messages: seq<Decoded>): ServerState {
    if messages == [] then state
    else Receive(ReceiveAll(state, messages[..|messages| - 1]), messages[|messages| - 1])
  }

  function DecodeAll(decode: string -> Decoded, lines: seq<string>): (messages: seq<Decoded>)
    ensures |messages| == |lines| && forall i :: 0 <= i < |lines| ==> messages[i] == decode(lines[i])
  {
    seq(|lines|, i requires 0 <= i < |lines| => decode(lines[i]))
  }

  function DataStep(decode: string -> Decoded, state: ServerState, chunk: string): ServerState {
    var framed := SplitFramedLines(state.buffer + chunk);
    ReceiveAll(state.(buffer := framed.rest), DecodeAll(decode, framed.lines))
  }

  /** The oldest queued request finishes. */
  function SettleStep(state: ServerState, outcome: ToolOutcome): ServerState {
    if state.pending == [] then state
    else
      var next := state.(pending := state.pending[1..]);
      match state.pending[0]
      case Message(request) =>
        (match HandleMcpRequestAsync(request, outcome)
         case Some(reply) => next.(output := next.output + [reply])
         case None => next)
      case _ => next
  }

  datatype Event = Data(chunk: string) | Settle(outcome: ToolOutcome)

  function Run(decode: string -> Decoded, events: seq<Event>): ServerState {
    if events == [] then START
    else
      var before := Run(decode, events[..|events| - 1]);
      match events[|events| - 1]
      case Data(chunk) => DataStep(decode, before, chunk)
      case Settle(outcome) => SettleStep(before, outcome)
  }

  class McpServer {
    const decode: string -> Decoded
    var buffer: string
    var pending: seq<Decoded>
    var output: seq<Reply>

    function State(): ServerState
      reads this
    {
      ServerState(buffer, pending, output)
    }

    constructor (decode: string -> Decoded)
      ensures this.decode == decode && State() == START
    {
      this.decode := decode;
      buffer, pending, output := "", [], [];
    }

    method OnData(chunk: string)
      modifies this
      ensures State() == DataStep(decode, old(State()), chunk)
    {
      buffer := buffer + chunk;
      var framed := SplitFramedLines(buffer);
      buffer := framed.rest;
      ghost var entry := State();
      ghost var messages := DecodeAll(decode, framed.lines);
      for i := 0 to |framed.lines|
        invariant State() == ReceiveAll(entry, messages[..i])
      {
        var decoded := decode(framed.lines[i]);
        if decoded.Malformed? {
          output := output + [PARSE_ERROR];
        } else {
          pending := pending + [decoded];
        }
        assert messages[..i + 1][..i] == messages[..i];
      }
      assert messages[..|messages|] == messages;
    }

    method OnSettled(outcome: ToolOutcome)
      modifies this
      ensures State() == SettleStep(old(State()), outcome)
    {
      if pending != [] {
        var head := pending[0];
        pending := pending[1..];
        if head.Message? {
          var response := HandleMcpRequestAsync(head.request, outcome);
          if response.Some? {
            output := output + [response.value];
          }
        }
      }
    }
  }

  /** The chunks of a run, in order. */
  function Chunks(events: seq<Event>): seq<string> {
    if events == [] then []
    else
      var before := Chunks(events[..|events| - 1]);
      match events[|events| - 1]
      case Data(chunk) => before + [chunk]
      case Settle(_) => before
  }

  /** The requests among decoded lines that are owed a response, in order. */
  function Owed(messages: seq<Decoded>): seq<Request> {
    if messages == [] then []
    else
      var before, last := Owed(messages[..|messages| - 1]), messages[|messages| - 1];
      if last.Message? && !IsNotification(last.request) then before + [last.request] else before
  }

  function MalformedCount(messages: seq<Decoded>): nat {
    if messages == [] then 0
    else MalformedCount(messages[..|messages| - 1]) + if messages[|messages| - 1].Malformed? then 1 else 0
  }

  /** The replies that are not parse errors, in the order they were written. */
  function Answers(output: seq<Reply>): seq<Reply> {
    if output == [] then []
    else
      var before, last := Answers(output[..|output| - 1]), output[|output| - 1];
      if last == PARSE_ERROR then before else before + [last]
  }

  ghost predicate AnswersRequest(reply: Reply, request: Request) {
    exists outcome :: HandleMcpRequestAsync(request, outcome) == Some(reply)
  }

  /** The answers written so far are, one for one and in order, answers to the requests owed one, up
    * to those still queued; parse errors are one for each malformed line. */
  ghost predicate InOrder(state: ServerState, messages: seq<Decoded>) {
    var answers, owed := Answers(state.output), Owed(messages);
    && |answers| + |Owed(state.pending)| == |owed|
    && Owed(state.pending) == owed[|answers|..]
    && (forall i :: 0 <= i < |answers| ==> AnswersRequest(answers[i], owed[i]))
    && |state.output| - |answers| == MalformedCount(messages)
  }

  lemma HandlerNeverWritesParseError(request: Request, outcome: ToolOutcome)
    ensures HandleMcpRequestAsync(request, outcome) != Some(PARSE_ERROR)
    ensures HandleMcpRequestAsync(request, outcome).None? <==> IsNotification(request)
  {
  }

  lemma ReceiveKeepsOrder(state: ServerState, messages: seq<Decoded>, decoded: Decoded)
    requires InOrder(state, messages)
    ensures InOrder(Receive(state, decoded), messages + [decoded])
  {
    assert (messages + [decoded])[..|messages|] == messages;
    if decoded.Malformed? {
      assert (state.output + [PARSE_ERROR])[..|state.output|] == state.output;
    } else {
      assert (state.pending + [decoded])[..|state.pending|] == state.pending;
    }
  }

  lemma {:induction false} ReceiveAllKeepsOrder(state: ServerState, messages: seq<Decoded>, more: seq<Decoded>)
    requires InOrder(state, messages)
    ensures InOrder(ReceiveAll(state, more), messages + more)
    ensures ReceiveAll(state, more).buffer == state.buffer
  {
    if more == [] {
      assert messages + more == messages;
    } else {
      var earlier, last := more[..|more| - 1], more[|more| - 1];
      ReceiveAllKeepsOrder(state, messages, earlier);
      ReceiveKeepsOrder(ReceiveAll(state, earlier), messages + earlier, last);
      assert messages + more == messages + earlier + [last];
    }
  }

  lemma {:induction false} OwedFromFront(messages: seq<Decoded>)
    requires messages != []
    ensures Owed(messages) == Owed(messages[..1]) + Owed(messages[1..])
  {
    if |messages| > 1 {
      var n := |messages|;
      OwedFromFront(messages[..n - 1]);
      assert messages[..n - 1][..1] == messages[..1];
      assert messages[1..][..n - 2] == messages[..n - 1][1..];
    } else {
      assert messages[..1] == messages;
    }
  }

  lemma AnswerKeepsOrder(state: ServerState, messages: seq<Decoded>, request: Request, rest: seq<Decoded>, reply: Reply)
    requires InOrder(state, messages) && reply != PARSE_ERROR && AnswersRequest(reply, request)
    requires Owed(state.pending) == [request] + Owed(rest)
    ensures InOrder(state.(pending := rest, output := state.output + [reply]), messages)
  {
    assert (state.output + [reply])[..|state.output|] == state.output;
    assert Owed(state.pending)[0] == request && Owed(state.pending)[1..] == Owed(rest);
  }

  lemma OwedHead(pending: seq<Decoded>)
    requires pending != []
    ensures Owed(pending) ==
            (if pending[0].Message? && !IsNotification(pending[0].request) then [pending[0].request] else []) + Owed(pending[1..])
  {
    OwedFromFront(pending);
    assert pending[..1] == [pending[0]] && [pending[0]][..0] == [];
  }

  lemma SettleKeepsOrder(state: ServerState, messages: seq<Decoded>, outcome: ToolOutcome)
    requires InOrder(state, messages)
    ensures InOrder(SettleStep(state, outcome), messages)
  {
    if state.pending != [] {
      var head := state.pending[0];
      OwedHead(state.pending);
      if head.Message? {
        HandlerNeverWritesParseError(head.request, outcome);
        var response := HandleMcpRequestAsync(head.request, outcome);
        if response.Some? {
          AnswerKeepsOrder(state, messages, head.request, state.pending[1..], response.value);
        }
      }
    }
  }

  lemma DecodeAllAppend(decode: string -> Decoded, left: seq<string>, right: seq<string>)
    ensures DecodeAll(decode, left + right) == DecodeAll(decode, left) + DecodeAll(decode, right)
  {
  }

  lemma DataKeepsOrder(decode: string -> Decoded, state: ServerState, text: string, chunk: string)
    requires state.buffer == SplitFramedLines(text).rest
    requires InOrder(state, DecodeAll(decode, SplitFramedLines(text).lines))
    ensures var input := SplitFramedLines(text + chunk);
            DataStep(decode, state, chunk).buffer == input.rest &&
            InOrder(DataStep(decode, state, chunk), DecodeAll(decode, input.lines))
  {
    var lines := SplitFramedLines(text).lines;
    var framed := SplitFramedLines(state.buffer + chunk);
    OneMoreChunk(text, chunk);
    ReceiveAllKeepsOrder(state.(buffer := framed.rest), DecodeAll(decode, lines), DecodeAll(decode, framed.lines));
    DecodeAllAppend(decode, lines, framed.lines);
  }

  /** Over every interleaving of chunks and tool completions, and every way to cut the input: each
    * well-formed request outside the `notifications/` methods is answered once, in request order, up
    * to those still queued, and each malformed line draws one parse error. */
  lemma {:induction false} ResponsesFollowRequests(decode: string -> Decoded, events: seq<Event>)
    ensures var input := SplitFramedLines(Concat(Chunks(events)));
            Run(decode, events).buffer == input.rest &&
            InOrder(Run(decode, events), DecodeAll(decode, input.lines))
  {
    if events != [] {
      var earlier := events[..|events| - 1];
      var before := Run(decode, earlier);
      ResponsesFollowRequests(decode, earlier);
      match events[|events| - 1]
      case Settle(outcome) =>
        SettleKeepsOrder(before, DecodeAll(decode, SplitFramedLines(Concat(Chunks(earlier))).lines), outcome);
      case Data(chunk) =>
        DataKeepsOrder(decode, before, Concat(Chunks(earlier)), chunk);
        assert Chunks(events)[..|Chunks(events)| - 1] == Chunks(earlier);
    }
  }

  lemma TwoLinesReceived(decode: string -> Decoded, request: Request)
    requires decode("a") == Message(request) && decode("b") == Malformed
    ensures Run(decode, [Data("a\nb\n")]) == ServerState("", [Message(request)], [PARSE_ERROR])
  {
    SplitTwoLines();
    CleanTwoLines();
    var messages := [Message(request), Malformed];
    assert DecodeAll(decode, ["a", "b"]) == messages;
    assert messages[..1] == [Message(request)] && messages[..1][..0] == [];
    assert ReceiveAll(START, messages[..1]) == Receive(START, messages[0]);
    assert ReceiveAll(START, messages) == ServerState("", [Message(request)], [PARSE_ERROR]);
    assert "" + "a\nb\n" == "a\nb\n";
    var events := [Data("a\nb\n")];
    assert events[..0] == [] && Run(decode, []) == START;
  }

  lemma CleanTwoLines()
    ensures Clean(["a", "b", ""][..2]) == ["a", "b"]
  {
    assert Trim("a") == "a" && Trim("b") == "b";
    assert Clean(["b"]) == ["b"] && ["a", "b", ""][..2] == ["a", "b"] && ["a", "b"][1..] == ["b"];
  }

  /** A parse error is written at once, so it may overtake an earlier request that is still queued. */
  lemma ParseErrorOvertakesQueuedRequest(decode: string -> Decoded, request: Request, outcome: ToolOutcome)
    requires decode("a") == Message(request) && !IsNotification(request) && decode("b") == Malformed
    ensures var output := Run(decode, [Data("a\nb\n"), Settle(outcome)]).output;
            |output| == 2 && output[0] == PARSE_ERROR && AnswersRequest(output[1], request)
  {
    var events := [Data("a\nb\n"), Settle(outcome)];
    TwoLinesReceived(decode, request);
    assert events[..1] == [Data("a\nb\n")];
    HandlerNeverWritesParseError(request, outcome);
  }

  lemma SplitTwoLines()
    ensures Split("a\nb\n") == ["a", "b", ""]
  {
    JoinThenSplit(["a", "b", ""]);
    var last := ["a", "b", ""][1..];
    assert last == ["b", ""] && last[1..] == [""];
    assert Join(last) == "b\n";
    assert Join(["a", "b", ""]) == "a\nb\n";
  }
}
