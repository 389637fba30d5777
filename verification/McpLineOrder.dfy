/** When the stdio server's output keeps the order of the lines it answers. A malformed line is answered at
  * once, a request when its turn comes.
  */
module McpLineOrder {
  import opened McpStdio
  import opened StdioFraming
  import opened Text
  import opened Wrappers

  predicate IsDue(decoded: Decoded) {
    decoded.Malformed? || (decoded.Message? && !IsNotification(decoded.request))
  }

  /** The decoded lines that a reply is due for, in order. */
  function Due(messages: seq<Decoded>): seq<Decoded> {
    if messages == [] then []
    else
      var before, last := Due(messages[..|messages| - 1]), messages[|messages| - 1];
      if IsDue(last) then before + [last] else before
  }

  /** A reply is one for a line: the parse error for a malformed one, an answer for a request. */
  ghost predicate Fits(reply: Reply, line: Decoded) {
    match line
    case Malformed => reply == PARSE_ERROR
    case Message(request) => AnswersRequest(reply, request)
    case Unusable => false
  }

  /** The replies are those of the lines they are due for, in the order of the lines. */
  ghost predicate InLineOrder(output: seq<Reply>, messages: seq<Decoded>) {
    |output| <= |Due(messages)| && forall k :: 0 <= k < |output| ==> Fits(output[k], Due(messages)[k])
  }

  // ---------------------------------------------------------------- what every step keeps

  /** Replies written and replies queued make up those due; malformed lines are never queued. */
  ghost predicate Conserved(state: ServerState, messages: seq<Decoded>) {
    && |state.output| + |Due(state.pending)| == |Due(messages)|
    && (forall line <- state.pending :: !line.Malformed?)
  }

  /** The output is in line order, and the lines whose replies are queued are those that come next. */
  ghost predicate Aligned(state: ServerState, messages: seq<Decoded>) {
    InLineOrder(state.output, messages) && Due(messages)[|state.output|..] == Due(state.pending)
  }

  /** Either a malformed line has overtaken a queued request, and the output is out of order for good, or
    * none has and it is aligned. */
  ghost predicate Tracks(state: ServerState, messages: seq<Decoded>, overtook: bool) {
    Conserved(state, messages) && if overtook then !InLineOrder(state.output, messages) else Aligned(state, messages)
  }

  lemma DueOneMore(messages: seq<Decoded>, line: Decoded)
    ensures Due(messages + [line]) == Due(messages) + if IsDue(line) then [line] else []
  {
    assert (messages + [line])[..|messages|] == messages;
  }

  lemma {:induction false} DueFromFront(messages: seq<Decoded>)
    requires messages != []
    ensures Due(messages) == (if IsDue(messages[0]) then [messages[0]] else []) + Due(messages[1..])
  {
    var n := |messages| - 1;
    if n > 0 {
      DueFromFront(messages[..n]);
      assert messages[1..][..n - 1] == messages[..n][1..];
    } else {
      assert messages[..0] == [];
    }
  }

  lemma {:induction false} DueIsOf(messages: seq<Decoded>)
    ensures forall line <- Due(messages) :: line in messages && IsDue(line)
  {
    if messages != [] {
      DueIsOf(messages[..|messages| - 1]);
    }
  }

  /** What is out of order stays so. */
  lemma StaysOutOfOrder(output: seq<Reply>, more: seq<Reply>, messages: seq<Decoded>, longer: seq<Decoded>)
    requires !InLineOrder(output, messages) && Due(messages) <= Due(longer) && |output| <= |Due(messages)| && output <= more
    ensures !InLineOrder(more, longer)
  {
    var k :| 0 <= k < |output| && !Fits(output[k], Due(messages)[k]);
    assert more[k] == output[k] && Due(longer)[k] == Due(messages)[k];
  }

  lemma QueuedIsTracked(state: ServerState, messages: seq<Decoded>, line: Decoded, overtook: bool)
    requires Tracks(state, messages, overtook) && !line.Malformed?
    ensures Tracks(Receive(state, line), messages + [line], overtook)
  {
    DueOneMore(messages, line);
    DueOneMore(state.pending, line);
    if overtook {
      StaysOutOfOrder(state.output, state.output, messages, messages + [line]);
    }
  }

  lemma MalformedIsTracked(state: ServerState, messages: seq<Decoded>, overtook: bool)
    requires Tracks(state, messages, overtook)
    ensures Tracks(Receive(state, Malformed), messages + [Malformed], overtook || Due(state.pending) != [])
  {
    var output, longer := state.output + [PARSE_ERROR], messages + [Malformed];
    DueOneMore(messages, Malformed);
    if overtook {
      StaysOutOfOrder(state.output, output, messages, longer);
    } else if Due(state.pending) != [] {
      var next := Due(state.pending)[0];
      DueIsOf(state.pending);
      assert next in Due(state.pending);
      assert Due(longer)[|state.output|] == Due(messages)[|state.output|..][0] == next;
      NoAnswerIsAParseError(next.request);
      assert output[|state.output|] == PARSE_ERROR;
      assert !Fits(output[|state.output|], Due(longer)[|state.output|]);
    }
  }

  lemma NoAnswerIsAParseError(request: Request)
    ensures !AnswersRequest(PARSE_ERROR, request)
  {
    if AnswersRequest(PARSE_ERROR, request) {
      var outcome :| HandleMcpRequestAsync(request, outcome) == Some(PARSE_ERROR);
      HandlerNeverWritesParseError(request, outcome);
    }
  }

  /** A malformed line among some that are received overtakes a queued request that is owed an answer. */
  predicate OvertakesAmong(state: ServerState, messages: seq<Decoded>) {
    messages != [] &&
    var earlier := messages[..|messages| - 1];
    OvertakesAmong(state, earlier) ||
    (messages[|messages| - 1].Malformed? && Due(ReceiveAll(state, earlier).pending) != [])
  }

  lemma {:induction false} ReceivedIsTracked(state: ServerState, messages: seq<Decoded>, more: seq<Decoded>, overtook: bool)
    requires Tracks(state, messages, overtook)
    ensures Tracks(ReceiveAll(state, more), messages + more, overtook || OvertakesAmong(state, more))
  {
    if more == [] {
      assert messages + more == messages;
    } else {
      var earlier, last := more[..|more| - 1], more[|more| - 1];
      var before := overtook || OvertakesAmong(state, earlier);
      ReceivedIsTracked(state, messages, earlier, overtook);
      assert messages + more == messages + earlier + [last];
      if last.Malformed? {
        MalformedIsTracked(ReceiveAll(state, earlier), messages + earlier, before);
      } else {
        QueuedIsTracked(ReceiveAll(state, earlier), messages + earlier, last, before);
      }
    }
  }

  lemma AnswerIsTracked(state: ServerState, messages: seq<Decoded>, line: Decoded, rest: seq<Decoded>, reply: Reply, overtook: bool)
    requires Tracks(state, messages, overtook) && state.pending == [line] + rest && IsDue(line) && Fits(reply, line)
    ensures Tracks(state.(pending := rest, output := state.output + [reply]), messages, overtook)
  {
    var n := |state.output|;
    DueFromFront(state.pending);
    assert state.pending[1..] == rest;
    if overtook {
      StaysOutOfOrder(state.output, state.output + [reply], messages, messages);
    } else {
      assert Due(messages)[n] == Due(messages)[n..][0] == line;
      assert Due(messages)[n + 1..] == Due(messages)[n..][1..] == Due(rest);
    }
  }

  lemma SettledIsTracked(state: ServerState, messages: seq<Decoded>, outcome: ToolOutcome, overtook: bool)
    requires Tracks(state, messages, overtook)
    ensures Tracks(SettleStep(state, outcome), messages, overtook)
  {
    if state.pending != [] {
      var head, rest := state.pending[0], state.pending[1..];
      assert state.pending == [head] + rest;
      DueFromFront(state.pending);
      assert head in state.pending;
      if head.Message? {
        HandlerNeverWritesParseError(head.request, outcome);
        var response := HandleMcpRequestAsync(head.request, outcome);
        if response.Some? {
          AnswerIsTracked(state, messages, head, rest, response.value, overtook);
        }
      }
    }
  }

  // ---------------------------------------------------------------- over every run

  /** In a run a malformed line has been received while a queued request was owed an answer. */
  predicate Overtook(decode: string -> Decoded, events: seq<Event>) {
    events != [] &&
    var earlier := events[..|events| - 1];
    var before := Run(decode, earlier);
    Overtook(decode, earlier) ||
    match events[|events| - 1]
    case Settle(_) => false
    case Data(chunk) =>
      var framed := SplitFramedLines(before.buffer + chunk);
      OvertakesAmong(before.(buffer := framed.rest), DecodeAll(decode, framed.lines))
  }

  function Received(decode: string -> Decoded, events: seq<Event>): seq<Decoded> {
    DecodeAll(decode, SplitFramedLines(Concat(Chunks(events))).lines)
  }

  lemma DataIsTracked(decode: string -> Decoded, state: ServerState, text: string, chunk: string, overtook: bool)
    requires state.buffer == SplitFramedLines(text).rest
    requires Tracks(state, DecodeAll(decode, SplitFramedLines(text).lines), overtook)
    ensures var framed := SplitFramedLines(state.buffer + chunk);
            Tracks(DataStep(decode, state, chunk), DecodeAll(decode, SplitFramedLines(text + chunk).lines),
                   overtook || OvertakesAmong(state.(buffer := framed.rest), DecodeAll(decode, framed.lines)))
  {
    var lines := SplitFramedLines(text).lines;
    var framed := SplitFramedLines(state.buffer + chunk);
    OneMoreChunk(text, chunk);
    ReceivedIsTracked(state.(buffer := framed.rest), DecodeAll(decode, lines), DecodeAll(decode, framed.lines), overtook);
    DecodeAllAppend(decode, lines, framed.lines);
  }

  lemma {:induction false} EveryRunIsTracked(decode: string -> Decoded, events: seq<Event>)
    ensures Tracks(Run(decode, events), Received(decode, events), Overtook(decode, events))
  {
    if events == [] {
      NothingReceived(decode);
    } else {
      var earlier := events[..|events| - 1];
      EveryRunIsTracked(decode, earlier);
      match events[|events| - 1]
      case Settle(outcome) => SettledIsTracked(Run(decode, earlier), Received(decode, earlier), outcome, Overtook(decode, earlier));
      case Data(chunk) =>
        ResponsesFollowRequests(decode, earlier);
        DataIsTracked(decode, Run(decode, earlier), Concat(Chunks(earlier)), chunk, Overtook(decode, earlier));
        assert Chunks(events)[..|Chunks(events)| - 1] == Chunks(earlier);
    }
  }

  lemma NothingReceived(decode: string -> Decoded)
    ensures Received(decode, []) == []
  {
    ResponsesFollowRequests(decode, []);
  }

  /** Over every interleaving of chunks and completions, and every way to cut the input, the whole output is
    * in the order of the lines exactly when no malformed line is received while a queued request is owed an
    * answer. */
  lemma LineOrderExactlyWhenNothingOvertakes(decode: string -> Decoded, events: seq<Event>)
    ensures InLineOrder(Run(decode, events).output, Received(decode, events)) <==> !Overtook(decode, events)
  {
    EveryRunIsTracked(decode, events);
  }
}
