/** The translator and the stream reader as they run, each proved against the pure
    translation of the records it has read. */
module PiStream {
  import opened Common
  import opened Text
  import opened JsonlSplitter
  import opened PiEvents
  import opened PiProofs
  import opened PiTold

  class PiRpcParseState {
    var pendingOutcome: Option<Outcome>
    var pendingReasoningOnlyLengthOutcome: Option<Outcome>
    var agentEndObserved: bool
    var observedSessionId: Option<string>
    var terminalResultEmitted: bool
    var currentRunHasStreamOutput: bool
    var completedRunHasStreamOutput: bool
    var completedRunResetEmitted: bool
    var pendingOverflowErrorMessage: Option<string>
    var pendingOverflowSessionId: Option<string>
    const expectedPromptId: Option<string>
    var promptHandled: bool
    var agentLifecycleObserved: bool

    constructor (expectedPromptId: Option<string>)
      ensures View() == NewParseState(expectedPromptId)
    {
      pendingOutcome, pendingReasoningOnlyLengthOutcome := None, None;
      agentEndObserved, observedSessionId, terminalResultEmitted := false, None, false;
      currentRunHasStreamOutput, completedRunHasStreamOutput, completedRunResetEmitted := false, false, false;
      pendingOverflowErrorMessage, pendingOverflowSessionId := None, None;
      this.expectedPromptId, promptHandled, agentLifecycleObserved := expectedPromptId, false, false;
    }

    function View(): ParseState
      reads this
    {
      ParseState(pendingOutcome, pendingReasoningOnlyLengthOutcome, agentEndObserved, observedSessionId,
                 terminalResultEmitted, currentRunHasStreamOutput, completedRunHasStreamOutput, completedRunResetEmitted,
                 pendingOverflowErrorMessage, pendingOverflowSessionId, expectedPromptId, promptHandled, agentLifecycleObserved)
    }

    method ClearPendingOverflow()
      modifies this`pendingOverflowErrorMessage, this`pendingOverflowSessionId
      ensures pendingOverflowErrorMessage == None && pendingOverflowSessionId == None
    {
      pendingOverflowErrorMessage := None;
      pendingOverflowSessionId := None;
    }

    method RememberPendingOverflow(message: string, sessionId: Option<string>)
      modifies this`pendingOverflowErrorMessage, this`pendingOverflowSessionId
      ensures View() == PiEvents.RememberPendingOverflow(old(View()), message, sessionId)
    {
      if pendingOverflowErrorMessage.None? {
        pendingOverflowErrorMessage := Some(message);
      }
      if pendingOverflowSessionId.None? {
        pendingOverflowSessionId := Or(sessionId, observedSessionId);
      }
    }

    /** One result at most; it leaves nothing pending. */
    method EmitPiRpcResult(outcome: Outcome) returns (line: Option<Line>)
      modifies this
      ensures (View(), line) == EmitResult(old(View()), outcome)
    {
      if terminalResultEmitted {
        return None;
      }
      terminalResultEmitted := true;
      pendingOutcome, pendingReasoningOnlyLengthOutcome := None, None;
      currentRunHasStreamOutput, completedRunHasStreamOutput, completedRunResetEmitted := false, false, false;
      ClearPendingOverflow();
      line := Some(Result(outcome));
    }

    method MarkReset(reason: ResetReason) returns (line: Option<Line>)
      modifies this`completedRunResetEmitted
      ensures (View(), line) == MarkCompletedRunReset(old(View()), reason)
    {
      if completedRunResetEmitted {
        return None;
      }
      completedRunResetEmitted := true;
      line := Some(ResetResponseText(reason));
    }

    method RetainAgentEndOutcome(outcome: Option<Outcome>, replacing: bool)
      modifies this`pendingOutcome, this`pendingReasoningOnlyLengthOutcome, this`completedRunHasStreamOutput,
        this`currentRunHasStreamOutput, this`completedRunResetEmitted
      ensures pendingOutcome == outcome
      ensures pendingReasoningOnlyLengthOutcome == if replacing then None else old(pendingReasoningOnlyLengthOutcome)
      ensures completedRunHasStreamOutput == old(currentRunHasStreamOutput)
      ensures !currentRunHasStreamOutput && !completedRunResetEmitted
    {
      if replacing {
        pendingReasoningOnlyLengthOutcome := None;
      }
      pendingOutcome := outcome;
      completedRunHasStreamOutput := currentRunHasStreamOutput;
      currentRunHasStreamOutput := false;
      completedRunResetEmitted := false;
    }

    method RetryReset(e: Event, reason: ResetReason) returns (line: Option<Line>)
      requires !completedRunResetEmitted
      modifies this`completedRunResetEmitted
      ensures completedRunResetEmitted == (e.willRetry == Some(true))
      ensures line == if e.willRetry == Some(true) then Some(ResetResponseText(reason)) else None
    {
      if e.willRetry == Some(true) {
        line := MarkReset(reason);
      } else {
        line := None;
      }
    }

    method OnOverflow(t: Tests, e: Event) returns (line: Option<Line>)
      requires EndOf(t, e) == Overflowed
      modifies this
      ensures (View(), line) == AfterAgentEnd(old(View()), t, e)
    {
      agentLifecycleObserved, agentEndObserved := true, true;
      var text := OverflowText(t, e);
      RememberPendingOverflow(text, Or(e.sessionId, observedSessionId));
      var outcome := OverflowAwareError(View(), t, e.(errorMessage := Some(text)));
      RetainAgentEndOutcome(Some(outcome), true);
      line := RetryReset(e, OverflowRetry);
    }

    method OnFailure(t: Tests, e: Event) returns (line: Option<Line>)
      requires EndOf(t, e) == Failed
      modifies this
      ensures (View(), line) == AfterAgentEnd(old(View()), t, e)
    {
      var outcome := FailureOutcome(t, e);
      agentLifecycleObserved, agentEndObserved := true, true;
      ClearPendingOverflow();
      RetainAgentEndOutcome(Some(outcome), true);
      line := RetryReset(e, AgentRetry);
    }

    method FailureOutcome(t: Tests, e: Event) returns (outcome: Outcome)
      requires EndOf(t, e) == Failed
      ensures Some(outcome) == OutcomeAfterEnd(View(), t, e)
    {
      var text := NonEmptyText(t, ExtractFinalAssistant(e.messages).errorMessage).GetOr(t.words.agentFailure);
      outcome :=
        if Truthy(pendingOverflowErrorMessage) then OverflowAwareError(View(), t, e.(errorMessage := Some(text)))
        else ErrorOutcome(text, Or(e.sessionId, observedSessionId));
    }

    method OnAgentEnd(t: Tests, e: Event) returns (line: Option<Line>)
      modifies this
      ensures (View(), line) == AfterAgentEnd(old(View()), t, e)
    {
      match EndOf(t, e) {
        case Overflowed =>
          line := OnOverflow(t, e);
          return;
        case Failed =>
          line := OnFailure(t, e);
          return;
        case _ =>
      }
      agentLifecycleObserved, agentEndObserved := true, true;
      ClearPendingOverflow();
      var sessionId := Or(e.sessionId, observedSessionId);
      if EndOf(t, e) == LengthOnly {
        pendingReasoningOnlyLengthOutcome := Some(ErrorOutcome(t.words.reasoningOnlyLength, sessionId));
        RetainAgentEndOutcome(None, false);
        return None;
      }
      var text := ExtractFinalAssistant(e.messages).text;
      var visible := if EndOf(t, e) == Visible then Some(Outcome(text, sessionId.GetOr(""), false)) else None;
      RetainAgentEndOutcome(visible, visible.Some?);
      line := None;
    }

    method OnCompactionEnd(t: Tests, e: Event) returns (line: Option<Line>)
      modifies this
      ensures (View(), line) == AfterCompactionEnd(old(View()), t, e)
    {
      if !Truthy(pendingOverflowErrorMessage) {
        return None;
      }
      if e.willRetry == Some(true) {
        line := MarkReset(OverflowRetry);
        return;
      }
      if CompactionFailed(t, e) {
        pendingOutcome := Some(OverflowAwareError(View(), t, e));
        ClearPendingOverflow();
      }
      line := None;
    }

    method OnResponse(t: Tests, e: Event) returns (line: Option<Line>)
      modifies this
      ensures (View(), line) == AfterResponse(old(View()), t, e)
    {
      if e.isPrompt && Truthy(expectedPromptId) && e.id != expectedPromptId {
        return None;
      }
      if e.success == Some(false) {
        if !e.isPrompt || (e.error.Some? && t.isAlreadyProcessing(e.error.value)) {
          return None;
        }
        line := EmitPiRpcResult(ErrorOutcome(NonEmptyText(t, e.error).GetOr(t.words.commandFailed), e.sessionId));
        return;
      }
      if e.isPrompt && e.success == Some(true) && Truthy(expectedPromptId) {
        promptHandled := e.handled;
        return None;
      }
      if Truthy(e.dataSessionId) {
        observedSessionId := e.dataSessionId;
        return Some(Init(e.dataSessionId.value));
      }
      line := None;
    }

    method OnError(t: Tests, e: Event)
      modifies this
      ensures View() == AfterError(old(View()), t, e)
    {
      pendingOutcome := Some(
        if Truthy(pendingOverflowErrorMessage) then OverflowAwareError(View(), t, e)
        else ErrorOutcome(Or(e.errorMessage, e.message).GetOr(t.words.rpcError), Or(e.sessionId, observedSessionId)));
      ClearPendingOverflow();
    }

    method OnSettled(t: Tests) returns (line: Option<Line>)
      modifies this
      ensures var u := old(View()).(agentLifecycleObserved := true);
        (View(), line) == EmitResult(u, SettledOutcome(u, t))
    {
      agentLifecycleObserved := true;
      line := EmitPiRpcResult(SettledOutcome(View(), t));
    }

    method OnAgentStart() returns (line: Option<Line>)
      modifies this
      ensures var u := old(View()).(agentLifecycleObserved := true);
        (View(), line) == if u.completedRunHasStreamOutput then MarkCompletedRunReset(u, QueuedContinuation) else (u, None)
    {
      agentLifecycleObserved := true;
      if completedRunHasStreamOutput {
        line := MarkReset(QueuedContinuation);
      } else {
        line := None;
      }
    }

    method ParsePiEvent(t: Tests, e: Event) returns (line: Option<Line>)
      modifies this
      ensures (View(), line) == Parse(old(View()), t, e)
    {
      if terminalResultEmitted && IgnoredOnceDone(e.kind) {
        return None;
      }
      match e.kind {
        case MessageUpdate =>
          if Truthy(e.textDelta) {
            currentRunHasStreamOutput := true;
            return Some(TextDelta(e.textDelta.value));
          }
          line := None;
        case ToolExecutionStart =>
          currentRunHasStreamOutput := true;
          line := Some(ToolUse(e.toolName.GetOr("tool")));
        case AgentStart => line := OnAgentStart();
        case AgentEnd => line := OnAgentEnd(t, e);
        case AgentSettled => line := OnSettled(t);
        case CompactionStart =>
          if Truthy(pendingOverflowErrorMessage) {
            line := MarkReset(OverflowRetry);
          } else {
            line := None;
          }
        case CompactionEnd => line := OnCompactionEnd(t, e);
        case Response => line := OnResponse(t, e);
        case AutoRetry => line := Some(RateLimit(e.errorMessage.GetOr("")));
        case ErrorRecord =>
          OnError(t, e);
          line := None;
        case TurnEnd | SummarizationRetry | ExtensionUiRequest | OtherRecord => line := None;
      }
    }
  }

  // Reading

  function Flatten(bursts: seq<seq<string>>): seq<string>
    decreases |bursts|
  {
    if |bursts| == 0 then [] else Flatten(bursts[..|bursts| - 1]) + bursts[|bursts| - 1]
  }

  function Decoded(decode: string -> Option<Event>, records: seq<string>): seq<Event>
    decreases |records|
  {
    if |records| == 0 then []
    else
      var e := decode(records[|records| - 1]);
      Decoded(decode, records[..|records| - 1]) + if e.Some? then [e.value] else []
  }

  /** What the records seen so far come to. */
  ghost predicate Translated(p: Option<string>, t: Tests, h: seq<Event>, s: ParseState, lines: seq<Line>) {
    s == Run(p, t, h) && lines == LinesAfter(NewParseState(p), t, h)
  }

  /** The last of these records is the first to bring a result. */
  ghost predicate ResultIsLast(p: Option<string>, t: Tests, decode: string -> Option<Event>, seen: seq<string>) {
    |seen| > 0 && Done(p, t, Decoded(decode, seen)) && !Done(p, t, Decoded(decode, seen[..|seen| - 1]))
  }

  /** No result yet, or one just now. */
  ghost predicate Ended(s: ParseState, lines: seq<Line>) {
    if s.terminalResultEmitted then EndsInOneResult(lines) else NoResult(lines)
  }

  lemma OneMore(p: Option<string>, t: Tests, h: seq<Event>, e: Event)
    requires !Done(p, t, h)
    ensures var line := Parse(Run(p, t, h), t, e).1;
      var lines := LinesAfter(NewParseState(p), t, h);
      var more := if line.Some? then lines + [line.value] else lines;
      && Run(p, t, h + [e]) == Parse(Run(p, t, h), t, e).0
      && LinesAfter(NewParseState(p), t, h + [e]) == more
      && Ended(Run(p, t, h + [e]), more)
  {
    assert (h + [e])[..|h|] == h;
    NoResultBefore(p, t, h);
    ResultEndsStream(Run(p, t, h), t, e);
    var lines := LinesAfter(NewParseState(p), t, h);
    var line := Parse(Run(p, t, h), t, e).1;
    if IsResult(line) {
      assert (lines + [line.value])[..|lines|] == lines;
    }
  }

  lemma DecodedOneMore(decode: string -> Option<Event>, before: seq<string>, record: string)
    ensures Decoded(decode, before + [record])
      == Decoded(decode, before) + if decode(record).Some? then [decode(record).value] else []
  {
    assert (before + [record])[..|before|] == before;
  }

  /** One record: skipped if it cannot be decoded, else translated. */
  method ReadRecord(state: PiRpcParseState, t: Tests, decode: string -> Option<Event>, record: string,
                    sofar: seq<Line>, ghost before: seq<string>)
    returns (lines: seq<Line>)
    requires Translated(state.expectedPromptId, t, Decoded(decode, before), state.View(), sofar)
    requires !state.terminalResultEmitted
    modifies state
    ensures Translated(state.expectedPromptId, t, Decoded(decode, before + [record]), state.View(), lines)
    ensures Ended(state.View(), lines)
    ensures state.terminalResultEmitted ==> ResultIsLast(state.expectedPromptId, t, decode, before + [record])
  {
    assert (before + [record])[..|before|] == before;
    DecodedOneMore(decode, before, record);
    NoResultBefore(state.expectedPromptId, t, Decoded(decode, before));
    lines := sofar;
    var e := decode(record);
    if e.Some? {
      OneMore(state.expectedPromptId, t, Decoded(decode, before), e.value);
      var line := state.ParsePiEvent(t, e.value);
      if line.Some? {
        lines := lines + [line.value];
      }
    } else {
      assert Decoded(decode, before) + [] == Decoded(decode, before);
    }
  }

  /** Records one after the other, until one brings the result. */
  method ReadRecords(state: PiRpcParseState, t: Tests, decode: string -> Option<Event>, records: seq<string>,
                     sofar: seq<Line>, ghost before: seq<string>)
    returns (lines: seq<Line>, ghost n: nat)
    requires Translated(state.expectedPromptId, t, Decoded(decode, before), state.View(), sofar)
    requires !state.terminalResultEmitted && NoResult(sofar)
    modifies state
    ensures n <= |records|
    ensures Translated(state.expectedPromptId, t, Decoded(decode, before + records[..n]), state.View(), lines)
    ensures Ended(state.View(), lines) && (!state.terminalResultEmitted ==> n == |records|)
    ensures state.terminalResultEmitted ==> ResultIsLast(state.expectedPromptId, t, decode, before + records[..n])
  {
    lines := sofar;
    n := 0;
    assert before + records[..0] == before;
    var i := 0;
    while i < |records| && !state.terminalResultEmitted
      invariant n == i <= |records| && Ended(state.View(), lines)
      invariant Translated(state.expectedPromptId, t, Decoded(decode, before + records[..n]), state.View(), lines)
      invariant state.terminalResultEmitted ==> ResultIsLast(state.expectedPromptId, t, decode, before + records[..n])
    {
      assert before + records[..n] + [records[i]] == before + records[..n + 1];
      lines := ReadRecord(state, t, decode, records[i], lines, before + records[..n]);
      i, n := i + 1, n + 1;
    }
  }

  /** The complete records of a text come first among those of any longer one. */
  lemma CompleteComesFirst(a: string, b: string)
    ensures Complete(a) <= Records(a + b) && Complete(a) <= Complete(a + b)
  {
    CompleteAppend(a, b);
    var lines := RawLines(a + b);
    assert Complete(a + b) <= Records(a + b);
  }

  lemma {:induction false} ConcatConcat(a: seq<string>, b: seq<string>)
    ensures Concat(a + b) == Concat(a) + Concat(b)
    decreases |b|
  {
    if |b| == 0 {
      assert a + b == a;
    } else {
      assert (a + b)[..|a + b| - 1] == a + b[..|b| - 1];
      ConcatConcat(a, b[..|b| - 1]);
    }
  }

  method ReadChunk(splitter: NewlineOnlyJsonlSplitter, state: PiRpcParseState, t: Tests, decode: string -> Option<Event>,
                   chunk: string, sofar: seq<Line>)
    returns (lines: seq<Line>, ghost seen: seq<string>)
    requires splitter.Valid() && !state.terminalResultEmitted && NoResult(sofar)
    requires Translated(state.expectedPromptId, t, Decoded(decode, splitter.taken), state.View(), sofar)
    modifies splitter, state
    ensures splitter.Valid() && Ended(state.View(), lines) && splitter.text == old(splitter.text) + chunk
    ensures Translated(state.expectedPromptId, t, Decoded(decode, seen), state.View(), lines)
    ensures seen <= splitter.taken && (!state.terminalResultEmitted ==> seen == splitter.taken)
    ensures state.terminalResultEmitted ==> ResultIsLast(state.expectedPromptId, t, decode, seen)
  {
    ghost var before := splitter.taken;
    var records := splitter.Push(chunk);
    ghost var n;
    lines, n := ReadRecords(state, t, decode, records, sofar, before);
    seen := before + records[..n];
    assert records[..|records|] == records;
  }

  lemma OneMoreChunk(text: string, chunks: seq<string>, i: nat)
    requires i < |chunks|
    ensures (text + Concat(chunks[..i])) + chunks[i] == text + Concat(chunks[..i + 1])
  {
    assert chunks[..i + 1][..i] == chunks[..i];
  }

  lemma Assoc(a: string, b: string, c: string)
    ensures a + (b + c) == (a + b) + c
  {
  }

  lemma SeenOfMore(seen: seq<string>, text: string, a: seq<string>, b: seq<string>)
    requires seen <= Complete(text + Concat(a))
    ensures seen <= Complete(text + Concat(a + b))
  {
    ConcatConcat(a, b);
    Assoc(text, Concat(a), Concat(b));
    CompleteComesFirst(text + Concat(a), Concat(b));
  }

  lemma SeenOfAll(seen: seq<string>, text: string, chunks: seq<string>, i: nat)
    requires i <= |chunks| && seen <= Complete(text + Concat(chunks[..i]))
    ensures seen <= Complete(text + Concat(chunks))
    ensures i == |chunks| ==> Concat(chunks[..i]) == Concat(chunks)
  {
    SeenOfMore(seen, text, chunks[..i], chunks[i..]);
    TwoParts(chunks, i);
  }

  lemma TwoParts(chunks: seq<string>, i: nat)
    requires i <= |chunks|
    ensures chunks[..i] + chunks[i..] == chunks
    ensures i == |chunks| ==> chunks[..i] == chunks
  {
  }

  /** Reads what is available: all of it, or up to the record that ends the stream. */
  method ReadBurst(splitter: NewlineOnlyJsonlSplitter, state: PiRpcParseState, t: Tests, decode: string -> Option<Event>,
                   chunks: seq<string>, sofar: seq<Line>)
    returns (lines: seq<Line>, ghost seen: seq<string>)
    requires splitter.Valid() && !state.terminalResultEmitted && NoResult(sofar)
    requires Translated(state.expectedPromptId, t, Decoded(decode, splitter.taken), state.View(), sofar)
    modifies splitter, state
    ensures splitter.Valid() && Ended(state.View(), lines)
    ensures Translated(state.expectedPromptId, t, Decoded(decode, seen), state.View(), lines)
    ensures seen <= Complete(old(splitter.text) + Concat(chunks))
    ensures !state.terminalResultEmitted ==> splitter.text == old(splitter.text) + Concat(chunks) && seen == splitter.taken
    ensures state.terminalResultEmitted ==> ResultIsLast(state.expectedPromptId, t, decode, seen)
  {
    lines, seen := sofar, splitter.taken;
    ghost var text := splitter.text;
    var i := 0;
    while i < |chunks| && !state.terminalResultEmitted
      invariant i <= |chunks| && splitter.Valid() && splitter.text == text + Concat(chunks[..i])
      invariant seen <= splitter.taken && (!state.terminalResultEmitted ==> seen == splitter.taken)
      invariant Translated(state.expectedPromptId, t, Decoded(decode, seen), state.View(), lines)
      invariant Ended(state.View(), lines)
      invariant state.terminalResultEmitted ==> ResultIsLast(state.expectedPromptId, t, decode, seen)
    {
      OneMoreChunk(text, chunks, i);
      lines, seen := ReadChunk(splitter, state, t, decode, chunks[i], lines);
      i := i + 1;
    }
    SeenOfAll(seen, text, chunks, i);
  }

  /** The lines of what was seen, and then a result. */
  ghost predicate Concluded(p: Option<string>, t: Tests, h: seq<Event>, lines: seq<Line>, o: Outcome) {
    !Done(p, t, h) && lines == LinesAfter(NewParseState(p), t, h) + [Result(o)]
  }

  /** What a stream that ended is given as its result: that of a handled prompt, else the error
      that it ended. */
  ghost predicate AtEnd(p: Option<string>, t: Tests, h: seq<Event>, o: Outcome) {
    var end := HandledResult(p, h).GetOr(EofOutcome(Run(p, t, h), t));
    o == end && (t.words.overflowFailure != "" ==> o == HandledResult(p, h).GetOr(EndResult(p, t, h)))
  }

  /** Reading stopped at the first record with a result, or where a burst left no unfinished
      record and the prompt had been handled. */
  ghost predicate StopsMidway(p: Option<string>, t: Tests, decode: string -> Option<Event>, text: string,
                              lines: seq<Line>, seen: seq<string>) {
    var h := Decoded(decode, seen);
    if Done(p, t, h) then
      ResultIsLast(p, t, decode, seen) && seen <= Complete(text) && lines == LinesAfter(NewParseState(p), t, h)
    else
      && seen == Complete(text) && Unfinished(text) == "" && HandledResult(p, h).Some?
      && Concluded(p, t, h, lines, HandledResult(p, h).value)
  }

  /** Reading reached the end of the stream: what is left of the text is its last record. */
  ghost predicate StopsAtEnd(p: Option<string>, t: Tests, decode: string -> Option<Event>, text: string,
                             lines: seq<Line>, seen: seq<string>) {
    var h := Decoded(decode, seen);
    if Done(p, t, h) then
      ResultIsLast(p, t, decode, seen) && seen <= Records(text) && lines == LinesAfter(NewParseState(p), t, h)
    else
      && seen == Records(text) && |lines| > 0 && lines[|lines| - 1].Result?
      && AtEnd(p, t, h, lines[|lines| - 1].outcome) && Concluded(p, t, h, lines, lines[|lines| - 1].outcome)
  }

  /** After this much text, at the end of a burst, there is more to wait for. */
  ghost predicate GoesOn(p: Option<string>, t: Tests, decode: string -> Option<Event>, text: string) {
    var h := Decoded(decode, Complete(text));
    !Done(p, t, h) && (Unfinished(text) != "" || HandledResult(p, h).None?)
  }

  function TextOf(bursts: seq<seq<string>>, i: nat): string
    requires i <= |bursts|
  {
    Concat(Flatten(bursts[..i]))
  }

  ghost predicate AllGoOn(p: Option<string>, t: Tests, decode: string -> Option<Event>, bursts: seq<seq<string>>, read: nat)
    requires read <= |bursts|
  {
    forall i | 0 < i <= read :: GoesOn(p, t, decode, TextOf(bursts, i))
  }

  /** How the bursts of a stream were read: the first `read` of them to their end, and the
      next one, or the end of the stream, brought the result, unless the stream broke. */
  ghost predicate ReadAs(p: Option<string>, t: Tests, decode: string -> Option<Event>, bursts: seq<seq<string>>, broken: bool,
                         lines: seq<Line>, seen: seq<string>, read: nat) {
    && read <= |bursts| && AllGoOn(p, t, decode, bursts, read)
    && if read < |bursts| then StopsMidway(p, t, decode, TextOf(bursts, read + 1), lines, seen)
       else if broken then
         var text := TextOf(bursts, |bursts|);
         seen == Complete(text) && lines == LinesAfter(NewParseState(p), t, Decoded(decode, seen))
       else StopsAtEnd(p, t, decode, TextOf(bursts, |bursts|), lines, seen)
  }

  lemma StopsOnce(p: Option<string>, t: Tests, h: seq<Event>, lines: seq<Line>, o: Outcome)
    requires !Done(p, t, h) && lines == LinesAfter(NewParseState(p), t, h)
    ensures EndsInOneResult(lines + [Result(o)])
  {
    NoResultBefore(p, t, h);
    assert (lines + [Result(o)])[..|lines|] == lines;
  }

  method TakeHandled(state: PiRpcParseState) returns (line: Option<Line>)
    requires !state.terminalResultEmitted
    modifies state
    ensures HandledOutcome(old(state.View())).None? ==> line.None? && state.View() == old(state.View())
    ensures HandledOutcome(old(state.View())).Some? ==> line == Some(Result(HandledOutcome(old(state.View())).value))
  {
    var outcome := HandledOutcome(state.View());
    if outcome.None? {
      return None;
    }
    line := state.EmitPiRpcResult(outcome.value);
  }

  /** One burst, and then a prompt that was handled without starting anything. */
  method ReadAndCheck(splitter: NewlineOnlyJsonlSplitter, state: PiRpcParseState, t: Tests, decode: string -> Option<Event>,
                      chunks: seq<string>, sofar: seq<Line>)
    returns (lines: seq<Line>, stopped: bool, ghost seen: seq<string>)
    requires StillReading(splitter, state, t, decode, splitter.text, sofar, splitter.taken)
    modifies splitter, state
    ensures seen <= Complete(old(splitter.text) + Concat(chunks))
    ensures stopped ==>
      && EndsInOneResult(lines)
      && StopsMidway(state.expectedPromptId, t, decode, old(splitter.text) + Concat(chunks), lines, seen)
    ensures !stopped ==>
      && GoesOn(state.expectedPromptId, t, decode, splitter.text)
      && StillReading(splitter, state, t, decode, old(splitter.text) + Concat(chunks), lines, seen)
  {
    lines, seen := ReadBurst(splitter, state, t, decode, chunks, sofar);
    if state.terminalResultEmitted {
      return lines, true, seen;
    }
    HandledOutcomeIsTold(state.expectedPromptId, t, Decoded(decode, seen));
    if !splitter.HasPendingRecord() {
      var handled := TakeHandled(state);
      if handled.Some? {
        StopsOnce(state.expectedPromptId, t, Decoded(decode, seen), lines, handled.value.outcome);
        return lines + [handled.value], true, seen;
      }
    }
    stopped := false;
  }

  /** Reads bursts of chunks until a result, or to the end of the stream.  Exactly one
      result comes of it, as the last line, unless the stream itself breaks first. */
  method ReadPiStream(bursts: seq<seq<string>>, broken: bool, t: Tests, decode: string -> Option<Event>,
                      expectedPromptId: Option<string>)
    returns (lines: seq<Line>, ghost seen: seq<string>, ghost read: nat)
    ensures EndsInOneResult(lines) || (broken && NoResult(lines))
    ensures NoResult(lines) ==> read == |bursts|
    ensures seen <= Records(Concat(Flatten(bursts)))
    ensures ReadAs(expectedPromptId, t, decode, bursts, broken, lines, seen, read)
  {
    var splitter := new NewlineOnlyJsonlSplitter();
    var state := new PiRpcParseState(expectedPromptId);
    var stopped;
    lines, stopped, seen, read := ReadBursts(splitter, state, bursts, t, decode);
    SeenOfBursts(bursts, if stopped then read + 1 else read, seen);
    if stopped || broken {
      return;
    }
    assert bursts[..|bursts|] == bursts;
    lines, seen := FinishStream(splitter, state, t, decode, lines);
  }

  /** This text has been read to its end, without a result. */
  ghost predicate StillReading(splitter: NewlineOnlyJsonlSplitter, state: PiRpcParseState, t: Tests,
                               decode: string -> Option<Event>, text: string, lines: seq<Line>, seen: seq<string>)
    reads splitter, state
  {
    && splitter.Valid() && splitter.text == text && seen == splitter.taken
    && !state.terminalResultEmitted && NoResult(lines)
    && Translated(state.expectedPromptId, t, Decoded(decode, seen), state.View(), lines)
  }

  method ReadBursts(splitter: NewlineOnlyJsonlSplitter, state: PiRpcParseState, bursts: seq<seq<string>>, t: Tests,
                    decode: string -> Option<Event>)
    returns (lines: seq<Line>, stopped: bool, ghost seen: seq<string>, ghost read: nat)
    requires StillReading(splitter, state, t, decode, "", [], [])
    modifies splitter, state
    ensures read <= |bursts| && AllGoOn(state.expectedPromptId, t, decode, bursts, read)
    ensures stopped ==>
      && read < |bursts| && EndsInOneResult(lines)
      && StopsMidway(state.expectedPromptId, t, decode, TextOf(bursts, read + 1), lines, seen)
    ensures !stopped ==>
      read == |bursts| && StillReading(splitter, state, t, decode, TextOf(bursts, |bursts|), lines, seen)
  {
    lines, seen, read := [], [], 0;
    TextOfNone(bursts);
    var i := 0;
    while i < |bursts|
      invariant read == i <= |bursts| && AllGoOn(state.expectedPromptId, t, decode, bursts, read)
      invariant StillReading(splitter, state, t, decode, TextOf(bursts, i), lines, seen)
    {
      OneMoreBurst(bursts, i);
      lines, stopped, seen := ReadAndCheck(splitter, state, t, decode, bursts[i], lines);
      if stopped {
        return;
      }
      i, read := i + 1, read + 1;
    }
    stopped := false;
  }

  lemma TextOfNone(bursts: seq<seq<string>>)
    ensures TextOf(bursts, 0) == ""
  {
  }

  lemma OneMoreBurst(bursts: seq<seq<string>>, i: nat)
    requires i < |bursts|
    ensures TextOf(bursts, i + 1) == TextOf(bursts, i) + Concat(bursts[i])
  {
    assert bursts[..i + 1][..i] == bursts[..i];
    ConcatConcat(Flatten(bursts[..i]), bursts[i]);
  }

  /** The end of the stream: what is left of the text, then the outcome. */
  method FinishStream(splitter: NewlineOnlyJsonlSplitter, state: PiRpcParseState, t: Tests, decode: string -> Option<Event>,
                      sofar: seq<Line>)
    returns (lines: seq<Line>, ghost seen: seq<string>)
    requires splitter.Valid() && !state.terminalResultEmitted && NoResult(sofar)
    requires Translated(state.expectedPromptId, t, Decoded(decode, splitter.taken), state.View(), sofar)
    modifies splitter, state
    ensures EndsInOneResult(lines) && seen <= Records(old(splitter.text))
    ensures StopsAtEnd(state.expectedPromptId, t, decode, old(splitter.text), lines, seen)
  {
    ghost var before := splitter.taken;
    var last := splitter.End();
    ghost var n;
    lines, n := ReadRecords(state, t, decode, last, sofar, before);
    seen := before + last[..n];
    if state.terminalResultEmitted {
      return;
    }
    assert last[..n] == last;
    EndIsTold(state.expectedPromptId, t, Decoded(decode, seen));
    var line := TakeHandled(state);
    if line.None? {
      line := state.EmitPiRpcResult(EofOutcome(state.View(), t));
    }
    StopsOnce(state.expectedPromptId, t, Decoded(decode, seen), lines, line.value.outcome);
    lines := lines + [line.value];
  }

  lemma EndIsTold(p: Option<string>, t: Tests, h: seq<Event>)
    requires !Done(p, t, h)
    ensures AtEnd(p, t, h, HandledOutcome(Run(p, t, h)).GetOr(EofOutcome(Run(p, t, h), t)))
  {
    HandledOutcomeIsTold(p, t, h);
    if t.words.overflowFailure != "" {
      EndOutcomeIsTold(p, t, h);
    }
  }

  lemma SeenOfBursts(bursts: seq<seq<string>>, i: nat, seen: seq<string>)
    requires i <= |bursts| && seen <= Complete(TextOf(bursts, i))
    ensures seen <= Records(Concat(Flatten(bursts)))
  {
    CompleteComesFirst(Concat(Flatten(bursts[..i])), RestOf(bursts, i));
  }

  ghost function RestOf(bursts: seq<seq<string>>, i: nat): (rest: string)
    requires i <= |bursts|
    ensures Concat(Flatten(bursts)) == Concat(Flatten(bursts[..i])) + rest
    decreases |bursts|
  {
    if i == |bursts| then
      assert bursts[..i] == bursts;
      ""
    else
      var before := bursts[..|bursts| - 1];
      assert before[..i] == bursts[..i];
      ConcatConcat(Flatten(before), bursts[|bursts| - 1]);
      RestOf(before, i) + Concat(bursts[|bursts| - 1])
  }
}
