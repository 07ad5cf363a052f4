/** What the translator says to each record and at the end of the stream, told from the
    history of records without its hidden state. */
module PiTold {
  import opened Common
  import opened PiEvents
  import opened PiProofs

  // Which outcome is retained

  /** The reasoning-only stop that no later run has superseded. */
  function LastLengthOnly(t: Tests, h: seq<Event>): (i: Option<nat>)
    ensures i.Some? ==> i.value < |h| && EndedLengthOnly(t, h[i.value])
    ensures i.Some? ==> forall j | i.value < j < |h| :: !Supersedes(t, h[j]) && !EndedLengthOnly(t, h[j])
    ensures i.None? ==> AllSuperseded(t, h)
    decreases |h|
  {
    if |h| == 0 then None
    else
      var n := |h| - 1;
      var before := LastLengthOnly(t, h[..n]);
      if EndedLengthOnly(t, h[n]) then Some(n)
      else if Supersedes(t, h[n]) then
        assert forall i | 0 <= i < n :: SupersededAfter(t, h, i);
        None
      else
        assert before.None? ==> AllSuperseded(t, h) by {
          if before.None? {
            StillSuperseded(t, h);
          }
        }
        before
  }

  lemma StillSuperseded(t: Tests, h: seq<Event>)
    requires |h| > 0 && AllSuperseded(t, h[..|h| - 1]) && !EndedLengthOnly(t, h[|h| - 1])
    ensures AllSuperseded(t, h)
  {
    var before := h[..|h| - 1];
    forall i | 0 <= i < |h| && EndedLengthOnly(t, h[i])
      ensures SupersededAfter(t, h, i)
    {
      assert EndedLengthOnly(t, before[i]) && SupersededAfter(t, before, i);
      var j :| i < j < |before| && Supersedes(t, before[j]);
      assert Supersedes(t, h[j]);
    }
  }

  /** The last record that decided an outcome. */
  function LastDecision(p: Option<string>, t: Tests, h: seq<Event>): (i: Option<nat>)
    ensures i.Some? ==> i.value < |h| && Decides(p, t, h, i.value) && forall j | i.value < j < |h| :: !Decides(p, t, h, j)
    ensures i.None? ==> forall j | 0 <= j < |h| :: !Decides(p, t, h, j)
    decreases |h|
  {
    if |h| == 0 then None
    else
      var n := |h| - 1;
      assert forall j | 0 <= j < n :: h[..n][..j] == h[..j];
      assert forall j | 0 <= j < n :: Decides(p, t, h[..n], j) <==> Decides(p, t, h, j);
      if Decides(p, t, h, n) then Some(n) else LastDecision(p, t, h[..n])
  }

  /** A reasoning-only stop wins until it is superseded, then the last decision. */
  function Retained(p: Option<string>, t: Tests, h: seq<Event>): Option<Outcome> {
    var stop, decision := LastLengthOnly(t, h), LastDecision(p, t, h);
    if stop.Some? then Some(ErrorOutcome(t.words.reasoningOnlyLength, SessionAt(p, h, stop.value)))
    else if decision.Some? then Decision(p, t, h, decision.value)
    else None
  }

  lemma RetainedIs(p: Option<string>, t: Tests, h: seq<Event>)
    requires !Done(p, t, h) && t.words.overflowFailure != ""
    ensures RetainedOutcome(Run(p, t, h)) == Retained(p, t, h)
  {
    var stop, decision := LastLengthOnly(t, h), LastDecision(p, t, h);
    if stop.Some? {
      LengthOnlyRetained(p, t, h, stop.value);
    } else {
      NoneRetained(p, t, h);
      if decision.Some? {
        LastDecisionPends(p, t, h, decision.value);
      } else {
        NothingDecided(p, t, h);
      }
    }
  }

  predicate HasText(t: Tests, o: Option<Outcome>) {
    o.Some? && NonEmptyText(t, Some(o.value.result)).Some?
  }

  // How a run ended

  /** The last message of an assistant; whatever follows it is somebody else's. */
  ghost predicate IsLastAssistant(ms: seq<AgentMessage>, i: nat) {
    i < |ms| && ms[i].isAssistant && forall j | i < j < |ms| :: !ms[j].isAssistant
  }

  /** It alone says whether the run failed or overflowed, and what its text is. */
  lemma {:induction false} LastAssistantDecides(ms: seq<AgentMessage>, i: nat)
    requires IsLastAssistant(ms, i)
    ensures var final := ExtractFinalAssistant(Some(ms));
      && final.isError == ms[i].stopReasonIsError && final.errorMessage == ms[i].errorMessage
      && final.text == if ms[i].content.Some? then JoinText(ms[i].content.value) else ""
    decreases |ms|
  {
    if i < |ms| - 1 {
      LastAssistantDecides(ms[..|ms| - 1], i);
    }
  }

  lemma {:induction false} NobodyDecides(ms: seq<AgentMessage>)
    requires forall j | 0 <= j < |ms| :: !ms[j].isAssistant
    ensures ExtractFinalAssistant(Some(ms)) == ExtractFinalAssistant(None)
    decreases |ms|
  {
    if |ms| > 0 {
      NobodyDecides(ms[..|ms| - 1]);
    }
  }

  /** The five ways in which a run ends, from its messages. */
  lemma RunEndsBy(t: Tests, e: Event, i: nat)
    requires e.messages.Some? && IsLastAssistant(e.messages.value, i)
    ensures var m, end := e.messages.value[i], EndOf(t, e);
      var overflow := m.errorMessage.Some? && t.isContextOverflow(m.errorMessage.value);
      var length := t.isReasoningOnlyLength(e.messages.value);
      var blank := t.trim(if m.content.Some? then JoinText(m.content.value) else "") == "";
      && (end == Overflowed <==> m.stopReasonIsError && overflow)
      && (end == Failed <==> m.stopReasonIsError && !overflow)
      && (end == LengthOnly <==> !m.stopReasonIsError && length)
      && (end == Visible <==> !m.stopReasonIsError && !length && !blank)
      && (end == Empty <==> !m.stopReasonIsError && !length && blank)
  {
    LastAssistantDecides(e.messages.value, i);
  }

  /** Without an assistant's message a run neither failed nor overflowed. */
  lemma RunEndsByNobody(t: Tests, e: Event)
    requires e.messages.None? || forall j | 0 <= j < |e.messages.value| :: !e.messages.value[j].isAssistant
    requires t.trim("") == ""
    ensures EndOf(t, e) == if e.messages.Some? && t.isReasoningOnlyLength(e.messages.value) then LengthOnly else Empty
  {
    if e.messages.Some? {
      NobodyDecides(e.messages.value);
    }
  }

  // The end of the stream

  /** A stream that ends before it is settled ends in an error: the retained one if that is an
      error with text, else that the process has gone, in the session known by then. */
  function EndResult(p: Option<string>, t: Tests, h: seq<Event>): (o: Outcome)
    ensures o.isError
  {
    var retained := Retained(p, t, h);
    if HasText(t, retained) && retained.value.isError then retained.value
    else
      var session := if retained.Some? && t.trim(retained.value.sessionId) != "" then Some(t.trim(retained.value.sessionId))
                     else Observed(p, h);
      Outcome(t.words.exitBeforeSettled, session.GetOr(""), true)
  }

  lemma EndOutcomeIsTold(p: Option<string>, t: Tests, h: seq<Event>)
    requires !Done(p, t, h) && t.words.overflowFailure != ""
    ensures EofOutcome(Run(p, t, h), t) == EndResult(p, t, h)
  {
    RetainedIs(p, t, h);
    ObservedIs(p, t, h);
  }

  // Handled prompts

  /** The reply that the awaited prompt was accepted. */
  predicate AcceptsPrompt(p: Option<string>, e: Event) {
    e.kind == Response && e.isPrompt && e.success == Some(true) && Truthy(p) && e.id == p
  }

  /** The last such reply says that the prompt was handled. */
  function PromptHandled(p: Option<string>, h: seq<Event>): bool
    decreases |h|
  {
    |h| > 0 && if AcceptsPrompt(p, h[|h| - 1]) then h[|h| - 1].handled else PromptHandled(p, h[..|h| - 1])
  }

  predicate OfLifecycle(e: Event) {
    e.kind == AgentStart || e.kind == AgentEnd || e.kind == AgentSettled
  }

  function SawLifecycle(h: seq<Event>): bool
    decreases |h|
  {
    |h| > 0 && (OfLifecycle(h[|h| - 1]) || SawLifecycle(h[..|h| - 1]))
  }

  /** A handled prompt that started nothing is answered with an empty result. */
  function HandledResult(p: Option<string>, h: seq<Event>): Option<Outcome> {
    if PromptHandled(p, h) && !SawLifecycle(h) then Some(Outcome("", Observed(p, h).GetOr(""), false)) else None
  }

  ghost predicate HandledAs(s: ParseState, handled: bool, lifecycle: bool) {
    s.promptHandled == handled && s.agentLifecycleObserved == lifecycle
  }

  lemma ReplyHandles(s: ParseState, t: Tests, e: Event)
    requires e.kind == Response && !s.terminalResultEmitted && !Parse(s, t, e).0.terminalResultEmitted
    ensures HandledAs(Parse(s, t, e).0, if AcceptsPrompt(s.expectedPromptId, e) then e.handled else s.promptHandled,
                      s.agentLifecycleObserved)
  {
  }

  lemma StepHandles(s: ParseState, t: Tests, e: Event)
    requires !s.terminalResultEmitted && !Parse(s, t, e).0.terminalResultEmitted
    ensures HandledAs(Parse(s, t, e).0, if AcceptsPrompt(s.expectedPromptId, e) then e.handled else s.promptHandled,
                      s.agentLifecycleObserved || OfLifecycle(e))
  {
    if e.kind == Response {
      ReplyHandles(s, t, e);
    } else if e.kind == AgentEnd {
      RunEndStep(s, t, e);
    } else {
      OthersHandleNothing(s, t, e);
    }
  }

  lemma OthersHandleNothing(s: ParseState, t: Tests, e: Event)
    requires e.kind != Response && e.kind != AgentEnd
    requires !s.terminalResultEmitted && !Parse(s, t, e).0.terminalResultEmitted
    ensures HandledAs(Parse(s, t, e).0, s.promptHandled, s.agentLifecycleObserved || OfLifecycle(e))
  {
  }

  lemma {:induction false} HandledIs(p: Option<string>, t: Tests, h: seq<Event>)
    requires !Done(p, t, h)
    ensures HandledAs(Run(p, t, h), PromptHandled(p, h), SawLifecycle(h))
    decreases |h|
  {
    if |h| > 0 {
      var n := |h| - 1;
      DoneStays(p, t, h, n);
      HandledIs(p, t, h[..n]);
      PromptIdStays(p, t, h[..n]);
      StepHandles(Run(p, t, h[..n]), t, h[n]);
    }
  }

  lemma HandledOutcomeIsTold(p: Option<string>, t: Tests, h: seq<Event>)
    requires !Done(p, t, h)
    ensures HandledOutcome(Run(p, t, h)) == HandledResult(p, h)
  {
    HandledIs(p, t, h);
    ObservedIs(p, t, h);
  }

  // Record by record

  /** Text or tools have come since the last run ended. */
  function Streamed(h: seq<Event>): bool
    decreases |h|
  {
    |h| > 0 && !RunEnded(h[|h| - 1]) && (IsContent(h[|h| - 1]) || Streamed(h[..|h| - 1]))
  }

  /** They had come before the last run ended. */
  function LastRunStreamed(h: seq<Event>): bool
    decreases |h|
  {
    |h| > 0 && if RunEnded(h[|h| - 1]) then Streamed(h[..|h| - 1]) else LastRunStreamed(h[..|h| - 1])
  }

  function Reset(reason: ResetReason): Option<Line> {
    Some(ResetResponseText(reason))
  }

  /** What is said when the agent has settled. */
  function SettledAs(p: Option<string>, t: Tests, h: seq<Event>): Outcome {
    if HasText(t, Retained(p, t, h)) then Retained(p, t, h).value
    else
      Outcome(if exists i | 0 <= i < |h| :: RunEnded(h[i]) then t.words.agentEndWithoutOutcome else t.words.settledWithoutOutcome,
              Observed(p, h).GetOr(""), true)
  }

  /** A reply rejects the prompt, but for being busy with one. */
  predicate RejectsPrompt(p: Option<string>, t: Tests, e: Event) {
    && e.kind == Response && e.isPrompt && e.success == Some(false) && !(Truthy(p) && e.id != p)
    && !(e.error.Some? && t.isAlreadyProcessing(e.error.value))
  }

  /** The line that a record brings, after a history without a result. */
  function LineFor(p: Option<string>, t: Tests, h: seq<Event>, e: Event): Option<Line>
    decreases |h|, 1
  {
    match e.kind
    case MessageUpdate => if Truthy(e.textDelta) then Some(TextDelta(e.textDelta.value)) else None
    case ToolExecutionStart => Some(ToolUse(e.toolName.GetOr("tool")))
    case AgentStart => if LastRunStreamed(h) && !WasReset(p, t, h) then Reset(QueuedContinuation) else None
    case AgentEnd => if Retries(t, e) then Reset(if EndOf(t, e) == Overflowed then OverflowRetry else AgentRetry) else None
    case AgentSettled => Some(Result(SettledAs(p, t, h)))
    case CompactionStart => if PendingOverflow(p, t, h).Some? && !WasReset(p, t, h) then Reset(OverflowRetry) else None
    case CompactionEnd =>
      if PendingOverflow(p, t, h).Some? && e.willRetry == Some(true) && !WasReset(p, t, h) then Reset(OverflowRetry) else None
    case Response =>
      if RejectsPrompt(p, t, e) then
        Some(Result(Outcome(NonEmptyText(t, e.error).GetOr(t.words.commandFailed), e.sessionId.GetOr(""), true)))
      else if Announces(p, e) then Some(Init(e.dataSessionId.value))
      else None
    case AutoRetry => Some(RateLimit(e.errorMessage.GetOr("")))
    case _ => None
  }

  /** What the last run streamed, or the one that has streamed since, was taken back. */
  function WasReset(p: Option<string>, t: Tests, h: seq<Event>): bool
    decreases |h|, 0
  {
    |h| > 0 &&
    var before, e := h[..|h| - 1], h[|h| - 1];
    IsReset(LineFor(p, t, before, e)) || (!RunEnded(e) && WasReset(p, t, before))
  }

  ghost predicate FlagsAs(s: ParseState, streamed: bool, lastRun: bool, wasReset: bool) {
    && s.currentRunHasStreamOutput == streamed && s.completedRunHasStreamOutput == lastRun
    && s.completedRunResetEmitted == wasReset
  }

  /** The state's share in a line, once the history has said what it is. */
  lemma LineIs(s: ParseState, t: Tests, e: Event)
    requires !s.terminalResultEmitted && e.kind != AgentSettled && e.kind != Response && e.kind != AgentEnd
    ensures Parse(s, t, e).1 == match e.kind
      case MessageUpdate => if Truthy(e.textDelta) then Some(TextDelta(e.textDelta.value)) else None
      case ToolExecutionStart => Some(ToolUse(e.toolName.GetOr("tool")))
      case AgentStart => if s.completedRunHasStreamOutput && !s.completedRunResetEmitted then Reset(QueuedContinuation) else None
      case CompactionStart =>
        if Truthy(s.pendingOverflowErrorMessage) && !s.completedRunResetEmitted then Reset(OverflowRetry) else None
      case CompactionEnd =>
        if Truthy(s.pendingOverflowErrorMessage) && e.willRetry == Some(true) && !s.completedRunResetEmitted
        then Reset(OverflowRetry) else None
      case AutoRetry => Some(RateLimit(e.errorMessage.GetOr("")))
      case _ => None
  {
  }

  lemma ReplyLineIs(s: ParseState, t: Tests, e: Event)
    requires !s.terminalResultEmitted && e.kind == Response
    ensures Parse(s, t, e).1
      == if RejectsPrompt(s.expectedPromptId, t, e) then
           Some(Result(Outcome(NonEmptyText(t, e.error).GetOr(t.words.commandFailed), e.sessionId.GetOr(""), true)))
         else if Announces(s.expectedPromptId, e) then Some(Init(e.dataSessionId.value))
         else None
  {
  }

  lemma SettledLineIs(p: Option<string>, t: Tests, h: seq<Event>, e: Event)
    requires !Done(p, t, h) && t.words.overflowFailure != "" && e.kind == AgentSettled
    ensures Parse(Run(p, t, h), t, e).1 == Some(Result(SettledAs(p, t, h)))
  {
    SettledLine(p, t, h, e);
    RetainedIs(p, t, h);
    SettlesByRetained(p, t, h, SawRunEnd(h));
  }

  /** Every record of a stream without a result so far brings exactly the line told. */
  lemma {:induction false} EveryLineIsTold(p: Option<string>, t: Tests, h: seq<Event>, e: Event)
    requires !Done(p, t, h) && t.words.overflowFailure != ""
    ensures FlagsAs(Run(p, t, h), Streamed(h), LastRunStreamed(h), WasReset(p, t, h))
    ensures Parse(Run(p, t, h), t, e).1 == LineFor(p, t, h, e)
    decreases |h|, 1
  {
    var s := Run(p, t, h);
    FlagsAreTold(p, t, h);
    match e.kind {
      case AgentSettled => SettledLineIs(p, t, h, e);
      case Response =>
        PromptIdStays(p, t, h);
        ReplyLineIs(s, t, e);
      case AgentEnd => RunEndStep(s, t, e);
      case _ =>
        OverflowTracked(p, t, h);
        LineIs(s, t, e);
    }
  }

  lemma {:induction false} FlagsAreTold(p: Option<string>, t: Tests, h: seq<Event>)
    requires !Done(p, t, h) && t.words.overflowFailure != ""
    ensures FlagsAs(Run(p, t, h), Streamed(h), LastRunStreamed(h), WasReset(p, t, h))
    decreases |h|, 0
  {
    if |h| > 0 {
      var n := |h| - 1;
      DoneStays(p, t, h, n);
      EveryLineIsTold(p, t, h[..n], h[n]);
      StepStreams(Run(p, t, h[..n]), t, h[n]);
    }
  }
}
