/** What the stream says, told from the history of records alone. */
module PiProofs {
  import opened Common
  import opened PiEvents

  function Run(p: Option<string>, t: Tests, h: seq<Event>): ParseState {
    StateAfter(NewParseState(p), t, h)
  }

  predicate Done(p: Option<string>, t: Tests, h: seq<Event>) {
    Run(p, t, h).terminalResultEmitted
  }

  predicate IsResult(line: Option<Line>) {
    line.Some? && line.value.Result?
  }

  /** Records that touch only what the current run has streamed. */
  predicate Passing(kind: Kind) {
    !kind.AgentEnd? && !Deciding(kind)
  }

  predicate Deciding(kind: Kind) {
    kind.AgentSettled? || kind.CompactionEnd? || kind.Response? || kind.ErrorRecord?
  }

  /** What passing records leave alone. */
  ghost predicate SameOutcomes(s: ParseState, u: ParseState) {
    && u.pendingOutcome == s.pendingOutcome
    && u.pendingReasoningOnlyLengthOutcome == s.pendingReasoningOnlyLengthOutcome
    && u.pendingOverflowErrorMessage == s.pendingOverflowErrorMessage
    && u.pendingOverflowSessionId == s.pendingOverflowSessionId
    && u.agentEndObserved == s.agentEndObserved && u.observedSessionId == s.observedSessionId
    && u.terminalResultEmitted == s.terminalResultEmitted && u.expectedPromptId == s.expectedPromptId
  }

  lemma StreamStep(s: ParseState, t: Tests, e: Event)
    requires e.kind.MessageUpdate? || e.kind.ToolExecutionStart? || e.kind.AgentStart? || e.kind.CompactionStart?
    ensures SameOutcomes(s, Parse(s, t, e).0) && !IsResult(Parse(s, t, e).1)
  {
  }

  lemma IdleStep(s: ParseState, t: Tests, e: Event)
    requires e.kind.TurnEnd? || e.kind.SummarizationRetry? || e.kind.AutoRetry? || e.kind.ExtensionUiRequest? || e.kind.OtherRecord?
    ensures Parse(s, t, e).0 == s && !IsResult(Parse(s, t, e).1)
  {
  }

  /** A passing record changes no outcome and ends nothing. */
  lemma PassingStep(s: ParseState, t: Tests, e: Event)
    requires Passing(e.kind)
    ensures SameOutcomes(s, Parse(s, t, e).0) && !IsResult(Parse(s, t, e).1)
  {
    if e.kind.MessageUpdate? || e.kind.ToolExecutionStart? || e.kind.AgentStart? || e.kind.CompactionStart? {
      StreamStep(s, t, e);
    } else {
      IdleStep(s, t, e);
    }
  }

  /** Nor does the end of a run end the stream. */
  lemma RunEndStep(s: ParseState, t: Tests, e: Event)
    requires e.kind == AgentEnd && !s.terminalResultEmitted
    ensures Parse(s, t, e) == AfterAgentEnd(s, t, e)
  {
  }

  /** What a deciding record does beside deciding, while no result has come. */
  predicate BesideDeciding(s: ParseState, t: Tests, e: Event, u: ParseState, line: Option<Line>) {
    var ends := || e.kind == ErrorRecord
                || (e.kind == CompactionEnd && Truthy(s.pendingOverflowErrorMessage) && e.willRetry != Some(true) && CompactionFailed(t, e));
    && u.pendingReasoningOnlyLengthOutcome == s.pendingReasoningOnlyLengthOutcome
    && u.pendingOverflowErrorMessage == (if ends then None else s.pendingOverflowErrorMessage)
    && u.pendingOverflowSessionId == (if ends then None else s.pendingOverflowSessionId)
    && !IsContentLine(line)
    && u.completedRunHasStreamOutput == s.completedRunHasStreamOutput
    && u.currentRunHasStreamOutput == s.currentRunHasStreamOutput
    && u.completedRunResetEmitted == (s.completedRunResetEmitted || IsReset(line))
    && (IsReset(line) ==> !s.completedRunResetEmitted)
  }

  predicate DecidingEffect(s: ParseState, t: Tests, e: Event, u: ParseState, line: Option<Line>) {
    && u.expectedPromptId == s.expectedPromptId && u.agentEndObserved == s.agentEndObserved
    && u.observedSessionId == (if Announces(s.expectedPromptId, e) then e.dataSessionId else s.observedSessionId)
    && (!s.terminalResultEmitted ==> (u.terminalResultEmitted <==> IsResult(line)))
    && (!s.terminalResultEmitted && !u.terminalResultEmitted ==> BesideDeciding(s, t, e, u, line))
  }

  lemma SettlingStep(s: ParseState, t: Tests, e: Event)
    requires e.kind == AgentSettled
    ensures DecidingEffect(s, t, e, Parse(s, t, e).0, Parse(s, t, e).1)
  {
  }

  lemma CompactionStep(s: ParseState, t: Tests, e: Event)
    requires e.kind == CompactionEnd
    ensures DecidingEffect(s, t, e, Parse(s, t, e).0, Parse(s, t, e).1)
  {
  }

  lemma RefusalStep(s: ParseState, t: Tests, e: Event)
    requires e.kind == Response && e.success == Some(false)
    ensures DecidingEffect(s, t, e, Parse(s, t, e).0, Parse(s, t, e).1)
  {
  }

  /** A reply that is no refusal announces a session, or at most settles whether the prompt was
      handled. */
  lemma ReplyIs(s: ParseState, t: Tests, e: Event)
    requires e.kind == Response && e.success != Some(false)
    ensures var (u, line) := Parse(s, t, e);
      if Announces(s.expectedPromptId, e) then u == s.(observedSessionId := e.dataSessionId) && line == Some(Init(e.dataSessionId.value))
      else u == s.(promptHandled := u.promptHandled) && line.None?
  {
  }

  lemma AnnouncementEffect(s: ParseState, t: Tests, e: Event)
    requires e.kind == Response && Announces(s.expectedPromptId, e)
    ensures DecidingEffect(s, t, e, s.(observedSessionId := e.dataSessionId), Some(Init(e.dataSessionId.value)))
  {
  }

  lemma QuietEffect(s: ParseState, t: Tests, e: Event, handled: bool)
    requires e.kind == Response && !Announces(s.expectedPromptId, e)
    ensures DecidingEffect(s, t, e, s.(promptHandled := handled), None)
  {
  }

  lemma ReplyStep(s: ParseState, t: Tests, e: Event)
    requires e.kind == Response && e.success != Some(false)
    ensures DecidingEffect(s, t, e, Parse(s, t, e).0, Parse(s, t, e).1)
  {
    ReplyIs(s, t, e);
    if Announces(s.expectedPromptId, e) {
      AnnouncementEffect(s, t, e);
    } else {
      QuietEffect(s, t, e, Parse(s, t, e).0.promptHandled);
    }
  }

  lemma ErrorStep(s: ParseState, t: Tests, e: Event)
    requires e.kind == ErrorRecord
    ensures DecidingEffect(s, t, e, Parse(s, t, e).0, Parse(s, t, e).1)
  {
  }

  lemma DecidingStep(s: ParseState, t: Tests, e: Event)
    requires Deciding(e.kind)
    ensures DecidingEffect(s, t, e, Parse(s, t, e).0, Parse(s, t, e).1)
  {
    match e.kind
    case AgentSettled => SettlingStep(s, t, e);
    case CompactionEnd => CompactionStep(s, t, e);
    case Response =>
      if e.success == Some(false) {
        RefusalStep(s, t, e);
      } else {
        ReplyStep(s, t, e);
      }
    case ErrorRecord => ErrorStep(s, t, e);
  }

  lemma {:induction false} DoneStays(p: Option<string>, t: Tests, h: seq<Event>, n: nat)
    requires n <= |h| && !Done(p, t, h)
    ensures !Done(p, t, h[..n])
    decreases |h|
  {
    if n < |h| {
      var before := h[..|h| - 1];
      StepKeepsDone(Run(p, t, before), t, h[|h| - 1]);
      DoneStays(p, t, before, n);
      assert before[..n] == h[..n];
    } else {
      assert h[..n] == h;
    }
  }

  lemma StepKeepsDone(s: ParseState, t: Tests, e: Event)
    ensures s.terminalResultEmitted ==> Parse(s, t, e).0.terminalResultEmitted
  {
    if s.terminalResultEmitted {
      if Passing(e.kind) {
        PassingStep(s, t, e);
      }
    }
  }

  lemma StepKeepsPromptId(s: ParseState, t: Tests, e: Event)
    ensures Parse(s, t, e).0.expectedPromptId == s.expectedPromptId
  {
    if Passing(e.kind) {
      PassingStep(s, t, e);
    } else if Deciding(e.kind) {
      DecidingStep(s, t, e);
    }
  }

  lemma {:induction false} PromptIdStays(p: Option<string>, t: Tests, h: seq<Event>)
    ensures Run(p, t, h).expectedPromptId == p
    decreases |h|
  {
    if |h| > 0 {
      PromptIdStays(p, t, h[..|h| - 1]);
      StepKeepsPromptId(Run(p, t, h[..|h| - 1]), t, h[|h| - 1]);
    }
  }

  // Results

  ghost predicate NoResult(lines: seq<Line>) {
    forall i | 0 <= i < |lines| :: !lines[i].Result?
  }

  /** Exactly one result, and it is the last line. */
  ghost predicate EndsInOneResult(lines: seq<Line>) {
    |lines| > 0 && lines[|lines| - 1].Result? && NoResult(lines[..|lines| - 1])
  }

  /** A result line comes with the end of the stream, and only then. */
  lemma ResultEndsStream(s: ParseState, t: Tests, e: Event)
    requires !s.terminalResultEmitted
    ensures Parse(s, t, e).0.terminalResultEmitted <==> IsResult(Parse(s, t, e).1)
  {
    if Passing(e.kind) {
      PassingStep(s, t, e);
    } else if e.kind == AgentEnd {
      RunEndStep(s, t, e);
    } else {
      DecidingStep(s, t, e);
    }
  }

  lemma {:induction false} NoResultBefore(p: Option<string>, t: Tests, h: seq<Event>)
    requires !Done(p, t, h)
    ensures NoResult(LinesAfter(NewParseState(p), t, h))
    decreases |h|
  {
    if |h| > 0 {
      var before := h[..|h| - 1];
      DoneStays(p, t, h, |h| - 1);
      NoResultBefore(p, t, before);
      ResultEndsStream(Run(p, t, before), t, h[|h| - 1]);
    }
  }

  // Session IDs

  /** A reply that names the session. */
  predicate Announces(p: Option<string>, e: Event) {
    && e.kind == Response && Truthy(e.dataSessionId)
    && !(e.isPrompt && Truthy(p) && e.id != p)
    && e.success != Some(false)
    && !(e.isPrompt && e.success == Some(true) && Truthy(p))
  }

  function Observed(p: Option<string>, h: seq<Event>): Option<string>
    decreases |h|
  {
    if |h| == 0 then None
    else if Announces(p, h[|h| - 1]) then h[|h| - 1].dataSessionId
    else Observed(p, h[..|h| - 1])
  }

  lemma StepObserves(s: ParseState, t: Tests, e: Event)
    ensures Parse(s, t, e).0.observedSessionId
      == if Announces(s.expectedPromptId, e) then e.dataSessionId else s.observedSessionId
  {
    if Passing(e.kind) {
      PassingStep(s, t, e);
    } else if e.kind == AgentEnd {
      if !s.terminalResultEmitted {
        RunEndStep(s, t, e);
      }
    } else {
      DecidingStep(s, t, e);
    }
  }

  lemma {:induction false} ObservedIs(p: Option<string>, t: Tests, h: seq<Event>)
    ensures Run(p, t, h).observedSessionId == Observed(p, h)
    decreases |h|
  {
    if |h| > 0 {
      ObservedIs(p, t, h[..|h| - 1]);
      PromptIdStays(p, t, h[..|h| - 1]);
      StepObserves(Run(p, t, h[..|h| - 1]), t, h[|h| - 1]);
    }
  }

  function SessionAt(p: Option<string>, h: seq<Event>, i: nat): Option<string>
    requires i < |h|
  {
    Or(h[i].sessionId, Observed(p, h[..i]))
  }

  // Runs that ended

  predicate RunEnded(e: Event) {
    e.kind == AgentEnd
  }

  predicate EndedLengthOnly(t: Tests, e: Event) {
    RunEnded(e) && EndOf(t, e) == LengthOnly
  }

  /** A run that failed or showed text: it takes the place of a length-only outcome. */
  predicate Supersedes(t: Tests, e: Event) {
    RunEnded(e) && (EndOf(t, e).Overflowed? || EndOf(t, e).Failed? || EndOf(t, e).Visible?)
  }

  lemma StepLengthOnly(s: ParseState, t: Tests, e: Event)
    requires !s.terminalResultEmitted && !Parse(s, t, e).0.terminalResultEmitted
    ensures Parse(s, t, e).0.pendingReasoningOnlyLengthOutcome
      == if EndedLengthOnly(t, e) then Some(ErrorOutcome(t.words.reasoningOnlyLength, Or(e.sessionId, s.observedSessionId)))
         else if Supersedes(t, e) then None
         else s.pendingReasoningOnlyLengthOutcome
  {
    if Passing(e.kind) {
      PassingStep(s, t, e);
    } else if e.kind == AgentEnd {
      RunEndStep(s, t, e);
    } else {
      DecidingStep(s, t, e);
    }
  }

  /** The last length-only run is retained as long as no later run supersedes it. */
  lemma {:induction false} LengthOnlyRetained(p: Option<string>, t: Tests, h: seq<Event>, i: nat)
    requires !Done(p, t, h) && i < |h| && EndedLengthOnly(t, h[i])
    requires forall j | i < j < |h| :: !Supersedes(t, h[j]) && !EndedLengthOnly(t, h[j])
    ensures Run(p, t, h).pendingReasoningOnlyLengthOutcome == Some(ErrorOutcome(t.words.reasoningOnlyLength, SessionAt(p, h, i)))
    decreases |h|
  {
    var n := |h| - 1;
    DoneStays(p, t, h, n);
    ObservedIs(p, t, h[..n]);
    StepLengthOnly(Run(p, t, h[..n]), t, h[n]);
    if i < n {
      LengthOnlyRetained(p, t, h[..n], i);
      assert h[..n][..i] == h[..i];
    }
  }

  /** Some later run supersedes every length-only one. */
  ghost predicate AllSuperseded(t: Tests, h: seq<Event>) {
    forall i | 0 <= i < |h| && EndedLengthOnly(t, h[i]) :: SupersededAfter(t, h, i)
  }

  ghost predicate SupersededAfter(t: Tests, h: seq<Event>, i: nat) {
    exists j | i < j < |h| :: Supersedes(t, h[j])
  }

  lemma LastNotSuperseded(t: Tests, h: seq<Event>)
    requires |h| > 0 && AllSuperseded(t, h)
    ensures !EndedLengthOnly(t, h[|h| - 1])
  {
    var n := |h| - 1;
    assert !SupersededAfter(t, h, n);
  }

  lemma {:induction false} NoneRetained(p: Option<string>, t: Tests, h: seq<Event>)
    requires !Done(p, t, h) && AllSuperseded(t, h)
    ensures Run(p, t, h).pendingReasoningOnlyLengthOutcome == None
    decreases |h|
  {
    if |h| > 0 {
      var n := |h| - 1;
      DoneStays(p, t, h, n);
      StepLengthOnly(Run(p, t, h[..n]), t, h[n]);
      assert !EndedLengthOnly(t, h[n]) by {
        LastNotSuperseded(t, h);
      }
      if !Supersedes(t, h[n]) {
        forall i | 0 <= i < n && EndedLengthOnly(t, h[..n][i])
          ensures SupersededAfter(t, h[..n], i)
        {
          assert SupersededAfter(t, h, i);
          var j :| i < j < |h| && Supersedes(t, h[j]);
          assert Supersedes(t, h[..n][j]);
        }
        NoneRetained(p, t, h[..n]);
      }
    }
  }

  // Context overflow

  datatype Overflow = Overflow(message: string, sessionId: Option<string>)

  /** What ends an overflow that recovery was working on. */
  predicate EndsOverflow(t: Tests, e: Event) {
    || (RunEnded(e) && EndOf(t, e) != Overflowed)
    || e.kind == ErrorRecord
    || GaveUpCompacting(t, e)
  }

  /** A compaction that is not retried failed, was aborted, or has an error to tell. */
  predicate GaveUpCompacting(t: Tests, e: Event) {
    && e.kind == CompactionEnd && e.willRetry != Some(true)
    && (e.willRetry == Some(false) || e.success == Some(false) || e.aborted || OwnText(t, e).Some?)
  }

  /** The failed assistant message's words, if it has any. */
  function OverflowWords(t: Tests, e: Event): string {
    var words := ExtractFinalAssistant(e.messages).errorMessage;
    if words.Some? && t.trim(words.value) != "" then t.trim(words.value) else t.words.overflowFailure
  }

  predicate BeginsOverflow(t: Tests, e: Event) {
    RunEnded(e) && EndOf(t, e) == Overflowed
  }

  /** The first overflow since the last one ended; a later one only fills in a session ID. */
  function PendingOverflow(p: Option<string>, t: Tests, h: seq<Event>): Option<Overflow>
    decreases |h|
  {
    if |h| == 0 then None
    else
      var n := |h| - 1;
      OverflowAfter(t, h[n], PendingOverflow(p, t, h[..n]), SessionAt(p, h, n))
  }

  function OverflowAfter(t: Tests, e: Event, before: Option<Overflow>, session: Option<string>): Option<Overflow> {
    if EndsOverflow(t, e) then None
    else if !BeginsOverflow(t, e) then before
    else if before.Some? then Some(before.value.(sessionId := Or(before.value.sessionId, session)))
    else Some(Overflow(OverflowWords(t, e), session))
  }

  ghost predicate Tracks(s: ParseState, o: Option<Overflow>) {
    && s.pendingOverflowErrorMessage == (if o.Some? then Some(o.value.message) else None)
    && s.pendingOverflowSessionId == (if o.Some? then o.value.sessionId else None)
    && (o.Some? ==> o.value.message != "")
  }

  lemma RunEndTracksOverflow(s: ParseState, t: Tests, e: Event, o: Option<Overflow>)
    requires RunEnded(e) && Tracks(s, o) && t.words.overflowFailure != ""
    ensures Tracks(OverflowAfterEnd(s, t, e), OverflowAfter(t, e, o, Or(e.sessionId, s.observedSessionId)))
  {
    if BeginsOverflow(t, e) {
      assert OverflowWords(t, e) != "";
    }
  }

  lemma StepTracksOverflow(s: ParseState, t: Tests, e: Event, o: Option<Overflow>)
    requires !s.terminalResultEmitted && !Parse(s, t, e).0.terminalResultEmitted && Tracks(s, o) && t.words.overflowFailure != ""
    ensures Tracks(Parse(s, t, e).0, OverflowAfter(t, e, o, Or(e.sessionId, s.observedSessionId)))
  {
    if Passing(e.kind) {
      PassingStep(s, t, e);
    } else if e.kind == AgentEnd {
      RunEndStep(s, t, e);
      RunEndTracksOverflow(s, t, e, o);
    } else {
      DecidingStep(s, t, e);
    }
  }

  lemma {:induction false} OverflowTracked(p: Option<string>, t: Tests, h: seq<Event>)
    requires !Done(p, t, h) && t.words.overflowFailure != ""
    ensures Tracks(Run(p, t, h), PendingOverflow(p, t, h))
    decreases |h|
  {
    if |h| > 0 {
      var n := |h| - 1;
      DoneStays(p, t, h, n);
      OverflowTracked(p, t, h[..n]);
      ObservedIs(p, t, h[..n]);
      StepTracksOverflow(Run(p, t, h[..n]), t, h[n], PendingOverflow(p, t, h[..n]));
    }
  }

  // Outcomes

  /** A failure's own words, and the overflow it failed to recover from if they do not say it. */
  function FailureText(t: Tests, failure: Option<string>, o: Overflow): string {
    var overflow := NonEmptyText(t, Some(o.message));
    if failure.Some? && overflow.Some? && !Includes(failure.value, overflow.value)
    then failure.value + t.words.originalOverflow + overflow.value
    else Or(failure, overflow).GetOr(t.words.overflowFailure)
  }

  function OwnText(t: Tests, e: Event): Option<string> {
    Or(NonEmptyText(t, e.errorMessage), Or(NonEmptyText(t, e.error), NonEmptyText(t, e.message)))
  }

  function RecoveryFailure(p: Option<string>, t: Tests, h: seq<Event>, i: nat, own: Option<string>, o: Overflow): Outcome
    requires i < |h|
  {
    ErrorOutcome(FailureText(t, own, o), Or(h[i].sessionId, Or(o.sessionId, Observed(p, h[..i]))))
  }

  /** Record i decides the outcome so far. */
  predicate Decides(p: Option<string>, t: Tests, h: seq<Event>, i: nat)
    requires i < |h|
  {
    var e := h[i];
    || RunEnded(e)
    || e.kind == ErrorRecord
    || (GaveUpCompacting(t, e) && PendingOverflow(p, t, h[..i]).Some?)
  }

  /** A run's failure text comes before what else its record says. */
  function RunText(t: Tests, e: Event, text: string): Option<string> {
    OwnText(t, e.(errorMessage := Some(text)))
  }

  /** What a run's end decides on, given the overflow pending before and after it. */
  function RunDecision(p: Option<string>, t: Tests, h: seq<Event>, i: nat, before: Option<Overflow>, after: Option<Overflow>): Option<Outcome>
    requires i < |h|
  {
    var e := h[i];
    var final := ExtractFinalAssistant(e.messages);
    match EndOf(t, e)
    case Overflowed =>
      if after.Some? then Some(RecoveryFailure(p, t, h, i, RunText(t, e, OverflowWords(t, e)), after.value)) else None
    case Failed =>
      var text := NonEmptyText(t, final.errorMessage).GetOr(t.words.agentFailure);
      Some(if before.Some? then RecoveryFailure(p, t, h, i, RunText(t, e, text), before.value)
           else ErrorOutcome(text, SessionAt(p, h, i)))
    case Visible => Some(Outcome(final.text, SessionAt(p, h, i).GetOr(""), false))
    case LengthOnly => None
    case Empty => None
  }

  /** The outcome it decides on, if any. */
  function Decision(p: Option<string>, t: Tests, h: seq<Event>, i: nat): Option<Outcome>
    requires i < |h|
  {
    var e := h[i];
    var before := PendingOverflow(p, t, h[..i]);
    if RunEnded(e) then RunDecision(p, t, h, i, before, PendingOverflow(p, t, h[..i + 1]))
    else if before.Some? then Some(RecoveryFailure(p, t, h, i, OwnText(t, e), before.value))
    else Some(ErrorOutcome(Or(e.errorMessage, e.message).GetOr(t.words.rpcError), SessionAt(p, h, i)))
  }

  lemma StepDecides(s: ParseState, t: Tests, e: Event)
    requires !s.terminalResultEmitted && !Parse(s, t, e).0.terminalResultEmitted
    requires !RunEnded(e) && e.kind != ErrorRecord
    requires e.kind == CompactionEnd && e.willRetry != Some(true) && CompactionFailed(t, e) ==> !Truthy(s.pendingOverflowErrorMessage)
    ensures Parse(s, t, e).0.pendingOutcome == s.pendingOutcome
  {
  }

  lemma UndecidedStep(p: Option<string>, t: Tests, h: seq<Event>)
    requires !Done(p, t, h) && t.words.overflowFailure != "" && |h| > 0 && !Decides(p, t, h, |h| - 1)
    ensures Run(p, t, h).pendingOutcome == Run(p, t, h[..|h| - 1]).pendingOutcome
  {
    var n := |h| - 1;
    DoneStays(p, t, h, n);
    OverflowTracked(p, t, h[..n]);
    StepDecides(Run(p, t, h[..n]), t, h[n]);
  }

  lemma OverflowAwareIs(s: ParseState, t: Tests, e: Event, o: Overflow, observed: Option<string>)
    requires Tracks(s, Some(o)) && s.observedSessionId == observed
    ensures OverflowAwareError(s, t, e)
      == ErrorOutcome(FailureText(t, OwnText(t, e), o), Or(e.sessionId, Or(o.sessionId, observed)))
  {
  }

  lemma RunDecided(p: Option<string>, t: Tests, h: seq<Event>, i: nat, s: ParseState, before: Option<Overflow>, after: Option<Overflow>)
    requires i < |h| && RunEnded(h[i]) && Tracks(s, before) && s.observedSessionId == Observed(p, h[..i])
    requires EndOf(t, h[i]) == Overflowed ==> Tracks(OverflowAfterEnd(s, t, h[i]), after) && after.Some?
    ensures OutcomeAfterEnd(s, t, h[i]) == RunDecision(p, t, h, i, before, after)
  {
    var e := h[i];
    match EndOf(t, e) {
      case Overflowed =>
        OverflowAwareIs(OverflowAfterEnd(s, t, e), t, e.(errorMessage := Some(OverflowText(t, e))), after.value, s.observedSessionId);
      case Failed =>
        var text := NonEmptyText(t, ExtractFinalAssistant(e.messages).errorMessage).GetOr(t.words.agentFailure);
        if before.Some? {
          OverflowAwareIs(s, t, e.(errorMessage := Some(text)), before.value, s.observedSessionId);
        }
      case _ =>
    }
  }

  lemma ErrorDecided(s: ParseState, t: Tests, e: Event, before: Option<Overflow>)
    requires !s.terminalResultEmitted && Tracks(s, before)
    requires e.kind == ErrorRecord || (e.kind == CompactionEnd && e.willRetry != Some(true) && CompactionFailed(t, e) && before.Some?)
    ensures Parse(s, t, e).0.pendingOutcome
      == Some(if before.Some? then ErrorOutcome(FailureText(t, OwnText(t, e), before.value), Or(e.sessionId, Or(before.value.sessionId, s.observedSessionId)))
              else ErrorOutcome(Or(e.errorMessage, e.message).GetOr(t.words.rpcError), Or(e.sessionId, s.observedSessionId)))
  {
    if before.Some? {
      OverflowAwareIs(s, t, e, before.value, s.observedSessionId);
    }
  }

  /** What a deciding record decides on is its decision. */
  lemma DecidedStep(p: Option<string>, t: Tests, h: seq<Event>)
    requires !Done(p, t, h) && t.words.overflowFailure != "" && |h| > 0 && Decides(p, t, h, |h| - 1)
    ensures Run(p, t, h).pendingOutcome == Decision(p, t, h, |h| - 1)
  {
    var n := |h| - 1;
    var s, e := Run(p, t, h[..n]), h[n];
    DoneStays(p, t, h, n);
    OverflowTracked(p, t, h[..n]);
    ObservedIs(p, t, h[..n]);
    assert h[..n + 1] == h;
    if RunEnded(e) {
      OverflowTracked(p, t, h);
      RunEndStep(s, t, e);
      RunDecided(p, t, h, n, s, PendingOverflow(p, t, h[..n]), PendingOverflow(p, t, h));
    } else {
      ErrorDecided(s, t, e, PendingOverflow(p, t, h[..n]));
    }
  }

  /** The pending outcome is what the last deciding record decided. */
  lemma {:induction false} LastDecisionPends(p: Option<string>, t: Tests, h: seq<Event>, i: nat)
    requires !Done(p, t, h) && t.words.overflowFailure != "" && i < |h| && Decides(p, t, h, i)
    requires forall j | i < j < |h| :: !Decides(p, t, h, j)
    ensures Run(p, t, h).pendingOutcome == Decision(p, t, h, i)
    decreases |h|
  {
    var n := |h| - 1;
    if i < n {
      UndecidedStep(p, t, h);
      DoneStays(p, t, h, n);
      assert h[..n][..i] == h[..i] && h[..n][..i + 1] == h[..i + 1];
      forall j | i < j < n
        ensures !Decides(p, t, h[..n], j)
      {
        assert h[..n][..j] == h[..j];
        assert !Decides(p, t, h, j);
      }
      LastDecisionPends(p, t, h[..n], i);
    } else {
      DecidedStep(p, t, h);
    }
  }

  /** No decision pends if nothing decided. */
  lemma {:induction false} NothingDecided(p: Option<string>, t: Tests, h: seq<Event>)
    requires !Done(p, t, h) && t.words.overflowFailure != ""
    requires forall j | 0 <= j < |h| :: !Decides(p, t, h, j)
    ensures Run(p, t, h).pendingOutcome == None
    decreases |h|
  {
    if |h| > 0 {
      var n := |h| - 1;
      UndecidedStep(p, t, h);
      DoneStays(p, t, h, n);
      forall j | 0 <= j < n
        ensures !Decides(p, t, h[..n], j)
      {
        assert h[..n][..j] == h[..j];
        assert !Decides(p, t, h, j);
      }
      NothingDecided(p, t, h[..n]);
    }
  }

  // Settlement

  ghost predicate SawRunEnd(h: seq<Event>) {
    exists i | 0 <= i < |h| :: RunEnded(h[i])
  }

  lemma StepSeesRunEnd(s: ParseState, t: Tests, e: Event)
    requires !s.terminalResultEmitted
    ensures Parse(s, t, e).0.agentEndObserved == (s.agentEndObserved || RunEnded(e))
  {
    if Passing(e.kind) {
      PassingStep(s, t, e);
    } else if e.kind == AgentEnd {
      RunEndStep(s, t, e);
    } else {
      DecidingStep(s, t, e);
    }
  }

  lemma {:induction false} RunEndSeen(p: Option<string>, t: Tests, h: seq<Event>)
    requires !Done(p, t, h)
    ensures Run(p, t, h).agentEndObserved <==> SawRunEnd(h)
    decreases |h|
  {
    if |h| > 0 {
      var n := |h| - 1;
      DoneStays(p, t, h, n);
      RunEndSeen(p, t, h[..n]);
      StepSeesRunEnd(Run(p, t, h[..n]), t, h[n]);
      if SawRunEnd(h[..n]) {
        var i :| 0 <= i < n && RunEnded(h[..n][i]);
        assert RunEnded(h[i]);
      }
      if SawRunEnd(h) && !RunEnded(h[n]) {
        var i :| 0 <= i < |h| && RunEnded(h[i]);
        assert RunEnded(h[..n][i]);
      }
    }
  }

  /** What settlement says when the retained outcome is `retained`. */
  function Settles(p: Option<string>, t: Tests, h: seq<Event>, retained: Option<Outcome>, sawRunEnd: bool): Outcome {
    if retained.Some? && NonEmptyText(t, Some(retained.value.result)).Some? then retained.value
    else ErrorOutcome(if sawRunEnd then t.words.agentEndWithoutOutcome else t.words.settledWithoutOutcome, Observed(p, h))
  }

  /** The result line of an agent_settled record after this history. */
  function SettledResult(p: Option<string>, t: Tests, h: seq<Event>): Outcome {
    SettledOutcome(Run(p, t, h).(agentLifecycleObserved := true), t)
  }

  lemma SettledLine(p: Option<string>, t: Tests, h: seq<Event>, e: Event)
    requires !Done(p, t, h) && e.kind == AgentSettled
    ensures Parse(Run(p, t, h), t, e).1 == Some(Result(SettledResult(p, t, h)))
  {
  }

  lemma SettlesByRetained(p: Option<string>, t: Tests, h: seq<Event>, sawRunEnd: bool)
    requires !Done(p, t, h) && (sawRunEnd <==> SawRunEnd(h))
    ensures SettledResult(p, t, h) == Settles(p, t, h, RetainedOutcome(Run(p, t, h)), sawRunEnd)
  {
    RunEndSeen(p, t, h);
    ObservedIs(p, t, h);
  }

  /** The translator's own wording is usable wherever trimming leaves its message alone. */
  lemma WordingIsUsable(t: Tests)
    requires t.words == WORDING && t.trim(WORDING.reasoningOnlyLength) == WORDING.reasoningOnlyLength
    ensures t.words.overflowFailure != "" && NonEmptyText(t, Some(t.words.reasoningOnlyLength)).Some?
  {
    assert |WORDING.reasoningOnlyLength| > 0 && |WORDING.overflowFailure| > 0;
  }

  /** A reasoning-only length stop wins until a later run fails or shows text. */
  lemma SettledLengthOnly(p: Option<string>, t: Tests, h: seq<Event>, i: nat)
    requires !Done(p, t, h) && NonEmptyText(t, Some(t.words.reasoningOnlyLength)).Some?
    requires i < |h| && EndedLengthOnly(t, h[i])
    requires forall j | i < j < |h| :: !Supersedes(t, h[j]) && !EndedLengthOnly(t, h[j])
    ensures SettledResult(p, t, h) == ErrorOutcome(t.words.reasoningOnlyLength, SessionAt(p, h, i))
  {
    LengthOnlyRetained(p, t, h, i);
  }

  /** Otherwise the last deciding record's outcome wins; if there is none, or it is blank,
      one of two fixed errors. */
  lemma SettledLastDecision(p: Option<string>, t: Tests, h: seq<Event>, i: nat, sawRunEnd: bool)
    requires !Done(p, t, h) && t.words.overflowFailure != "" && AllSuperseded(t, h)
    requires i < |h| && Decides(p, t, h, i) && forall j | i < j < |h| :: !Decides(p, t, h, j)
    requires sawRunEnd <==> SawRunEnd(h)
    ensures SettledResult(p, t, h) == Settles(p, t, h, Decision(p, t, h, i), sawRunEnd)
  {
    NoneRetained(p, t, h);
    LastDecisionPends(p, t, h, i);
    SettlesByRetained(p, t, h, sawRunEnd);
  }

  /** Nothing decided, so no run ended: the error says so. */
  lemma SettledUndecided(p: Option<string>, t: Tests, h: seq<Event>)
    requires !Done(p, t, h) && t.words.overflowFailure != ""
    requires forall j | 0 <= j < |h| :: !Decides(p, t, h, j)
    ensures SettledResult(p, t, h) == ErrorOutcome(t.words.settledWithoutOutcome, Observed(p, h))
  {
    forall j | 0 <= j < |h|
      ensures !RunEnded(h[j])
    {
      assert !Decides(p, t, h, j);
    }
    NoneRetained(p, t, h);
    NothingDecided(p, t, h);
    SettlesByRetained(p, t, h, false);
  }

  // What one answer is made of

  predicate IsContent(e: Event) {
    (e.kind == MessageUpdate && Truthy(e.textDelta)) || e.kind == ToolExecutionStart
  }

  /** A run has started and not ended. */
  function InRun(h: seq<Event>): bool
    decreases |h|
  {
    |h| > 0 && (h[|h| - 1].kind == AgentStart || (h[|h| - 1].kind != AgentEnd && InRun(h[..|h| - 1])))
  }

  function RunNumber(h: seq<Event>): nat
    decreases |h|
  {
    if |h| == 0 then 0 else RunNumber(h[..|h| - 1]) + if h[|h| - 1].kind == AgentStart then 1 else 0
  }

  /** Runs do not overlap, and text and tools appear only within one. */
  predicate Bracketed(h: seq<Event>)
    decreases |h|
  {
    |h| > 0 ==>
      var before, e := h[..|h| - 1], h[|h| - 1];
      && Bracketed(before)
      && (IsContent(e) || e.kind == AgentEnd ==> InRun(before))
      && (e.kind == AgentStart ==> !InRun(before))
  }

  predicate IsReset(line: Option<Line>) {
    line.Some? && line.value.ResetResponseText?
  }

  predicate IsContentLine(line: Option<Line>) {
    line.Some? && (line.value.TextDelta? || line.value.ToolUse?)
  }

  /** For every content line since the last reset, the run it came from. */
  function Kept(p: Option<string>, t: Tests, h: seq<Event>): seq<nat>
    decreases |h|
  {
    if |h| == 0 then []
    else
      var before := h[..|h| - 1];
      var line := Parse(Run(p, t, before), t, h[|h| - 1]).1;
      if IsReset(line) then []
      else if IsContentLine(line) then Kept(p, t, before) + [RunNumber(before)]
      else Kept(p, t, before)
  }

  /** Reset lines since the last run ended, counting one that its end brings. */
  function Resets(p: Option<string>, t: Tests, h: seq<Event>): nat
    decreases |h|
  {
    if |h| == 0 then 0
    else
      var before := h[..|h| - 1];
      var line := Parse(Run(p, t, before), t, h[|h| - 1]).1;
      (if RunEnded(h[|h| - 1]) then 0 else Resets(p, t, before)) + if IsReset(line) then 1 else 0
  }

  ghost predicate AllOf(runs: seq<nat>, run: nat) {
    forall i | 0 <= i < |runs| :: runs[i] == run
  }

  ghost predicate KeptInv(s: ParseState, kept: seq<nat>, inRun: bool, run: nat) {
    && AllOf(kept, run)
    && (if inRun then !s.currentRunHasStreamOutput ==> kept == []
        else !s.currentRunHasStreamOutput && (!s.completedRunHasStreamOutput || s.completedRunResetEmitted ==> kept == []))
  }

  /** Effects on the three stream flags. */
  lemma StepStreams(s: ParseState, t: Tests, e: Event)
    requires !s.terminalResultEmitted && !Parse(s, t, e).0.terminalResultEmitted
    ensures var (u, line) := Parse(s, t, e);
      && (IsContentLine(line) <==> IsContent(e))
      && (if e.kind == AgentEnd then
            && u.completedRunHasStreamOutput == s.currentRunHasStreamOutput && !u.currentRunHasStreamOutput
            && (u.completedRunResetEmitted <==> IsReset(line))
          else
            && u.completedRunHasStreamOutput == s.completedRunHasStreamOutput
            && u.currentRunHasStreamOutput == (s.currentRunHasStreamOutput || IsContent(e))
            && u.completedRunResetEmitted == (s.completedRunResetEmitted || IsReset(line))
            && (IsReset(line) ==> !s.completedRunResetEmitted)
            && (e.kind == AgentStart ==> (IsReset(line) <==> s.completedRunHasStreamOutput && !s.completedRunResetEmitted)))
  {
    if Passing(e.kind) {
      StepStreamsPassing(s, t, e);
    } else if e.kind == AgentEnd {
      RunEndStep(s, t, e);
    } else {
      DecidingStep(s, t, e);
    }
  }

  lemma StepStreamsPassing(s: ParseState, t: Tests, e: Event)
    requires !s.terminalResultEmitted && Passing(e.kind)
    ensures var (u, line) := Parse(s, t, e);
      && (IsContentLine(line) <==> IsContent(e))
      && u.completedRunHasStreamOutput == s.completedRunHasStreamOutput
      && u.currentRunHasStreamOutput == (s.currentRunHasStreamOutput || IsContent(e))
      && u.completedRunResetEmitted == (s.completedRunResetEmitted || IsReset(line))
      && (IsReset(line) ==> !s.completedRunResetEmitted)
      && (e.kind == AgentStart ==> (IsReset(line) <==> s.completedRunHasStreamOutput && !s.completedRunResetEmitted))
  {
  }

  lemma {:induction false} KeptInvHolds(p: Option<string>, t: Tests, h: seq<Event>)
    requires !Done(p, t, h) && Bracketed(h)
    ensures KeptInv(Run(p, t, h), Kept(p, t, h), InRun(h), RunNumber(h))
    decreases |h|
  {
    if |h| > 0 {
      var n := |h| - 1;
      DoneStays(p, t, h, n);
      KeptInvHolds(p, t, h[..n]);
      StepStreams(Run(p, t, h[..n]), t, h[n]);
    }
  }

  /** Everything forwarded since the last reset comes from one run. */
  lemma AnswerIsOneRun(p: Option<string>, t: Tests, h: seq<Event>, i: nat, j: nat)
    requires !Done(p, t, h) && Bracketed(h) && i < |Kept(p, t, h)| && j < |Kept(p, t, h)|
    ensures Kept(p, t, h)[i] == Kept(p, t, h)[j]
  {
    KeptInvHolds(p, t, h);
  }

  /** At most one reset between two ends of runs. */
  lemma {:induction false} AtMostOneReset(p: Option<string>, t: Tests, h: seq<Event>)
    requires !Done(p, t, h)
    ensures Resets(p, t, h) == if Run(p, t, h).completedRunResetEmitted then 1 else 0
    decreases |h|
  {
    if |h| > 0 {
      var n := |h| - 1;
      DoneStays(p, t, h, n);
      AtMostOneReset(p, t, h[..n]);
      StepStreams(Run(p, t, h[..n]), t, h[n]);
    }
  }
}
