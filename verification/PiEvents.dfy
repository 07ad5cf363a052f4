/** Pi's RPC records, and what the translator's hidden state does with each. */
module PiEvents {
  import opened Common

  datatype Block = Text(text: string) | OtherBlock

  /** A message of a finished run; only an assistant's counts. */
  datatype AgentMessage = AgentMessage(
    isAssistant: bool, content: Option<seq<Block>>, stopReasonIsError: bool, errorMessage: Option<string>)

  datatype Kind =
    | MessageUpdate | ToolExecutionStart | TurnEnd | AgentStart | AgentEnd | AgentSettled
    | CompactionStart | CompactionEnd | SummarizationRetry | Response | AutoRetry | ErrorRecord
    | ExtensionUiRequest | OtherRecord

  /** One decoded record with the fields that the translator reads; None where a field is
      absent or not a string. */
  datatype Event = Event(
    kind: Kind,
    sessionId: Option<string>,
    errorMessage: Option<string>, error: Option<string>, message: Option<string>,
    willRetry: Option<bool>, success: Option<bool>, aborted: bool,
    messages: Option<seq<AgentMessage>>,
    textDelta: Option<string>, toolName: Option<string>,
    isPrompt: bool, id: Option<string>,
    dataSessionId: Option<string>, handled: bool)

  datatype Outcome = Outcome(result: string, sessionId: string, isError: bool)

  datatype ResetReason = OverflowRetry | AgentRetry | QueuedContinuation

  datatype Line =
    | TextDelta(text: string)
    | ToolUse(name: string)
    | ResetResponseText(reason: ResetReason)
    | Init(sessionId: string)
    | RateLimit(errorMessage: string)
    | Result(outcome: Outcome)

  /** The translator's own messages. */
  datatype Wording = Wording(
    agentFailure: string, overflowFailure: string, originalOverflow: string,
    settledWithoutOutcome: string, agentEndWithoutOutcome: string, reasoningOnlyLength: string,
    exitBeforeSettled: string, commandFailed: string, rpcError: string)

  const WORDING := Wording(
    "Pi RPC agent failed",
    "Pi RPC context overflow recovery failed",
    "; original overflow: ",
    "Pi agent_settled arrived without a usable agent_end outcome",
    "Pi agent_end arrived without a usable terminal outcome",
    "Pi response hit the length limit before producing visible text and could not continue after compaction",
    "Pi subprocess exited before agent_settled",
    "Pi RPC command failed",
    "Pi RPC error")

  /** The wording, and text functions that lie outside this model. */
  datatype Tests = Tests(
    words: Wording,
    trim: string -> string,
    isContextOverflow: string -> bool,
    isAlreadyProcessing: string -> bool,
    isReasoningOnlyLength: seq<AgentMessage> -> bool)

  datatype ParseState = ParseState(
    pendingOutcome: Option<Outcome>,
    pendingReasoningOnlyLengthOutcome: Option<Outcome>,
    agentEndObserved: bool,
    observedSessionId: Option<string>,
    terminalResultEmitted: bool,
    currentRunHasStreamOutput: bool,
    completedRunHasStreamOutput: bool,
    completedRunResetEmitted: bool,
    pendingOverflowErrorMessage: Option<string>,
    pendingOverflowSessionId: Option<string>,
    expectedPromptId: Option<string>,
    promptHandled: bool,
    agentLifecycleObserved: bool)

  function NewParseState(expectedPromptId: Option<string>): ParseState {
    ParseState(None, None, false, None, false, false, false, false, None, None, expectedPromptId, false, false)
  }

  // Text

  /** The trimmed text, unless there is none left. */
  function NonEmptyText(t: Tests, value: Option<string>): Option<string> {
    if value.Some? && t.trim(value.value) != "" then Some(t.trim(value.value)) else None
  }

  function Or<T>(a: Option<T>, b: Option<T>): Option<T> {
    if a.Some? then a else b
  }

  predicate Includes(s: string, t: string) {
    exists i | 0 <= i <= |s| - |t| :: FoundAt(s, t, i)
  }

  predicate FoundAt(s: string, t: string, i: nat) {
    i + |t| <= |s| && s[i..i + |t|] == t
  }

  /** What JavaScript takes for true. */
  predicate Truthy(value: Option<string>) {
    value.Some? && value.value != ""
  }

  // The final assistant message

  function JoinText(blocks: seq<Block>): string {
    if |blocks| == 0 then ""
    else (match blocks[0] case Text(text) => text case OtherBlock => "") + JoinText(blocks[1..])
  }

  datatype FinalAssistant = FinalAssistant(text: string, isError: bool, errorMessage: Option<string>)

  const NO_ASSISTANT := FinalAssistant("", false, None)

  function LastAssistant(ms: seq<AgentMessage>): FinalAssistant
    decreases |ms|
  {
    if |ms| == 0 then NO_ASSISTANT
    else
      var m := ms[|ms| - 1];
      if m.isAssistant then
        FinalAssistant(if m.content.Some? then JoinText(m.content.value) else "", m.stopReasonIsError, m.errorMessage)
      else LastAssistant(ms[..|ms| - 1])
  }

  function ExtractFinalAssistant(messages: Option<seq<AgentMessage>>): FinalAssistant {
    if messages.None? then NO_ASSISTANT else LastAssistant(messages.value)
  }

  // Steps of the state

  function ErrorOutcome(message: string, sessionId: Option<string>): Outcome {
    Outcome(message, sessionId.GetOr(""), true)
  }

  function ClearPendingOverflow(s: ParseState): ParseState {
    s.(pendingOverflowErrorMessage := None, pendingOverflowSessionId := None)
  }

  function OverflowAwareError(s: ParseState, t: Tests, e: Event): Outcome {
    var failure := Or(NonEmptyText(t, e.errorMessage), Or(NonEmptyText(t, e.error), NonEmptyText(t, e.message)));
    var overflow := NonEmptyText(t, s.pendingOverflowErrorMessage);
    var text :=
      if failure.Some? && overflow.Some? && !Includes(failure.value, overflow.value)
      then failure.value + t.words.originalOverflow + overflow.value
      else Or(failure, overflow).GetOr(t.words.overflowFailure);
    ErrorOutcome(text, Or(e.sessionId, Or(s.pendingOverflowSessionId, s.observedSessionId)))
  }

  function RememberPendingOverflow(s: ParseState, message: string, sessionId: Option<string>): ParseState {
    s.(pendingOverflowErrorMessage := Or(s.pendingOverflowErrorMessage, Some(message)),
       pendingOverflowSessionId := Or(s.pendingOverflowSessionId, Or(sessionId, s.observedSessionId)))
  }

  function EmitResult(s: ParseState, outcome: Outcome): (ParseState, Option<Line>) {
    if s.terminalResultEmitted then (s, None)
    else
      (ClearPendingOverflow(
         s.(terminalResultEmitted := true, pendingOutcome := None, pendingReasoningOnlyLengthOutcome := None,
            currentRunHasStreamOutput := false, completedRunHasStreamOutput := false, completedRunResetEmitted := false)),
       Some(Result(outcome)))
  }

  function RetainedOutcome(s: ParseState): Option<Outcome> {
    Or(s.pendingReasoningOnlyLengthOutcome, s.pendingOutcome)
  }

  function SettledOutcome(s: ParseState, t: Tests): Outcome {
    var outcome := RetainedOutcome(s);
    if outcome.Some? && NonEmptyText(t, Some(outcome.value.result)).Some? then outcome.value
    else ErrorOutcome(if s.agentEndObserved then t.words.agentEndWithoutOutcome else t.words.settledWithoutOutcome, s.observedSessionId)
  }

  function EofOutcome(s: ParseState, t: Tests): Outcome {
    var outcome := RetainedOutcome(s);
    if outcome.Some? && outcome.value.isError && NonEmptyText(t, Some(outcome.value.result)).Some? then outcome.value
    else
      ErrorOutcome(t.words.exitBeforeSettled,
                   Or(if outcome.Some? then NonEmptyText(t, Some(outcome.value.sessionId)) else None, s.observedSessionId))
  }

  function MarkCompletedRunReset(s: ParseState, reason: ResetReason): (ParseState, Option<Line>) {
    if s.completedRunResetEmitted then (s, None)
    else (s.(completedRunResetEmitted := true), Some(ResetResponseText(reason)))
  }

  // Events

  datatype RunEnd = Overflowed | Failed | LengthOnly | Visible | Empty

  /** How a low-level run ended. */
  function EndOf(t: Tests, e: Event): RunEnd {
    var final := ExtractFinalAssistant(e.messages);
    if final.isError then
      if final.errorMessage.Some? && t.isContextOverflow(final.errorMessage.value) then Overflowed else Failed
    else if e.messages.Some? && t.isReasoningOnlyLength(e.messages.value) then LengthOnly
    else if t.trim(final.text) != "" then Visible
    else Empty
  }

  /** A failed run that Pi says it will retry; what it streamed is taken back. */
  predicate Retries(t: Tests, e: Event) {
    (EndOf(t, e).Overflowed? || EndOf(t, e).Failed?) && e.willRetry == Some(true)
  }

  function OverflowText(t: Tests, e: Event): string {
    NonEmptyText(t, ExtractFinalAssistant(e.messages).errorMessage).GetOr(t.words.overflowFailure)
  }

  /** An overflow is remembered, or the run ends what was pending. */
  function OverflowAfterEnd(s: ParseState, t: Tests, e: Event): ParseState {
    if EndOf(t, e) == Overflowed then RememberPendingOverflow(s, OverflowText(t, e), Or(e.sessionId, s.observedSessionId))
    else ClearPendingOverflow(s)
  }

  function LengthOutcomeAfterEnd(s: ParseState, t: Tests, e: Event): Option<Outcome> {
    match EndOf(t, e)
    case LengthOnly => Some(ErrorOutcome(t.words.reasoningOnlyLength, Or(e.sessionId, s.observedSessionId)))
    case Empty => s.pendingReasoningOnlyLengthOutcome
    case _ => None
  }

  function OutcomeAfterEnd(s: ParseState, t: Tests, e: Event): Option<Outcome> {
    var final := ExtractFinalAssistant(e.messages);
    var sessionId := Or(e.sessionId, s.observedSessionId);
    match EndOf(t, e)
    case Overflowed =>
      Some(OverflowAwareError(OverflowAfterEnd(s, t, e), t, e.(errorMessage := Some(OverflowText(t, e)))))
    case Failed =>
      var message := NonEmptyText(t, final.errorMessage).GetOr(t.words.agentFailure);
      if Truthy(s.pendingOverflowErrorMessage) then Some(OverflowAwareError(s, t, e.(errorMessage := Some(message))))
      else Some(ErrorOutcome(message, sessionId))
    case Visible => Some(Outcome(final.text, sessionId.GetOr(""), false))
    case _ => None
  }

  function AfterAgentEnd(s: ParseState, t: Tests, e: Event): (ParseState, Option<Line>) {
    var o := OverflowAfterEnd(s, t, e);
    (s.(agentLifecycleObserved := true, agentEndObserved := true,
        pendingOverflowErrorMessage := o.pendingOverflowErrorMessage,
        pendingOverflowSessionId := o.pendingOverflowSessionId,
        pendingReasoningOnlyLengthOutcome := LengthOutcomeAfterEnd(s, t, e),
        pendingOutcome := OutcomeAfterEnd(s, t, e),
        completedRunHasStreamOutput := s.currentRunHasStreamOutput,
        currentRunHasStreamOutput := false,
        completedRunResetEmitted := Retries(t, e)),
     if Retries(t, e) then Some(ResetResponseText(if EndOf(t, e) == Overflowed then OverflowRetry else AgentRetry)) else None)
  }

  predicate CompactionFailed(t: Tests, e: Event) {
    e.willRetry == Some(false) || e.success == Some(false) || e.aborted
    || NonEmptyText(t, e.errorMessage).Some? || NonEmptyText(t, e.error).Some? || NonEmptyText(t, e.message).Some?
  }

  function AfterCompactionEnd(s: ParseState, t: Tests, e: Event): (ParseState, Option<Line>) {
    if !Truthy(s.pendingOverflowErrorMessage) then (s, None)
    else if e.willRetry == Some(true) then MarkCompletedRunReset(s, OverflowRetry)
    else if CompactionFailed(t, e) then
      (ClearPendingOverflow(s.(pendingOutcome := Some(OverflowAwareError(s, t, e)))), None)
    else (s, None)
  }

  /** The reply belongs to another prompt than the one that is waited for. */
  predicate ForeignPrompt(s: ParseState, e: Event) {
    e.isPrompt && Truthy(s.expectedPromptId) && e.id != s.expectedPromptId
  }

  function AfterResponse(s: ParseState, t: Tests, e: Event): (ParseState, Option<Line>) {
    if ForeignPrompt(s, e) then (s, None)
    else if e.success == Some(false) then
      if !e.isPrompt then (s, None)
      else if e.error.Some? && t.isAlreadyProcessing(e.error.value) then (s, None)
      else EmitResult(s, ErrorOutcome(NonEmptyText(t, e.error).GetOr(t.words.commandFailed), e.sessionId))
    else if e.isPrompt && e.success == Some(true) && Truthy(s.expectedPromptId) then
      (s.(promptHandled := e.handled), None)
    else if Truthy(e.dataSessionId) then
      (s.(observedSessionId := e.dataSessionId), Some(Init(e.dataSessionId.value)))
    else (s, None)
  }

  function AfterError(s: ParseState, t: Tests, e: Event): ParseState {
    var outcome :=
      if Truthy(s.pendingOverflowErrorMessage) then OverflowAwareError(s, t, e)
      else ErrorOutcome(Or(e.errorMessage, e.message).GetOr(t.words.rpcError), Or(e.sessionId, s.observedSessionId));
    ClearPendingOverflow(s.(pendingOutcome := Some(outcome)))
  }

  predicate IgnoredOnceDone(kind: Kind) {
    kind.AgentEnd? || kind.AgentSettled? || kind.CompactionStart? || kind.CompactionEnd? || kind.ErrorRecord?
  }

  function Parse(s: ParseState, t: Tests, e: Event): (ParseState, Option<Line>) {
    if s.terminalResultEmitted && IgnoredOnceDone(e.kind) then (s, None)
    else
      match e.kind
      case MessageUpdate =>
        if Truthy(e.textDelta) then (s.(currentRunHasStreamOutput := true), Some(TextDelta(e.textDelta.value)))
        else (s, None)
      case ToolExecutionStart =>
        (s.(currentRunHasStreamOutput := true), Some(ToolUse(e.toolName.GetOr("tool"))))
      case AgentStart =>
        var u := s.(agentLifecycleObserved := true);
        if u.completedRunHasStreamOutput then MarkCompletedRunReset(u, QueuedContinuation) else (u, None)
      case AgentEnd => AfterAgentEnd(s, t, e)
      case AgentSettled =>
        var u := s.(agentLifecycleObserved := true);
        EmitResult(u, SettledOutcome(u, t))
      case CompactionStart =>
        if Truthy(s.pendingOverflowErrorMessage) then MarkCompletedRunReset(s, OverflowRetry) else (s, None)
      case CompactionEnd => AfterCompactionEnd(s, t, e)
      case Response => AfterResponse(s, t, e)
      case AutoRetry => (s, Some(RateLimit(e.errorMessage.GetOr(""))))
      case ErrorRecord => (AfterError(s, t, e), None)
      case TurnEnd | SummarizationRetry | ExtensionUiRequest | OtherRecord => (s, None)
  }

  /** A handled prompt that started nothing ends with an empty result. */
  function HandledOutcome(s: ParseState): Option<Outcome> {
    if !s.promptHandled || s.agentLifecycleObserved then None
    else Some(Outcome("", s.observedSessionId.GetOr(""), false))
  }

  // Histories

  function StateAfter(s: ParseState, t: Tests, h: seq<Event>): ParseState
    decreases |h|
  {
    if |h| == 0 then s else Parse(StateAfter(s, t, h[..|h| - 1]), t, h[|h| - 1]).0
  }

  function LinesAfter(s: ParseState, t: Tests, h: seq<Event>): seq<Line>
    decreases |h|
  {
    if |h| == 0 then []
    else
      var line := Parse(StateAfter(s, t, h[..|h| - 1]), t, h[|h| - 1]).1;
      LinesAfter(s, t, h[..|h| - 1]) + if line.Some? then [line.value] else []
  }
}
