/** What a cron's invocations may do to its one durable outbox slot, one act at a time.
    A crash leaves any prefix of the acts, and the next invocation begins from there. */
module CronOutbox {
  import opened Common

  datatype Target = Target(chatId: int, threadId: Option<int>)

  datatype RecordKind = Output | FailureNotice

  datatype Record = Record(runId: string, kind: RecordKind, payload: string, target: Target, createdAt: int, attempts: nat)

  datatype Slot = Empty | Full(record: Record) | Corrupt

  datatype Delivery = Delivered | Refused(queueable: bool)

  datatype Disposition =
    | DroppedLegacy | DroppedExpired(age: int, maxAge: int) | DroppedCorrupt | Redelivered | Undeliverable
    | Deferred | DeferFailed | ClearFailed | ReadFailed
    | Queued | QueueSkipped | QueueFailed

  /** Why an invocation ends. */
  datatype Terminal =
    | UsageError | ConfigurationFailed | ExecutionFailed | EmptyOutput | NoReply | DeliveryFailed | SentOutput

  datatype Cron = Cron(isScript: bool, target: Target, deliveryMaxAge: Option<int>)

  /** What an invocation has to go by. */
  datatype Setup = NoTask | NoCron | Loaded(cron: Cron)

  datatype Act =
    | Begin(runId: string, setup: Setup, now: int)
    | Fail(terminal: Terminal)
    | Found(slot: Slot)
    | CannotRead
    | Clear(why: Disposition)
    | CannotClear
    | Store(record: Record)
    | CannotStore
    | Attempt(payload: string, target: Target, delivery: Delivery)
    | CannotWait(queueable: bool)
    | Note(disposition: Disposition)
    | CannotLog
    | Generate
    | Produce(payload: string, noReply: bool, success: bool)
    | FailToProduce
    | Finalize(success: bool, terminal: Terminal, completed: bool)
    | Stop

  /** `say` is what is to be said next of an output that could not be delivered, and `again`
      what if that cannot be said. */
  datatype Phase =
    | Ended
    | Begun
    | Aborted(carried: Option<string>)
    | Failing(terminal: Terminal)
    | Holding(record: Record)
    | HoldingCorrupt
    | Tried(record: Record, delivery: Delivery)
    | Gone(cleared: Option<Record>, why: Disposition)
    | MustNote(disposition: Disposition)
    | Stopping
    | Ready
    | Generating
    | Owing(payload: string, success: bool)
    | Unsent(payload: string, success: bool, queueable: bool, tries: nat)
    | MayQueue(payload: string)
    | Queueing(stored: bool, noted: bool, say: Option<Disposition>, again: Option<Disposition>)
    | Finished(terminal: Terminal, success: bool)

  /** `reports` counts the terminal reports that the invocation that began last has made, and
      `completed` says that such a report went through. */
  datatype State = State(slot: Slot, run: string, setup: Setup, now: int, phase: Phase, reports: nat, completed: bool)

  /** One attempt and two retries. */
  const ATTEMPTS: nat := 3

  function TargetOf(s: State): Target {
    if s.setup.Loaded? then s.setup.cron.target else Target(0, None)
  }

  /** The record of an output that could not be delivered. */
  function Kept(s: State, payload: string): Record {
    Record(s.run, Output, payload, TargetOf(s), s.now, 0)
  }

  predicate Expired(s: State, r: Record) {
    s.setup.Loaded? && s.setup.cron.deliveryMaxAge.Some? && s.now - r.createdAt >= s.setup.cron.deliveryMaxAge.value
  }

  /** Why the slot is to be cleared now, if it is. */
  function Due(s: State): Option<Disposition> {
    match s.phase
    case Holding(r) =>
      if r.kind.FailureNotice? then Some(DroppedLegacy)
      else if Expired(s, r) then Some(DroppedExpired(s.now - r.createdAt, s.setup.cron.deliveryMaxAge.value))
      else None
    case HoldingCorrupt => Some(DroppedCorrupt)
    case Tried(_, Delivered) => Some(Redelivered)
    case Tried(_, Refused(queueable)) => if queueable then None else Some(Undeliverable)
    case _ => None
  }

  /** No more attempts at the output. */
  predicate GaveUp(p: Phase) {
    p.Unsent? && p.tries == ATTEMPTS
  }

  /** A language model may say that there is nothing to say; a script may not. */
  predicate Quiet(s: State, a: Act)
    requires a.Produce?
  {
    a.noReply && !(s.setup.Loaded? && s.setup.cron.isScript)
  }

  /** The act leaves an output to deliver. */
  predicate Makes(s: State, a: Act) {
    a.Produce? && a.payload != "" && !Quiet(s, a)
  }

  function AfterAttempt(payload: string, success: bool, tries: nat, delivery: Delivery): Phase {
    if delivery.Delivered? then Finished(SentOutput, success) else Unsent(payload, success, delivery.queueable, tries + 1)
  }

  /** Whoever cannot log throws, but where an output is still to be seen to. */
  function AfterNoLog(s: State): Option<Phase> {
    match s.phase
    case Begun => if s.setup.NoTask? then None else Some(Aborted(None))
    case Gone(_, DroppedCorrupt) => Some(MustNote(ClearFailed))
    case Gone(_, _) => Some(Aborted(Carried(s)))
    case MustNote(_) | Ready => Some(Aborted(None))
    case Queueing(stored, noted, _, again) => Some(Queueing(stored, noted, again, None))
    case Failing(_) | Finished(_, _) => Some(s.phase)
    case Unsent(_, _, queueable, _) => if GaveUp(s.phase) && !queueable then Some(s.phase) else None
    case Ended => if s.reports == 1 then Some(Ended) else None
    case _ => None
  }

  function HeldRecord(p: Phase): Option<Record> {
    match p
    case Holding(r) => Some(r)
    case Tried(r, _) => Some(r)
    case _ => None
  }

  /** The phase after an act, if the act may come now. */
  function NextPhase(s: State, a: Act): Option<Phase> {
    match a
    case Begin(_, _, _) => Some(Begun)
    case Fail(terminal) =>
      if s.phase.Begun? && ((s.setup.NoTask? && terminal.UsageError?) || (s.setup.NoCron? && terminal.ConfigurationFailed?))
      then Some(Failing(terminal)) else None
    case Found(slot) =>
      if slot != s.slot then None
      else if s.phase.Begun? && s.setup.Loaded? then
        Some(match slot case Empty => Ready case Full(r) => Holding(r) case Corrupt => HoldingCorrupt)
      else if GaveUp(s.phase) && s.phase.queueable then
        Some(if slot.Empty? then MayQueue(s.phase.payload) else Queueing(false, false, Some(QueueSkipped), Some(QueueSkipped)))
      else None
    case CannotRead =>
      if s.phase.Begun? && s.setup.Loaded? then Some(MustNote(ReadFailed))
      else if GaveUp(s.phase) && s.phase.queueable then Some(Queueing(false, false, Some(QueueSkipped), None))
      else None
    case Clear(why) => if Due(s) == Some(why) then Some(Gone(HeldRecord(s.phase), why)) else None
    case CannotClear => if Due(s).Some? then Some(MustNote(ClearFailed)) else None
    case Store(r) =>
      if s.phase.Tried? && s.phase.delivery == Refused(true) && r == s.phase.record.(attempts := s.phase.record.attempts + 1)
      then Some(MustNote(Deferred))
      else if s.phase.MayQueue? && r == Kept(s, s.phase.payload) then Some(Queueing(true, false, Some(Queued), Some(QueueFailed)))
      else None
    case CannotStore =>
      if s.phase.Tried? && s.phase.delivery == Refused(true) then Some(MustNote(DeferFailed))
      else if s.phase.MayQueue? then Some(Queueing(false, false, Some(QueueFailed), None))
      else None
    case Attempt(payload, target, delivery) =>
      if s.phase.Holding? && Due(s).None? && payload == s.phase.record.payload && target == s.phase.record.target
      then Some(Tried(s.phase.record, delivery))
      else if target != TargetOf(s) then None
      else if s.phase.Owing? && payload == s.phase.payload then Some(AfterAttempt(payload, s.phase.success, 0, delivery))
      else if s.phase.Unsent? && s.phase.tries < ATTEMPTS && payload == s.phase.payload
      then Some(AfterAttempt(payload, s.phase.success, s.phase.tries, delivery))
      else None
    case CannotWait(queueable) =>
      if s.phase.Unsent? && s.phase.tries < ATTEMPTS
      then Some(Unsent(s.phase.payload, s.phase.success, queueable, ATTEMPTS)) else None
    case Note(d) =>
      if s.phase.Gone? && d == s.phase.why then Some(Ready)
      else if s.phase.MustNote? && d == s.phase.disposition then Some(Stopping)
      else if s.phase.Queueing? && s.phase.say == Some(d) then Some(Queueing(s.phase.stored, true, None, None))
      else None
    case CannotLog => AfterNoLog(s)
    case Generate => if s.phase.Ready? then Some(Generating) else None
    case Produce(payload, _, success) =>
      if !s.phase.Generating? || (s.setup.Loaded? && s.setup.cron.isScript && !success) then None
      else if payload == "" then Some(Finished(EmptyOutput, success))
      else if Quiet(s, a) then Some(Finished(NoReply, success))
      else Some(Owing(payload, success))
    case FailToProduce => if s.phase.Generating? then Some(Finished(ExecutionFailed, false)) else None
    case Finalize(success, terminal, _) =>
      if s.phase.Failing? && terminal == s.phase.terminal && !success then Some(Ended)
      else if s.phase.Finished? && terminal == s.phase.terminal && success == s.phase.success then Some(Ended)
      else if GaveUp(s.phase) && !s.phase.queueable && terminal.DeliveryFailed? && !success then Some(Ended)
      else if s.phase.Queueing? && s.phase.say.None? && terminal.DeliveryFailed? && !success then Some(Ended)
      else None
    case Stop => if s.phase.Stopping? then Some(Ended) else None
  }

  function NextSlot(slot: Slot, a: Act): Slot {
    match a
    case Clear(_) => Empty
    case Store(r) => Full(r)
    case _ => slot
  }

  function Next(s: State, a: Act): State {
    var p := NextPhase(s, a);
    State(NextSlot(s.slot, a), if a.Begin? then a.runId else s.run, if a.Begin? then a.setup else s.setup,
          if a.Begin? then a.now else s.now, if p.Some? then p.value else s.phase,
          if a.Begin? then 0 else if a.Finalize? then s.reports + 1 else s.reports,
          if a.Begin? then false else if a.Finalize? then a.completed else s.completed)
  }

  predicate Allowed(s: State, a: Act) {
    NextPhase(s, a).Some?
  }

  function Start(slot: Slot): State {
    State(slot, "", NoTask, 0, Ended, 0, false)
  }

  function After(slot: Slot, h: seq<Act>): State
    decreases |h|
  {
    if |h| == 0 then Start(slot) else Next(After(slot, h[..|h| - 1]), h[|h| - 1])
  }

  /** Every act was allowed when it came, and no run ID is used twice. */
  ghost predicate Lawful(slot: Slot, h: seq<Act>)
    decreases |h|
  {
    |h| > 0 ==>
      var before, a := h[..|h| - 1], h[|h| - 1];
      && Lawful(slot, before) && Allowed(After(slot, before), a)
      && (a.Begin? ==> Unused(slot, before, a.runId))
  }

  ghost predicate Unused(slot: Slot, h: seq<Act>, runId: string) {
    (forall i | 0 <= i < |h| :: !Begins(h[i], runId)) && !(slot.Full? && slot.record.runId == runId)
  }

  predicate Begins(a: Act, runId: string) {
    a.Begin? && a.runId == runId
  }

  lemma {:induction false} LawfulBefore(slot: Slot, h: seq<Act>, n: nat)
    requires Lawful(slot, h) && n <= |h|
    ensures Lawful(slot, h[..n])
    decreases |h|
  {
    if n < |h| {
      var before := h[..|h| - 1];
      LawfulBefore(slot, before, n);
      assert before[..n] == h[..n];
    } else {
      assert h[..n] == h;
    }
  }

  // The slot and the phase agree

  ghost predicate Agrees(s: State) {
    match s.phase
    case Holding(r) => s.slot == Full(r)
    case HoldingCorrupt => s.slot.Corrupt?
    case Tried(r, _) => s.slot == Full(r)
    case Gone(r, why) => s.slot.Empty? && (why.DroppedCorrupt? ==> r.None?)
    case Ready | Generating | Owing(_, _) | Unsent(_, _, _, _) | MayQueue(_) | Finished(_, _) => s.slot.Empty?
    case Aborted(carried) => carried.Some? ==> s.slot.Empty?
    case _ => true
  }

  lemma AgreeStep(s: State, a: Act)
    requires Agrees(s) && Allowed(s, a)
    ensures Agrees(Next(s, a))
  {
  }

  lemma {:induction false} AlwaysAgrees(slot: Slot, h: seq<Act>)
    requires Lawful(slot, h)
    ensures Agrees(After(slot, h))
    decreases |h|
  {
    if |h| > 0 {
      AlwaysAgrees(slot, h[..|h| - 1]);
      AgreeStep(After(slot, h[..|h| - 1]), h[|h| - 1]);
    }
  }

  /** Generation never starts while anything is owed: the slot is empty then. */
  lemma GenerationOwesNothing(slot: Slot, h: seq<Act>)
    requires Lawful(slot, h + [Generate])
    ensures After(slot, h).slot.Empty?
  {
    assert (h + [Generate])[..|h|] == h;
    AlwaysAgrees(slot, h);
  }

  /** A record is stored into an empty slot, or over itself with one more attempt. */
  lemma NothingIsReplaced(slot: Slot, h: seq<Act>, r: Record)
    requires Lawful(slot, h + [Store(r)])
    ensures var s := After(slot, h);
      s.slot.Empty? || (s.slot.Full? && r == s.slot.record.(attempts := s.slot.record.attempts + 1))
  {
    assert (h + [Store(r)])[..|h|] == h;
    AlwaysAgrees(slot, h);
  }

  /** Whatever is delivered while a record is pending is that record, to its target. */
  lemma ReplayIsFaithful(slot: Slot, h: seq<Act>, payload: string, target: Target, delivery: Delivery)
    requires Lawful(slot, h + [Attempt(payload, target, delivery)]) && After(slot, h).slot.Full?
    ensures var r := After(slot, h).slot.record;
      payload == r.payload && target == r.target && r.kind.Output?
  {
    assert (h + [Attempt(payload, target, delivery)])[..|h|] == h;
    AlwaysAgrees(slot, h);
  }

  // What becomes of an output

  /** The slot has a record of this run. */
  predicate InSlot(s: State, runId: string) {
    s.slot.Full? && s.slot.record.runId == runId
  }

  /** The run whose output is in the invocation's hands: its own, or one just cleared; in
      neither case delivered, stored or mentioned. */
  function Carried(s: State): Option<string> {
    match s.phase
    case Owing(_, _) | Unsent(_, _, _, _) | MayQueue(_) => Some(s.run)
    case Queueing(stored, noted, _, _) => if stored || noted then None else Some(s.run)
    case Gone(r, why) => if r.Some? && !why.Redelivered? then Some(r.value.runId) else None
    case Aborted(carried) => carried
    case _ => None
  }

  /** The run whose output an attempt would deliver now. */
  function Offered(s: State): Option<string> {
    match s.phase
    case Holding(r) => Some(r.runId)
    case Owing(_, _) | Unsent(_, _, _, _) => Some(s.run)
    case _ => None
  }

  ghost predicate ProducedAt(slot: Slot, h: seq<Act>, runId: string, i: nat)
    requires i < |h|
  {
    Makes(After(slot, h[..i]), h[i]) && After(slot, h[..i]).run == runId
  }

  /** The history has this run's output to account for: produced, or there from the start. */
  ghost predicate Owed(slot: Slot, h: seq<Act>, runId: string) {
    InSlot(Start(slot), runId) || exists i | 0 <= i < |h| :: ProducedAt(slot, h, runId, i)
  }

  predicate Delivers(s: State, a: Act, runId: string) {
    a.Attempt? && a.delivery.Delivered? && Offered(s) == Some(runId)
  }

  /** A note or a report with the output in hand. */
  predicate Disposes(s: State, a: Act, runId: string) {
    (a.Note? || a.Finalize?) && Carried(s) == Some(runId)
  }

  /** An invocation begins, and the one before had the output in hand. */
  predicate Cuts(s: State, a: Act, runId: string) {
    a.Begin? && Carried(s) == Some(runId)
  }

  ghost predicate WasDelivered(slot: Slot, h: seq<Act>, runId: string) {
    exists i | 0 <= i < |h| :: Delivers(After(slot, h[..i]), h[i], runId)
  }

  ghost predicate WasDisposed(slot: Slot, h: seq<Act>, runId: string) {
    exists i | 0 <= i < |h| :: Disposes(After(slot, h[..i]), h[i], runId)
  }

  /** An invocation was cut with the output in hand, not delivered before. */
  ghost predicate WasCut(slot: Slot, h: seq<Act>, runId: string) {
    exists i | 0 <= i < |h| :: CutAt(slot, h[..i], h[i], runId)
  }

  ghost predicate CutAt(slot: Slot, before: seq<Act>, a: Act, runId: string) {
    Cuts(After(slot, before), a, runId) && !WasDelivered(slot, before, runId)
  }

  lemma DeliveredGrows(slot: Slot, h: seq<Act>, runId: string)
    requires |h| > 0
    ensures var before, a := h[..|h| - 1], h[|h| - 1];
      WasDelivered(slot, h, runId) <==> WasDelivered(slot, before, runId) || Delivers(After(slot, before), a, runId)
  {
    Prefixes(h);
  }

  lemma DisposedGrows(slot: Slot, h: seq<Act>, runId: string)
    requires |h| > 0
    ensures var before, a := h[..|h| - 1], h[|h| - 1];
      WasDisposed(slot, h, runId) <==> WasDisposed(slot, before, runId) || Disposes(After(slot, before), a, runId)
  {
    Prefixes(h);
  }

  lemma CutGrows(slot: Slot, h: seq<Act>, runId: string)
    requires |h| > 0
    ensures var before, a := h[..|h| - 1], h[|h| - 1];
      WasCut(slot, h, runId) <==>
      WasCut(slot, before, runId) || CutAt(slot, before, a, runId)
  {
    Prefixes(h);
  }

  lemma Prefixes(h: seq<Act>)
    requires |h| > 0
    ensures forall i | 0 <= i < |h| :: h[..|h| - 1][..i] == h[..i]
  {
  }

  // Where an output is, act by act

  datatype Fate = Unknown | InHand | Pending | Sent | Disposed | Lost

  /** One act's effect on the fate of one run's output. */
  function FateAfter(s: State, a: Act, runId: string, f: Fate): Fate {
    if f.Sent? || f.Disposed? || f.Lost? then f
    else
      match a
      case Begin(_, _, _) => if f.InHand? then Lost else f
      case Produce(_, _, _) => if s.run == runId && Makes(s, a) then InHand else f
      case Attempt(_, _, Delivered) => if Offered(s) == Some(runId) then Sent else f
      case Store(r) => if r.runId == runId then Pending else f
      case Clear(_) => if InSlot(s, runId) then InHand else f
      case Note(_) => if Carried(s) == Some(runId) then Disposed else f
      case Finalize(_, _, _) => if Carried(s) == Some(runId) then Disposed else f
      case _ => f
  }

  function FateOf(slot: Slot, h: seq<Act>, runId: string): Fate
    decreases |h|
  {
    if |h| == 0 then (if InSlot(Start(slot), runId) then Pending else Unknown)
    else
      var before := h[..|h| - 1];
      FateAfter(After(slot, before), h[|h| - 1], runId, FateOf(slot, before, runId))
  }

  predicate BeforeOutput(p: Phase) {
    !(p.Ended? || p.Owing? || p.Unsent? || p.MayQueue? || p.Queueing? || p.Finished?)
  }

  /** The fate says where the output is, and an output that is somewhere has that fate unless
      it has been delivered besides. */
  ghost predicate FateInv(s: State, runId: string, f: Fate) {
    && (f.Pending? ==> InSlot(s, runId)) && (InSlot(s, runId) ==> f.Pending? || f.Sent?)
    && (f.InHand? ==> Carried(s) == Some(runId)) && (Carried(s) == Some(runId) ==> f.InHand? || f.Sent?)
    && (s.phase.Tried? && s.phase.delivery.Delivered? && s.phase.record.runId == runId ==> f.Sent?)
    && (s.run == runId && BeforeOutput(s.phase) ==> f.Unknown?)
  }

  lemma FateStep(s: State, a: Act, runId: string, f: Fate)
    requires Agrees(s) && Allowed(s, a) && FateInv(s, runId, f)
    requires Begins(a, runId) ==> f.Unknown?
    ensures FateInv(Next(s, a), runId, FateAfter(s, a, runId, f))
  {
  }

  lemma {:induction false} FateHolds(slot: Slot, h: seq<Act>, runId: string)
    requires Lawful(slot, h)
    ensures FateInv(After(slot, h), runId, FateOf(slot, h, runId))
    decreases |h|
  {
    if |h| > 0 {
      var before, a := h[..|h| - 1], h[|h| - 1];
      FateHolds(slot, before, runId);
      AlwaysAgrees(slot, before);
      if Begins(a, runId) {
        UnusedIsUnknown(slot, before, runId);
      }
      FateStep(After(slot, before), a, runId, FateOf(slot, before, runId));
    }
  }

  lemma UnknownStep(s: State, a: Act, runId: string)
    requires Agrees(s) && Allowed(s, a) && FateInv(s, runId, Unknown) && !Begins(a, runId)
    requires s.run == runId ==> s.phase.Ended?
    ensures FateAfter(s, a, runId, Unknown).Unknown? && FateInv(Next(s, a), runId, Unknown)
    ensures Next(s, a).run == runId ==> Next(s, a).phase.Ended?
  {
  }

  /** Before a run has begun, nothing is known of its output. */
  lemma {:induction false} UnusedIsUnknown(slot: Slot, h: seq<Act>, runId: string)
    requires Lawful(slot, h) && Unused(slot, h, runId)
    ensures FateOf(slot, h, runId).Unknown? && FateInv(After(slot, h), runId, Unknown)
    ensures After(slot, h).run == runId ==> After(slot, h).phase.Ended?
    decreases |h|
  {
    if |h| > 0 {
      var before, a := h[..|h| - 1], h[|h| - 1];
      assert h == before + [a];
      UnusedIsUnknown(slot, before, runId);
      AlwaysAgrees(slot, before);
      UnknownStep(After(slot, before), a, runId);
    }
  }

  /** The fate is what the acts say, of delivery, disposition and cuts. */
  ghost predicate FateSays(f: Fate, delivered: bool, disposed: bool, cut: bool) {
    && (f.Sent? <==> delivered) && (f.Lost? <==> cut)
    && (f.Disposed? ==> disposed) && (disposed ==> f.Disposed? || f.Sent?)
  }

  lemma SaysStep(s: State, a: Act, runId: string, f: Fate, delivered: bool, disposed: bool, cut: bool)
    requires Agrees(s) && Allowed(s, a) && FateInv(s, runId, f) && FateSays(f, delivered, disposed, cut)
    ensures FateSays(FateAfter(s, a, runId, f), delivered || Delivers(s, a, runId), disposed || Disposes(s, a, runId),
                     cut || (Cuts(s, a, runId) && !delivered))
  {
  }

  lemma {:induction false} FateMeans(slot: Slot, h: seq<Act>, runId: string)
    requires Lawful(slot, h)
    ensures FateSays(FateOf(slot, h, runId), WasDelivered(slot, h, runId), WasDisposed(slot, h, runId), WasCut(slot, h, runId))
    decreases |h|
  {
    if |h| > 0 {
      var before, a := h[..|h| - 1], h[|h| - 1];
      FateMeans(slot, before, runId);
      FateHolds(slot, before, runId);
      AlwaysAgrees(slot, before);
      SaysStep(After(slot, before), a, runId, FateOf(slot, before, runId),
               WasDelivered(slot, before, runId), WasDisposed(slot, before, runId), WasCut(slot, before, runId));
      DeliveredGrows(slot, h, runId);
      DisposedGrows(slot, h, runId);
      CutGrows(slot, h, runId);
    }
  }

  lemma {:induction false} OwedIsKnown(slot: Slot, h: seq<Act>, runId: string)
    requires Owed(slot, h, runId)
    ensures !FateOf(slot, h, runId).Unknown?
    decreases |h|
  {
    if |h| > 0 {
      var before := h[..|h| - 1];
      if Owed(slot, before, runId) {
        OwedIsKnown(slot, before, runId);
      } else {
        var i :| 0 <= i < |h| && ProducedAt(slot, h, runId, i);
        assert i < |before| ==> before[..i] == h[..i] && ProducedAt(slot, before, runId, i);
      }
    }
  }

  /** Nothing tells any more where the output went: no delivery, no note or report, and it is
      neither in the slot nor in hand. */
  ghost predicate Vanished(slot: Slot, h: seq<Act>, runId: string) {
    && !WasDelivered(slot, h, runId) && !WasDisposed(slot, h, runId)
    && !InSlot(After(slot, h), runId) && Carried(After(slot, h)) != Some(runId)
  }

  /** Every output is delivered, ended by a recorded disposition, pending in the slot or in the
      running invocation's hands, except exactly if an invocation was cut with it in hand. */
  lemma EveryOutputIsAccountedFor(slot: Slot, h: seq<Act>, runId: string)
    requires Lawful(slot, h) && Owed(slot, h, runId)
    ensures Vanished(slot, h, runId) <==> WasCut(slot, h, runId)
  {
    OwedIsKnown(slot, h, runId);
    FateHolds(slot, h, runId);
    FateMeans(slot, h, runId);
  }

  /** The four ways exclude each other, but for a delivered output whose record is still there. */
  lemma OutputIsInOnePlace(slot: Slot, h: seq<Act>, runId: string)
    requires Lawful(slot, h) && !WasDelivered(slot, h, runId)
    ensures var s := After(slot, h);
      && !(InSlot(s, runId) && Carried(s) == Some(runId))
      && (WasDisposed(slot, h, runId) ==> !InSlot(s, runId) && Carried(s) != Some(runId))
      && (WasCut(slot, h, runId) ==> !WasDisposed(slot, h, runId))
  {
    FateHolds(slot, h, runId);
    FateMeans(slot, h, runId);
  }

  ghost predicate NoCuts(slot: Slot, h: seq<Act>) {
    forall i | 0 <= i < |h| && h[i].Begin? :: After(slot, h[..i]).phase.Ended?
  }

  /** When every invocation has ended in its own time nothing is in hand and nothing vanishes. */
  lemma WithoutCutsNothingIsLost(slot: Slot, h: seq<Act>, runId: string)
    requires Lawful(slot, h) && Owed(slot, h, runId) && NoCuts(slot, h) && After(slot, h).phase.Ended?
    ensures WasDelivered(slot, h, runId) || WasDisposed(slot, h, runId) || InSlot(After(slot, h), runId)
  {
    EveryOutputIsAccountedFor(slot, h, runId);
  }

  lemma CutLoses(slot: Slot, h: seq<Act>, runId: string, next: Act)
    requires Lawful(slot, h) && FateOf(slot, h, runId).InHand? && Owed(slot, h, runId)
    requires next.Begin? && Unused(slot, h, next.runId)
    ensures var cut := h + [next];
      Lawful(slot, cut) && Owed(slot, cut, runId) && Vanished(slot, cut, runId)
  {
    var cut := h + [next];
    Extend(slot, h, next, runId);
    FateMeans(slot, cut, runId);
    if !InSlot(Start(slot), runId) {
      var i :| 0 <= i < |h| && ProducedAt(slot, h, runId, i);
      assert cut[..i] == h[..i] && ProducedAt(slot, cut, runId, i);
    }
    EveryOutputIsAccountedFor(slot, cut, runId);
  }

  /** The gap is real: a crash right after generation loses the output without a word. */
  lemma CrashAfterGenerationLosesOutput(first: Act, next: Act, payload: string)
    requires first.Begin? && first.setup.Loaded? && next.Begin? && first.runId != next.runId && payload != ""
    ensures var h := [first, Found(Empty), Generate, Produce(payload, false, true), next];
      Lawful(Empty, h) && Owed(Empty, h, first.runId) && Vanished(Empty, h, first.runId)
  {
    var produced := Produce(payload, false, true);
    var h3, h4 := [first, Found(Empty), Generate], [first, Found(Empty), Generate, produced];
    FirstFinds(Empty, first, first.runId);
    assert [first] + [Found(Empty)] + [Generate] == h3 && h3 + [produced] == h4;
    Extend(Empty, [first] + [Found(Empty)], Generate, first.runId);
    Extend(Empty, h3, produced, first.runId);
    assert h4[..3] == h3;
    assert ProducedAt(Empty, h4, first.runId, 3);
    CutLoses(Empty, h4, first.runId, next);
    assert [first, Found(Empty), Generate, produced, next] == h4 + [next];
  }

  /** So is the second: a crash between dropping an expired record and saying so. */
  lemma CrashAfterExpiryLosesOutput(r: Record, first: Act, next: Act, maxAge: int)
    requires r.kind.Output? && first.Begin? && first.setup.Loaded? && first.setup.cron.deliveryMaxAge == Some(maxAge)
    requires first.now - r.createdAt >= maxAge
    requires next.Begin? && first.runId != r.runId && next.runId != r.runId && first.runId != next.runId
    ensures var h := [first, Found(Full(r)), Clear(DroppedExpired(first.now - r.createdAt, maxAge)), next];
      Lawful(Full(r), h) && Owed(Full(r), h, r.runId) && Vanished(Full(r), h, r.runId)
  {
    var slot, gone := Full(r), Clear(DroppedExpired(first.now - r.createdAt, maxAge));
    var h3 := [first, Found(slot), gone];
    FirstFinds(slot, first, r.runId);
    assert [first] + [Found(slot)] + [gone] == h3;
    Extend(slot, [first] + [Found(slot)], gone, r.runId);
    CutLoses(slot, h3, r.runId, next);
    assert [first, Found(slot), gone, next] == h3 + [next];
  }

  /** And the third: one between dropping a record that cannot be delivered and saying so. */
  lemma CrashAfterRefusalLosesOutput(r: Record, first: Act, next: Act)
    requires r.kind.Output? && first.Begin? && first.setup.Loaded?
    requires first.setup.cron.deliveryMaxAge.Some? ==> first.now - r.createdAt < first.setup.cron.deliveryMaxAge.value
    requires next.Begin? && first.runId != r.runId && next.runId != r.runId && first.runId != next.runId
    ensures var h := [first, Found(Full(r)), Attempt(r.payload, r.target, Refused(false)), Clear(Undeliverable), next];
      Lawful(Full(r), h) && Owed(Full(r), h, r.runId) && Vanished(Full(r), h, r.runId)
  {
    var slot, refused := Full(r), Attempt(r.payload, r.target, Refused(false));
    var h2 := [first] + [Found(slot)];
    FirstFinds(slot, first, r.runId);
    RefusedAndCleared(slot, h2, r);
    assert h2 + [refused] + [Clear(Undeliverable)] == [first, Found(slot), refused, Clear(Undeliverable)];
    CutLoses(slot, h2 + [refused] + [Clear(Undeliverable)], r.runId, next);
    assert [first, Found(slot), refused, Clear(Undeliverable), next] == [first, Found(slot), refused, Clear(Undeliverable)] + [next];
  }

  lemma RefusedAndCleared(slot: Slot, h: seq<Act>, r: Record)
    requires Lawful(slot, h) && FateOf(slot, h, r.runId).Pending?
    requires var s := After(slot, h); s.phase == Holding(r) && Due(s).None? && s.slot == Full(r)
    ensures var more := h + [Attempt(r.payload, r.target, Refused(false))] + [Clear(Undeliverable)];
      Lawful(slot, more) && FateOf(slot, more, r.runId).InHand?
  {
    var refused := Attempt(r.payload, r.target, Refused(false));
    Extend(slot, h, refused, r.runId);
    Extend(slot, h + [refused], Clear(Undeliverable), r.runId);
  }

  /** A first invocation, up to what it finds. */
  lemma FirstFinds(slot: Slot, first: Act, runId: string)
    requires first.Begin? && first.setup.Loaded? && !InSlot(Start(slot), first.runId) && !slot.Corrupt?
    ensures var h := [first] + [Found(slot)];
      && Lawful(slot, h) && FateOf(slot, h, runId) == FateOf(slot, [], runId)
      && After(slot, h) == State(slot, first.runId, first.setup, first.now,
                                 if slot.Full? then Holding(slot.record) else Ready, 0, false)
  {
    Extend(slot, [], first, runId);
    assert [] + [first] == [first];
    Extend(slot, [first], Found(slot), runId);
  }

  lemma Extend(slot: Slot, h: seq<Act>, a: Act, runId: string)
    ensures After(slot, h + [a]) == Next(After(slot, h), a)
    ensures Lawful(slot, h + [a])
      <==> Lawful(slot, h) && Allowed(After(slot, h), a) && (a.Begin? ==> Unused(slot, h, a.runId))
    ensures FateOf(slot, h + [a], runId) == FateAfter(After(slot, h), a, runId, FateOf(slot, h, runId))
  {
    assert (h + [a])[..|h|] == h;
  }

  // What is delivered

  datatype Content = Content(payload: string, target: Target)

  function ProducedContent(slot: Slot, h: seq<Act>, runId: string): Option<Content>
    decreases |h|
  {
    if |h| == 0 then None
    else
      var before, a := h[..|h| - 1], h[|h| - 1];
      if Makes(After(slot, before), a) && After(slot, before).run == runId
      then Some(Content(a.payload, TargetOf(After(slot, before))))
      else ProducedContent(slot, before, runId)
  }

  ghost predicate ContentInv(s: State, runId: string, c: Option<Content>) {
    c.Some? ==>
      && (s.slot.Full? && s.slot.record.runId == runId ==> Content(s.slot.record.payload, s.slot.record.target) == c.value)
      && (s.run == runId ==> match s.phase
                             case Owing(p, _) => Content(p, TargetOf(s)) == c.value
                             case Unsent(p, _, _, _) => Content(p, TargetOf(s)) == c.value
                             case MayQueue(p) => Content(p, TargetOf(s)) == c.value
                             case _ => true)
  }

  lemma {:induction false} ContentHolds(slot: Slot, h: seq<Act>, runId: string)
    requires Lawful(slot, h)
    ensures ContentInv(After(slot, h), runId, ProducedContent(slot, h, runId))
    decreases |h|
  {
    if |h| > 0 {
      var before := h[..|h| - 1];
      ContentHolds(slot, before, runId);
      AlwaysAgrees(slot, before);
      ContentStep(After(slot, before), h[|h| - 1], runId, ProducedContent(slot, before, runId));
    }
  }

  lemma ContentStep(s: State, a: Act, runId: string, c: Option<Content>)
    requires Agrees(s) && Allowed(s, a) && ContentInv(s, runId, c)
    ensures ContentInv(Next(s, a), runId, if Makes(s, a) && s.run == runId then Some(Content(a.payload, TargetOf(s))) else c)
  {
  }

  /** What counts as the delivery of an output is its own payload, to its own target, however
      many invocations later. */
  lemma DeliveredIsProduced(slot: Slot, h: seq<Act>, runId: string, payload: string, target: Target)
    requires Lawful(slot, h + [Attempt(payload, target, Delivered)]) && ProducedContent(slot, h, runId).Some?
    requires Offered(After(slot, h)) == Some(runId)
    ensures ProducedContent(slot, h, runId) == Some(Content(payload, target))
  {
    Extend(slot, h, Attempt(payload, target, Delivered), runId);
    AlwaysAgrees(slot, h);
    ContentHolds(slot, h, runId);
  }

  // Accounting

  /** An invocation reports at most once, as its last act; a stop is instead of a report. */
  lemma {:induction false} ReportsOnce(slot: Slot, h: seq<Act>)
    requires Lawful(slot, h)
    ensures var s := After(slot, h);
      s.reports <= 1 && (!s.phase.Ended? ==> s.reports == 0)
    decreases |h|
  {
    if |h| > 0 {
      ReportsOnce(slot, h[..|h| - 1]);
    }
  }

  lemma {:induction false} CompletedReports(slot: Slot, h: seq<Act>)
    requires Lawful(slot, h)
    ensures After(slot, h).completed ==> After(slot, h).reports > 0
    decreases |h|
  {
    if |h| > 0 {
      CompletedReports(slot, h[..|h| - 1]);
    }
  }

  /** An invocation that has begun its run, or failed before it, can end only with a report. */
  predicate OwesReport(p: Phase) {
    p.Failing? || p.Generating? || p.Owing? || p.Unsent? || p.MayQueue? || p.Queueing? || p.Finished?
  }

  lemma RunsEndWithReport(slot: Slot, h: seq<Act>, a: Act)
    requires Lawful(slot, h + [a]) && OwesReport(After(slot, h).phase) && !a.Begin?
    ensures var s := After(slot, h + [a]);
      if s.phase.Ended? then s.reports == 1 else OwesReport(s.phase) && s.reports == 0
  {
    assert (h + [a])[..|h|] == h;
    ReportsOnce(slot, h);
  }

  /** The acts of the invocation that began last. */
  function Invocation(h: seq<Act>): (acts: seq<Act>)
    ensures |acts| <= |h| && acts == h[|h| - |acts|..]
    decreases |h|
  {
    if |h| == 0 then []
    else
      var a := h[|h| - 1];
      if a.Begin? then [a] else Invocation(h[..|h| - 1]) + [a]
  }

  /** A logical run was started, or usage or configuration failed. */
  predicate StartsRun(acts: seq<Act>) {
    exists a | a in acts :: a.Generate? || a.Fail?
  }

  function Reports(acts: seq<Act>): nat
    decreases |acts|
  {
    if |acts| == 0 then 0
    else Reports(acts[..|acts| - 1]) + if acts[|acts| - 1].Finalize? then 1 else 0
  }

  lemma OneActMore(acts: seq<Act>, a: Act)
    ensures Reports(acts + [a]) == Reports(acts) + if a.Finalize? then 1 else 0
    ensures StartsRun(acts + [a]) <==> StartsRun(acts) || a.Generate? || a.Fail?
  {
    assert (acts + [a])[..|acts|] == acts;
    assert a in acts + [a];
    if StartsRun(acts) {
      var b :| b in acts && (b.Generate? || b.Fail?);
      assert b in acts + [a];
    }
  }

  /** At every moment an invocation has started a run, or failed before it, exactly if it owes
      a report or has made its one report. */
  lemma {:induction false} Accounts(slot: Slot, h: seq<Act>)
    requires Lawful(slot, h)
    ensures Accounted(After(slot, h), StartsRun(Invocation(h)), Reports(Invocation(h)))
    decreases |h|
  {
    if |h| > 0 {
      var before, a := h[..|h| - 1], h[|h| - 1];
      Accounts(slot, before);
      AccountStep(After(slot, before), a, StartsRun(Invocation(before)), Reports(Invocation(before)));
      InvocationGrows(h);
    }
  }

  lemma InvocationGrows(h: seq<Act>)
    requires |h| > 0
    ensures var acts, before, a := Invocation(h), Invocation(h[..|h| - 1]), h[|h| - 1];
      && (StartsRun(acts) <==> (!a.Begin? && StartsRun(before)) || a.Generate? || a.Fail?)
      && Reports(acts) == (if a.Begin? then 0 else Reports(before)) + if a.Finalize? then 1 else 0
  {
    var a := h[|h| - 1];
    var acts := if a.Begin? then [] else Invocation(h[..|h| - 1]);
    OneActMore(acts, a);
    assert Invocation(h) == acts + [a];
  }

  predicate Accounted(s: State, starts: bool, reports: nat) {
    && s.reports == reports <= 1 && (!s.phase.Ended? ==> reports == 0)
    && (starts <==> OwesReport(s.phase) || (s.phase.Ended? && reports == 1))
  }

  lemma AccountStep(s: State, a: Act, starts: bool, reports: nat)
    requires Allowed(s, a) && Accounted(s, starts, reports)
    ensures Accounted(Next(s, a), (!a.Begin? && starts) || a.Generate? || a.Fail?,
                      (if a.Begin? then 0 else reports) + if a.Finalize? then 1 else 0)
    ensures Next(s, a).phase.Ended? ==> (a.Stop? <==> Next(s, a).reports == 0)
  {
  }

  /** A finished invocation has reported exactly once if it started a run or failed before it;
      otherwise it has not reported at all, and that is so exactly if it ended in a stop. */
  lemma FinishedInvocationsReport(slot: Slot, h: seq<Act>)
    requires Lawful(slot, h) && |h| > 0 && After(slot, h).phase.Ended?
    ensures var acts := Invocation(h);
      && Reports(acts) == (if StartsRun(acts) then 1 else 0)
      && (!StartsRun(acts) <==> h[|h| - 1].Stop?)
  {
    var before, a := h[..|h| - 1], h[|h| - 1];
    Accounts(slot, h);
    Accounts(slot, before);
    AccountStep(After(slot, before), a, StartsRun(Invocation(before)), Reports(Invocation(before)));
  }

  lemma BegunOnce(slot: Slot, h: seq<Act>, k: nat, runId: string)
    requires Lawful(slot, h) && k < |h| - 1 && Begins(h[k], runId)
    ensures !Begins(h[|h| - 1], runId)
  {
    assert h[..|h| - 1][k] == h[k];
  }

  lemma RunAfter(slot: Slot, h: seq<Act>)
    requires |h| > 0
    ensures var a := h[|h| - 1]; After(slot, h).run == if a.Begin? then a.runId else After(slot, h[..|h| - 1]).run
  {
  }

  /** Run IDs tell invocations apart. */
  lemma {:induction false} InvocationBegins(slot: Slot, h: seq<Act>, k: nat, runId: string)
    requires Lawful(slot, h) && k < |h| && Begins(h[k], runId) && After(slot, h).run == runId
    ensures Invocation(h) == h[k..]
    decreases |h|
  {
    RunAfter(slot, h);
    if k < |h| - 1 {
      BegunOnce(slot, h, k, runId);
      InvocationBegins(slot, h[..|h| - 1], k, runId);
      assert h[..|h| - 1][k..] + [h[|h| - 1]] == h[k..];
    }
  }

  // A history with its states

  ghost predicate Link(slot: Slot, states: seq<State>, h: seq<Act>, i: nat)
    requires |states| == |h| + 1 && i < |h|
  {
    && Allowed(states[i], h[i]) && states[i + 1] == Next(states[i], h[i])
    && (h[i].Begin? ==> Unused(slot, h[..i], h[i].runId))
  }

  ghost predicate Recorded(slot: Slot, states: seq<State>, h: seq<Act>) {
    && |states| == |h| + 1 && states[0] == Start(slot)
    && forall i | 0 <= i < |h| :: Link(slot, states, h, i)
  }

  lemma RecordMore(slot: Slot, states: seq<State>, h: seq<Act>, a: Act)
    requires Recorded(slot, states, h) && Allowed(states[|h|], a) && (a.Begin? ==> Unused(slot, h, a.runId))
    ensures Recorded(slot, states + [Next(states[|h|], a)], h + [a])
  {
    var more, acts := states + [Next(states[|h|], a)], h + [a];
    forall i | 0 <= i < |acts|
      ensures Link(slot, more, acts, i)
    {
      assert acts[..i] == h[..i];
      assert i < |h| ==> Link(slot, states, h, i);
      assert h[..|h|] == h;
    }
  }

  lemma {:induction false} RecordedIsLawful(slot: Slot, states: seq<State>, h: seq<Act>)
    requires Recorded(slot, states, h)
    ensures Lawful(slot, h) && After(slot, h) == states[|h|]
    decreases |h|
  {
    if |h| > 0 {
      var n := |h| - 1;
      assert Link(slot, states, h, n);
      var earlier, before := states[..n + 1], h[..n];
      forall i | 0 <= i < |before|
        ensures Link(slot, earlier, before, i)
      {
        assert Link(slot, states, h, i);
        assert before[..i] == h[..i];
      }
      RecordedIsLawful(slot, earlier, before);
    }
  }
}
