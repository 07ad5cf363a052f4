/** What a finished invocation promises, told from its acts alone: what became of a record that
    it found, of the output that it made, and what it reported. */
module CronPromises {
  import opened Common
  import opened CronOutbox

  // Before generation

  /** What an invocation's acts say of the record that an earlier one left. */
  datatype Preflight = Preflight(
    found: Option<Slot>, replay: Option<Delivery>, failed: bool, unstored: bool, generated: bool)

  function PreflightOf(acts: seq<Act>): Preflight
    decreases |acts|
  {
    if |acts| == 0 then Preflight(None, None, false, false, false)
    else PreflightAfter(PreflightOf(acts[..|acts| - 1]), acts[|acts| - 1])
  }

  /** Nothing that comes after the start of generation matters. */
  function PreflightAfter(p: Preflight, a: Act): Preflight {
    if p.generated then p
    else
      match a
      case Found(slot) => p.(found := Some(slot))
      case Attempt(_, _, delivery) => p.(replay := Some(delivery))
      case CannotRead | CannotClear | CannotLog => p.(failed := true)
      case CannotStore => p.(unstored := true)
      case Generate => p.(generated := true)
      case _ => p
  }

  /** An output was found, of an age at which it is still to be delivered. */
  predicate Replayable(s: State, p: Preflight) {
    && p.found.Some? && p.found.value.Full? && p.found.value.record.kind.Output? && s.setup.Loaded?
    && var maxAge := s.setup.cron.deliveryMaxAge;
       maxAge.Some? ==> s.now - p.found.value.record.createdAt < maxAge.value
  }

  /** What is left of a record when the invocation stops: it was tried once more, or is as it was. */
  function Left(p: Preflight, r: Record): Record {
    if p.replay == Some(Refused(true)) && !p.unstored then r.(attempts := r.attempts + 1) else r
  }

  predicate Untouched(s: State, p: Preflight) {
    p.found.Some? && p.found.value.Full? ==> s.slot == Full(Left(p, p.found.value.record))
  }

  predicate Clean(p: Preflight) {
    !p.generated && !p.failed && !p.unstored
  }

  predicate PhaseTells(s: State, p: Preflight) {
    match s.phase
    case Begun => Clean(p) && p.found.None? && p.replay.None?
    case Holding(r) => Clean(p) && p.found == Some(Full(r)) && p.replay.None?
    case HoldingCorrupt => Clean(p) && p.found == Some(Corrupt) && p.replay.None?
    case Tried(r, d) => Clean(p) && p.found == Some(Full(r)) && p.replay == Some(d)
    case Gone(_, why) => Clean(p) && Dealt(s, p) && (why.DroppedCorrupt? ==> p.found == Some(Corrupt))
    case Ready => Clean(p) && Dealt(s, p)
    case MustNote(_) | Stopping => !p.generated && HeldBack(p) && Untouched(s, p)
    case Failing(_) => !p.generated && !s.setup.Loaded?
    case Aborted(_) => !p.generated
    case Ended =>
      if !s.setup.Loaded? then !p.generated
      else if s.reports == 0 then !p.generated && HeldBack(p) && Untouched(s, p)
      else p.generated && !p.failed && Dealt(s, p)
    case _ => p.generated && !p.failed && Dealt(s, p)
  }

  predicate PreflightInv(s: State, p: Preflight) {
    && (p.replay.Some? ==> Replayable(s, p)) && PhaseTells(s, p)
    && (!(s.phase.Begun? || s.phase.Aborted? || s.phase.Failing? || s.phase.Ended?) ==> s.setup.Loaded?)
  }

  /** The slot was empty, or what was in it has been dealt with. */
  predicate Dealt(s: State, p: Preflight) {
    && p.found.Some? && p.replay != Some(Refused(true))
    && (Replayable(s, p) ==> p.replay.Some?)
  }

  predicate HeldBack(p: Preflight) {
    p.failed || p.replay == Some(Refused(true))
  }

  lemma PreflightStep(s: State, a: Act, p: Preflight)
    requires Agrees(s) && Allowed(s, a) && PreflightInv(s, p) && !a.Begin?
    requires !s.phase.Ended? ==> s.reports == 0
    ensures PreflightInv(Next(s, a), PreflightAfter(p, a))
  {
    if p.generated {
      StepGenerated(s, a, p);
    } else {
      StepBefore(s, a, p);
    }
  }

  lemma StepGenerated(s: State, a: Act, p: Preflight)
    requires Agrees(s) && Allowed(s, a) && PreflightInv(s, p) && !a.Begin? && p.generated
    requires !s.phase.Ended? ==> s.reports == 0
    ensures PreflightInv(Next(s, a), PreflightAfter(p, a))
  {
  }

  lemma StepBefore(s: State, a: Act, p: Preflight)
    requires Agrees(s) && Allowed(s, a) && PreflightInv(s, p) && !a.Begin? && !p.generated
    requires !s.phase.Ended? ==> s.reports == 0
    ensures PreflightInv(Next(s, a), PreflightAfter(p, a))
  {
  }

  lemma PreflightGrows(h: seq<Act>)
    requires |h| > 0
    ensures var a := h[|h| - 1];
      PreflightOf(Invocation(h)) == if a.Begin? then PreflightOf([]) else PreflightAfter(PreflightOf(Invocation(h[..|h| - 1])), a)
  {
    var a := h[|h| - 1];
    var acts := if a.Begin? then [] else Invocation(h[..|h| - 1]);
    assert Invocation(h) == acts + [a] && (acts + [a])[..|acts|] == acts;
  }

  lemma {:induction false} PreflightHolds(slot: Slot, h: seq<Act>)
    requires Lawful(slot, h)
    ensures PreflightInv(After(slot, h), PreflightOf(Invocation(h)))
    decreases |h|
  {
    if |h| > 0 {
      var before, a := h[..|h| - 1], h[|h| - 1];
      PreflightHolds(slot, before);
      AlwaysAgrees(slot, before);
      ReportsOnce(slot, before);
      PreflightGrows(h);
      if !a.Begin? {
        PreflightStep(After(slot, before), a, PreflightOf(Invocation(before)));
      }
    }
  }

  /** A finished invocation did not start its run exactly if it was held back: something failed,
      or the record that it found was refused again and may be delivered later.  A record is
      replayed if it is due, unless the invocation is held back before, and a stop leaves it in
      the slot. */
  lemma StopsExactlyWhenHeldBack(slot: Slot, h: seq<Act>)
    requires Lawful(slot, h) && After(slot, h).phase.Ended? && After(slot, h).setup.Loaded?
    ensures var s, p := After(slot, h), PreflightOf(Invocation(h));
      && (!StartsRun(Invocation(h)) <==> HeldBack(p))
      && (p.replay.Some? ==> Replayable(s, p)) && (StartsRun(Invocation(h)) ==> Dealt(s, p))
      && (!StartsRun(Invocation(h)) ==> Untouched(s, p))
  {
    PreflightHolds(slot, h);
    Accounts(slot, h);
    ReportsOnce(slot, h);
  }

  // From generation on

  /** What an invocation's acts say of its own output: how its delivery last went, how often it
      was tried, and what went wrong besides. */
  datatype Tale = Tale(
    produced: Option<Act>, delivery: Option<Delivery>, tries: nat, gaveUpWaiting: bool, blocked: bool, report: Option<Act>)

  function TaleOf(acts: seq<Act>): Tale
    decreases |acts|
  {
    if |acts| == 0 then Tale(None, None, 0, false, false, None)
    else TaleAfter(TaleOf(acts[..|acts| - 1]), acts[|acts| - 1])
  }

  function TaleAfter(t: Tale, a: Act): Tale {
    match a
    case Produce(_, _, _) => Tale(Some(a), None, 0, false, false, t.report)
    case Attempt(_, _, delivery) => t.(delivery := Some(delivery), tries := t.tries + 1)
    case CannotWait(queueable) => t.(delivery := Some(Refused(queueable)), gaveUpWaiting := true)
    case CannotRead | CannotStore => t.(blocked := true)
    case Finalize(_, _, _) => t.(report := Some(a))
    case _ => t
  }

  /** The text that the invocation has to deliver. */
  function Made(s: State, t: Tale): Option<string> {
    if t.produced.Some? && Makes(s, t.produced.value) then Some(t.produced.value.payload) else None
  }

  /** All attempts were made, or waiting for one failed. */
  predicate Exhausted(t: Tale) {
    t.tries == 3 || t.gaveUpWaiting
  }

  /** An output refused for now is in the slot; after any other outcome the slot is empty. */
  function SlotLeft(s: State, t: Tale): Slot {
    if Made(s, t).Some? && t.delivery == Some(Refused(true)) && !t.blocked
    then Full(Record(s.run, Output, Made(s, t).value, TargetOf(s), s.now, 0)) else Empty
  }

  datatype Report = Report(success: bool, terminal: Terminal)

  /** What is to be reported. */
  function ReportDue(s: State, t: Tale): Report {
    match s.setup
    case NoTask => Report(false, UsageError)
    case NoCron => Report(false, ConfigurationFailed)
    case Loaded(cron) =>
      if t.produced.None? || !t.produced.value.Produce? then Report(false, ExecutionFailed)
      else
        var made := t.produced.value;
        if made.payload == "" then Report(made.success, EmptyOutput)
        else if made.noReply && !cron.isScript then Report(made.success, NoReply)
        else if t.delivery == Some(Delivered) then Report(made.success, SentOutput)
        else Report(false, DeliveryFailed)
  }

  predicate InHand(s: State, t: Tale, payload: string, success: bool) {
    && s.setup.Loaded? && Made(s, t) == Some(payload) && t.produced.value.success == success
    && !t.blocked && s.slot.Empty?
  }

  predicate TaleInv(s: State, t: Tale) {
    && (t.produced.Some? ==> t.produced.value.Produce? && s.setup.Loaded?)
    && (t.report.Some? <==> s.phase.Ended? && s.reports == 1)
    && match s.phase
       case Owing(payload, success) => InHand(s, t, payload, success) && t.delivery.None? && t.tries == 0 && !t.gaveUpWaiting
       case Unsent(payload, success, queueable, tries) =>
         && InHand(s, t, payload, success) && t.delivery == Some(Refused(queueable)) && tries <= ATTEMPTS
         && (if t.gaveUpWaiting then tries == ATTEMPTS else t.tries == tries)
       case MayQueue(payload) =>
         && s.setup.Loaded? && Made(s, t) == Some(payload) && t.delivery == Some(Refused(true)) && Exhausted(t) && !t.blocked
       case Queueing(_, _, _, _) =>
         s.setup.Loaded? && Made(s, t).Some? && t.delivery == Some(Refused(true)) && Exhausted(t) && s.slot == SlotLeft(s, t)
       case Finished(terminal, success) =>
         && s.setup.Loaded? && ReportDue(s, t) == Report(success, terminal) && s.slot == SlotLeft(s, t)
         && (Made(s, t).Some? ==> t.delivery == Some(Delivered))
       case Ended => if s.reports == 1 then Concluded(s, t) else t.produced.None?
       case Failing(terminal) => t.produced.None? && ReportDue(s, t) == Report(false, terminal) && !s.setup.Loaded?
       case Begun | Aborted(_) => t.produced.None?
       case _ => t.produced.None? && s.setup.Loaded?
  }

  predicate Concluded(s: State, t: Tale) {
    && t.report.Some? && t.report.value.Finalize? && Report(t.report.value.success, t.report.value.terminal) == ReportDue(s, t)
    && (Made(s, t).Some? ==> t.delivery.Some? && (t.delivery.value.Refused? ==> Exhausted(t)))
    && (s.setup.Loaded? ==> s.slot == SlotLeft(s, t))
  }

  lemma TaleStep(s: State, a: Act, t: Tale)
    requires Agrees(s) && Allowed(s, a) && TaleInv(s, t) && !a.Begin? && s.reports <= 1
    requires !s.phase.Ended? ==> s.reports == 0
    ensures TaleInv(Next(s, a), TaleAfter(t, a))
  {
    if OfDelivery(a) {
      DeliveryStep(s, a, t);
    } else {
      OtherStep(s, a, t);
    }
  }

  predicate OfDelivery(a: Act) {
    a.Attempt? || a.CannotWait? || a.Produce?
  }

  lemma DeliveryStep(s: State, a: Act, t: Tale)
    requires Agrees(s) && Allowed(s, a) && TaleInv(s, t) && OfDelivery(a)
    ensures TaleInv(Next(s, a), TaleAfter(t, a))
  {
  }

  lemma OtherStep(s: State, a: Act, t: Tale)
    requires Agrees(s) && Allowed(s, a) && TaleInv(s, t) && !OfDelivery(a) && !a.Begin? && s.reports <= 1
    requires !s.phase.Ended? ==> s.reports == 0
    ensures TaleInv(Next(s, a), TaleAfter(t, a))
  {
  }

  lemma TaleGrows(h: seq<Act>)
    requires |h| > 0
    ensures var a := h[|h| - 1];
      TaleOf(Invocation(h)) == if a.Begin? then TaleOf([]) else TaleAfter(TaleOf(Invocation(h[..|h| - 1])), a)
  {
    var a := h[|h| - 1];
    var acts := if a.Begin? then [] else Invocation(h[..|h| - 1]);
    assert Invocation(h) == acts + [a] && (acts + [a])[..|acts|] == acts;
  }

  lemma {:induction false} TaleHolds(slot: Slot, h: seq<Act>)
    requires Lawful(slot, h)
    ensures TaleInv(After(slot, h), TaleOf(Invocation(h)))
    decreases |h|
  {
    if |h| > 0 {
      var before, a := h[..|h| - 1], h[|h| - 1];
      TaleHolds(slot, before);
      AlwaysAgrees(slot, before);
      ReportsOnce(slot, before);
      TaleGrows(h);
      if !a.Begin? {
        TaleStep(After(slot, before), a, TaleOf(Invocation(before)));
      }
    }
  }

  /** The output has been delivered or was refused after every attempt, and it is in the slot
      exactly if it was refused for now, unless the slot could not be read or written. */
  predicate KeptOrDelivered(s: State, t: Tale, output: string) {
    && s.setup.Loaded? && t.delivery.Some? && (t.delivery.value.Refused? ==> Exhausted(t))
    && s.slot == if t.delivery == Some(Refused(true)) && !t.blocked
                 then Full(Record(s.run, Output, output, s.setup.cron.target, s.now, 0)) else Empty
  }

  lemma ConcludedKeeps(s: State, t: Tale, output: string)
    requires TaleInv(s, t) && s.phase.Ended? && Made(s, t) == Some(output)
    ensures KeptOrDelivered(s, t, output)
  {
  }

  /** What becomes of the output of every invocation that has ended. */
  lemma OutputIsKept(slot: Slot, h: seq<Act>, output: string)
    requires Lawful(slot, h) && After(slot, h).phase.Ended?
    requires Made(After(slot, h), TaleOf(Invocation(h))) == Some(output)
    ensures KeptOrDelivered(After(slot, h), TaleOf(Invocation(h)), output)
  {
    TaleHolds(slot, h);
    ConcludedKeeps(After(slot, h), TaleOf(Invocation(h)), output);
  }

  predicate Reported(s: State, t: Tale) {
    && t.report.Some? && t.report.value.Finalize?
    && Report(t.report.value.success, t.report.value.terminal) == ReportDue(s, t)
  }

  /** The report is the one that the acts call for. */
  lemma ReportTells(slot: Slot, h: seq<Act>)
    requires Lawful(slot, h) && After(slot, h).phase.Ended? && StartsRun(Invocation(h))
    ensures Reported(After(slot, h), TaleOf(Invocation(h)))
  {
    TaleHolds(slot, h);
    Accounts(slot, h);
  }

  /** All that the acts of a finished invocation tell. */
  ghost predicate Told(s: State, acts: seq<Act>) {
    var p, t := PreflightOf(acts), TaleOf(acts);
    s.phase.Ended? ==>
      && (Made(s, t).Some? ==> KeptOrDelivered(s, t, Made(s, t).value))
      && (StartsRun(acts) ==> Reported(s, t))
      && (s.setup.Loaded? ==> (StartsRun(acts) <==> !HeldBack(p)) && (if StartsRun(acts) then Dealt(s, p) else Untouched(s, p)))
  }

  lemma InvocationsAreTold(slot: Slot, h: seq<Act>)
    requires Lawful(slot, h)
    ensures Told(After(slot, h), Invocation(h))
  {
    var s, acts := After(slot, h), Invocation(h);
    if s.phase.Ended? {
      if Made(s, TaleOf(acts)).Some? {
        OutputIsKept(slot, h, Made(s, TaleOf(acts)).value);
      }
      if StartsRun(acts) {
        ReportTells(slot, h);
      }
      if s.setup.Loaded? {
        StopsExactlyWhenHeldBack(slot, h);
      }
    }
  }
}
