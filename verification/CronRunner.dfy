/** One invocation of the cron runner.  Whatever it calls may fail, and logging may throw;
    every act it takes is one that the outbox protocol allows. */
module CronRunner {
  import opened Common
  import opened CronOutbox
  import opened CronPromises

  /** What a script or a language model came back with, and whether the text says that there is
      nothing to say. */
  datatype Generated = Generated(output: string, noReply: bool, success: bool)

  datatype End = Returned | Exited | Threw

  const DELIVERY_RETRIES := 2

  /** How an invocation ends, by its last act: failures to log and to report throw. */
  ghost predicate EndsAs(acts: seq<Act>, end: End) {
    |acts| > 0 &&
    match acts[|acts| - 1]
    case CannotLog => end.Threw?
    case Stop => end.Exited?
    case Finalize(success, _, completed) =>
      && (!completed ==> end.Threw?) && (end.Returned? ==> success)
      && (completed && CannotLog !in acts ==> end == if success then Returned else Exited)
    case _ => false
  }

  function SetupOf(hasTask: bool, cron: Option<Cron>): Setup {
    if !hasTask then NoTask else if cron.None? then NoCron else Loaded(cron.value)
  }

  class Runner {
    /** The durable slot. */
    var slot: Slot
    var terminalFinalized: bool

    // The history of all invocations over the slot, and where this one began.
    ghost const initial: Slot
    ghost var trace: seq<Act>
    ghost var states: seq<State>
    ghost var begun: nat

    constructor (slot: Slot)
      ensures Valid() && this.slot == slot && initial == slot && trace == []
    {
      this.slot, initial := slot, slot;
      terminalFinalized, trace, states, begun := false, [], [Start(slot)], 0;
    }

    ghost predicate Valid()
      reads this
    {
      && Recorded(initial, states, trace) && Now().slot == slot && begun <= |trace|
      && Now().completed == terminalFinalized
      && (!Phase().Ended? ==> Now().reports == 0)
    }

    ghost function Now(): State
      requires |states| == |trace| + 1
      reads this
    {
      states[|trace|]
    }

    ghost function Phase(): Phase
      requires |states| == |trace| + 1
      reads this
    {
      Now().phase
    }

    /** The acts of this invocation. */
    ghost function Acts(): seq<Act>
      requires begun <= |trace|
      reads this
    {
      trace[begun..]
    }

    /** The history goes on, within the same invocation. */
    twostate predicate Onward()
      requires |states| == |trace| + 1 && |old(states)| == |old(trace)| + 1
      reads this
    {
      && old(trace) <= trace && begun == old(begun)
      && Now().run == old(Now().run) && Now().setup == old(Now().setup) && Now().now == old(Now().now)
    }

    /** The next act of the history, and the phase it leads to. */
    ghost method Mark(a: Act, next: Phase)
      requires Valid() && NextPhase(Now(), a) == Some(next) && !a.Begin? && !a.Finalize? && NextSlot(slot, a) == slot
      modifies this`trace, this`states
      ensures Valid() && Onward() && Phase() == next && Now().reports == old(Now().reports)
      ensures trace == old(trace) + [a] && Acts() == old(Acts()) + [a]
    {
      RecordMore(initial, states, trace, a);
      trace, states := trace + [a], states + [Next(Now(), a)];
    }

    // What the runner calls

    /** Something is said, or logging throws. */
    method Logs() returns (ok: bool)
      requires Valid() && AfterNoLog(Now()).Some?
      modifies this`trace, this`states
      ensures Valid() && Onward() && Now().reports == old(Now().reports)
      ensures ok ==> trace == old(trace) && Now() == old(Now())
      ensures !ok ==> Acts() == old(Acts()) + [CannotLog] && Some(Phase()) == AfterNoLog(old(Now()))
    {
      ok := *;
      if !ok {
        Mark(CannotLog, AfterNoLog(Now()).value);
      }
    }

    method ReadOutbox() returns (found: Option<Slot>)
      requires Valid() && Allowed(Now(), Found(slot)) && Allowed(Now(), CannotRead)
      modifies this`trace, this`states
      ensures Valid() && Onward() && (found.Some? ==> found.value == slot)
      ensures NextPhase(old(Now()), if found.Some? then Found(slot) else CannotRead) == Some(Phase())
    {
      if * {
        Mark(CannotRead, NextPhase(Now(), CannotRead).value);
        return None;
      }
      Mark(Found(slot), NextPhase(Now(), Found(slot)).value);
      found := Some(slot);
    }

    ghost method Change(a: Act, next: Phase)
      requires Recorded(initial, states, trace) && (a.Clear? || a.Store?) && NextPhase(Now(), a) == Some(next)
      requires slot == NextSlot(Now().slot, a) && Now().completed == terminalFinalized && Now().reports == 0 && begun <= |trace|
      modifies this`trace, this`states
      ensures Valid() && Onward() && Phase() == next
    {
      RecordMore(initial, states, trace, a);
      trace, states := trace + [a], states + [Next(Now(), a)];
    }

    method ClearOutbox(why: Disposition) returns (ok: bool)
      requires Valid() && Due(Now()) == Some(why)
      modifies this`trace, this`states, this`slot
      ensures Valid() && Onward() && Phase() == if ok then Gone(HeldRecord(old(Phase())), why) else MustNote(ClearFailed)
    {
      if * {
        Mark(CannotClear, MustNote(ClearFailed));
        return false;
      }
      slot := Empty;
      Change(Clear(why), Gone(HeldRecord(Phase()), why));
      ok := true;
    }

    method WriteOutbox(r: Record) returns (ok: bool)
      requires Valid() && Allowed(Now(), Store(r)) && Allowed(Now(), CannotStore)
      modifies this`trace, this`states, this`slot
      ensures Valid() && Onward() && (if ok then slot == Full(r) else slot == old(slot))
      ensures NextPhase(old(Now()), if ok then Store(r) else CannotStore) == Some(Phase())
    {
      if * {
        Mark(CannotStore, NextPhase(Now(), CannotStore).value);
        return false;
      }
      slot := Full(r);
      Change(Store(r), NextPhase(Now(), Store(r)).value);
      ok := true;
    }

    method Deliver(payload: string, target: Target) returns (d: Delivery)
      requires Valid() && Allowed(Now(), Attempt(payload, target, Delivered))
      modifies this`trace, this`states
      ensures Valid() && Onward() && NextPhase(old(Now()), Attempt(payload, target, d)) == Some(Phase())
    {
      d := *;
      Mark(Attempt(payload, target, d), NextPhase(Now(), Attempt(payload, target, d)).value);
    }

    /** Runs the script or asks the model; a script that returns has succeeded. */
    method RunTask(isScript: bool) returns (made: Option<Generated>)
      requires Valid() && Phase().Generating? && Now().setup.Loaded? && Now().setup.cron.isScript == isScript
      modifies this`trace, this`states
      ensures Valid() && Onward()
      ensures made.Some? && isScript ==> made.value.success
      ensures NextPhase(old(Now()), if made.Some? then Produce(made.value.output, made.value.noReply, made.value.success)
                                    else FailToProduce) == Some(Phase())
    {
      if * {
        Mark(FailToProduce, Finished(ExecutionFailed, false));
        return None;
      }
      var output: string, noReply, success := *, *, *;
      success := success || isScript;
      Mark(Produce(output, noReply, success), NextPhase(Now(), Produce(output, noReply, success)).value);
      made := Some(Generated(output, noReply, success));
    }

    /** The one terminal report.  It is recorded before the metric is written, and that may
        fail, which throws. */
    method FinalizeInvocation(success: bool, terminal: Terminal) returns (ok: bool)
      requires Valid() && Allowed(Now(), Finalize(success, terminal, true)) && !terminalFinalized
      modifies this`trace, this`states, this`terminalFinalized
      ensures Valid() && Onward() && terminalFinalized == ok && Phase().Ended? && Now().reports == 1
      ensures Acts() == old(Acts()) + [Finalize(success, terminal, ok)]
    {
      ok := *;
      ghost var a := Finalize(success, terminal, ok);
      RecordMore(initial, states, trace, a);
      trace, states := trace + [a], states + [Next(Now(), a)];
      terminalFinalized := ok;
    }

    // Preflight

    /** The invocation is over without a report, and owes none. */
    ghost predicate Stopped(end: End)
      requires |states| == |trace| + 1
      reads this
    {
      && begun < |trace| && EndsAs(Acts(), end) && Now().reports == 0
      && ((Phase().Ended? && end.Exited?) || (Phase().Aborted? && end.Threw?))
    }

    /** Says why, and stops. */
    method StopAfter(disposition: Disposition) returns (end: Option<End>)
      requires Valid() && NextPhase(Now(), Note(disposition)) == Some(Stopping) && Phase().MustNote?
      modifies this`trace, this`states
      ensures Valid() && Onward() && end.Some? && Stopped(end.value)
    {
      var logged := Logs();
      if !logged {
        return Some(Threw);
      }
      Mark(Note(disposition), Stopping);
      Mark(Stop, Ended);
      end := Some(Exited);
    }

    /** Clears the slot, and says why. */
    method Drop(why: Disposition) returns (end: Option<End>)
      requires Valid() && Due(Now()) == Some(why) && !why.DroppedCorrupt?
      modifies this`trace, this`states, this`slot
      ensures Valid() && Onward() && (end.None? ==> Phase().Ready?)
      ensures end.Some? ==> Stopped(end.value)
    {
      var cleared := ClearOutbox(why);
      if !cleared {
        end := StopAfter(ClearFailed);
        return;
      }
      var logged := Logs();
      if !logged {
        return Some(Threw);
      }
      Mark(Note(why), Ready);
      end := None;
    }

    method DropCorrupt() returns (end: Option<End>)
      requires Valid() && Phase().HoldingCorrupt?
      modifies this`trace, this`states, this`slot
      ensures Valid() && Onward() && (end.None? ==> Phase().Ready?)
      ensures end.Some? ==> Stopped(end.value)
    {
      var cleared := ClearOutbox(DroppedCorrupt);
      if cleared {
        var logged := Logs();
        if logged {
          Mark(Note(DroppedCorrupt), Ready);
          return None;
        }
      }
      end := StopAfter(ClearFailed);
    }

    /** Clears a record that was refused for good, and tells the administrator. */
    method DropUndeliverable() returns (end: Option<End>)
      requires Valid() && Due(Now()) == Some(Undeliverable)
      modifies this`trace, this`states, this`slot
      ensures Valid() && Onward() && (end.None? ==> Phase().Ready?)
      ensures end.Some? ==> Stopped(end.value)
    {
      end := Drop(Undeliverable);
      if end.None? {
        var notified := Logs();
        end := if notified then None else Some(Threw);
      }
    }

    /** One attempt at a pending record; only success or a permanent failure clears it. */
    method Replay(r: Record) returns (end: Option<End>)
      requires Valid() && Phase() == Holding(r) && Due(Now()).None?
      modifies this`trace, this`states, this`slot
      ensures Valid() && Onward() && (end.None? ==> Phase().Ready?)
      ensures end.Some? ==> Stopped(end.value)
    {
      var d := Deliver(r.payload, r.target);
      match d {
        case Delivered => end := Drop(Redelivered);
        case Refused(queueable) =>
          if !queueable {
            end := DropUndeliverable();
            return;
          }
          var written := WriteOutbox(r.(attempts := r.attempts + 1));
          end := StopAfter(if written then Deferred else DeferFailed);
      }
    }

    /** Settles what an earlier run left, or stops this invocation. */
    method Preflight(cron: Cron, now: int) returns (end: Option<End>)
      requires Valid() && Phase().Begun? && Now().setup == Loaded(cron) && Now().now == now
      modifies this`trace, this`states, this`slot
      ensures Valid() && Onward() && (end.None? ==> Phase().Ready?)
      ensures end.Some? ==> Stopped(end.value)
    {
      var pending := ReadOutbox();
      if pending.None? {
        end := StopAfter(ReadFailed);
        return;
      }
      match pending.value {
        case Empty => end := None;
        case Corrupt => end := DropCorrupt();
        case Full(r) =>
          if r.kind.FailureNotice? {
            end := Drop(DroppedLegacy);
          } else if cron.deliveryMaxAge.Some? && now - r.createdAt >= cron.deliveryMaxAge.value {
            end := Drop(DroppedExpired(now - r.createdAt, cron.deliveryMaxAge.value));
          } else {
            end := Replay(r);
          }
      }
    }

    // The run

    /** The delay before a retry failed, and that error counts as the delivery's. */
    method FailToWait(payload: string, ghost success: bool) returns (d: Delivery)
      requires Valid() && Phase().Unsent? && Phase().tries < ATTEMPTS && Phase().payload == payload && Phase().success == success
      modifies this`trace, this`states
      ensures Valid() && Onward() && d.Refused? && Phase() == Unsent(payload, success, d.queueable, ATTEMPTS)
    {
      var queueable: bool := *;
      Mark(CannotWait(queueable), Unsent(payload, success, queueable, ATTEMPTS));
      d := Refused(queueable);
    }

    method DeliverWithRetry(payload: string, target: Target, ghost success: bool) returns (d: Delivery)
      requires Valid() && Phase() == Owing(payload, success) && TargetOf(Now()) == target
      modifies this`trace, this`states
      ensures Valid() && Onward()
      ensures Phase() == if d.Delivered? then Finished(SentOutput, success) else Unsent(payload, success, d.queueable, ATTEMPTS)
    {
      d := Deliver(payload, target);
      var retries := 0;
      while !d.Delivered? && retries < DELIVERY_RETRIES
        invariant Valid() && Onward() && retries <= DELIVERY_RETRIES
        invariant Phase() == AfterAttempt(payload, success, retries, d)
      {
        var waited: bool := *;
        if !waited {
          d := FailToWait(payload, success);
          return;
        }
        d := Deliver(payload, target);
        retries := retries + 1;
      }
    }

    /** What was said is said, or else logging threw both times, or the only time. */
    ghost predicate Said(threw: bool)
      requires |states| == |trace| + 1
      reads this
    {
      && Phase().Queueing? && Phase().say.None? && Phase().again.None? && begun <= |trace| && (threw ==> CannotLog in Acts())
    }

    method Say(d: Disposition) returns (ok: bool)
      requires Valid() && Phase().Queueing? && Phase().say == Some(d)
      modifies this`trace, this`states
      ensures Valid() && Onward() && Phase().Queueing?
      ensures Phase().stored == old(Phase()).stored
      ensures if ok then Phase().say.None? && Phase().again.None? else Phase() == Queueing(old(Phase()).stored, old(Phase()).noted, old(Phase()).again, None)
      ensures !ok ==> CannotLog in Acts()
    {
      ok := Logs();
      if ok {
        Mark(Note(d), Queueing(Phase().stored, true, None, None));
      }
    }

    /** Keeps an undelivered output for a later invocation, unless something is in the slot. */
    method QueueOutputIfEmpty(runId: string, payload: string, target: Target, now: int) returns (threw: bool)
      requires Valid() && GaveUp(Phase()) && Phase().queueable && Phase().payload == payload
      requires Now().run == runId && TargetOf(Now()) == target && Now().now == now
      modifies this`trace, this`states, this`slot
      ensures Valid() && Onward() && Said(threw)
      ensures slot == if Phase().stored then Full(Record(runId, Output, payload, target, now, 0)) else old(slot)
      ensures Phase().stored ==> old(slot).Empty?
    {
      var said;
      var found := ReadOutbox();
      if found.None? {
        said := Say(QueueSkipped);
        return !said;
      }
      if found.value != Empty {
        said := Say(QueueSkipped);
        if !said {
          said := Say(QueueSkipped);
        }
        return !said;
      }
      var stored := WriteOutbox(Record(runId, Output, payload, target, now, 0));
      if stored {
        said := Say(Queued);
        if said {
          return false;
        }
      }
      said := Say(QueueFailed);
      threw := !said;
    }

    /** The report is made, and the invocation ends in its success or failure. */
    method Conclude(success: bool, terminal: Terminal) returns (end: End)
      requires Valid() && Phase() == Finished(terminal, success) && !terminalFinalized
      modifies this`trace, this`states, this`terminalFinalized
      ensures Valid() && Onward() && Reported(end)
    {
      var reported := FinalizeInvocation(success, terminal);
      if !reported {
        return Threw;
      }
      var logged := Logs();
      if !logged {
        return Threw;
      }
      if !success {
        return Exited;
      }
      logged := Logs();
      end := if logged then Returned else Threw;
    }

    /** The failure is logged, and reported even if that throws. */
    method ConcludeFailure(terminal: Terminal) returns (end: End)
      requires Valid() && (Phase() == Failing(terminal) || Phase() == Finished(terminal, false)) && !terminalFinalized
      modifies this`trace, this`states, this`terminalFinalized
      ensures Valid() && Onward() && Reported(end) && !end.Returned?
    {
      var logged := Logs();
      var reported := FinalizeInvocation(false, terminal);
      end := if logged && reported then Exited else Threw;
    }

    /** The invocation is over, with its report. */
    ghost predicate Reported(end: End)
      requires |states| == |trace| + 1
      reads this
    {
      && begun < |trace| && EndsAs(Acts(), end)
      && Phase().Ended? && Now().reports == 1 && (terminalFinalized || end.Threw?)
    }

    /** Delivers an output, or keeps it if it may be delivered later. */
    method DeliverOutput(runId: string, output: string, target: Target, success: bool, now: int) returns (end: End)
      requires Valid() && Phase() == Owing(output, success) && !terminalFinalized
      requires Now().run == runId && TargetOf(Now()) == target && Now().now == now
      modifies this
      ensures Valid() && Onward() && Reported(end)
    {
      var d := DeliverWithRetry(output, target, success);
      if d.Delivered? {
        end := Conclude(success, SentOutput);
        return;
      }
      var threw := false;
      if d.queueable {
        threw := QueueOutputIfEmpty(runId, output, target, now);
      }
      var handled := Logs();
      var reported := FinalizeInvocation(false, DeliveryFailed);
      end := if threw || !handled || !reported then Threw else Exited;
    }

    /** Generates, delivers or queues, and reports; whatever fails, the report is made once. */
    method Execute(runId: string, cron: Cron, now: int) returns (end: End)
      requires Valid() && Phase().Ready? && !terminalFinalized
      requires Now().run == runId && Now().setup == Loaded(cron) && Now().now == now
      modifies this
      ensures Valid() && Onward() && Reported(end)
    {
      Mark(Generate, Generating);
      var made := RunTask(cron.isScript);
      if made.None? {
        end := ConcludeFailure(ExecutionFailed);
        return;
      }
      if made.value.output == "" {
        end := Conclude(made.value.success, EmptyOutput);
      } else if !cron.isScript && made.value.noReply {
        end := Conclude(made.value.success, NoReply);
      } else {
        end := DeliverOutput(runId, made.value.output, cron.target, made.value.success, now);
      }
    }

    method FailBefore(terminal: Terminal) returns (end: End)
      requires Valid() && Allowed(Now(), Fail(terminal)) && !terminalFinalized
      modifies this
      ensures Valid() && Onward() && Reported(end) && !end.Returned?
    {
      Mark(Fail(terminal), Failing(terminal));
      if terminal.ConfigurationFailed? {
        end := ConcludeFailure(terminal);
        return;
      }
      var reported := FinalizeInvocation(false, terminal);
      end := if reported then Exited else Threw;
    }

    method BeginInvocation(runId: string, setup: Setup, now: int)
      requires Valid() && Unused(initial, trace, runId)
      modifies this`trace, this`states, this`terminalFinalized, this`begun
      ensures Valid() && trace == old(trace) + [Begin(runId, setup, now)] && begun == |old(trace)|
      ensures Phase().Begun? && Now().run == runId && Now().setup == setup && Now().now == now && !terminalFinalized
    {
      ghost var a := Begin(runId, setup, now);
      begun := |trace|;
      RecordMore(initial, states, trace, a);
      trace, states := trace + [a], states + [Next(Now(), a)];
      terminalFinalized := false;
    }

    /** One invocation: it goes on from any history with acts that are allowed, reports exactly
        once if it fails before its run or its run begins and otherwise not at all, and what its
        acts tell of the slot, of its output and of its report is so. */
    method Run(runId: string, hasTask: bool, cron: Option<Cron>, now: int) returns (end: End)
      requires Valid() && Unused(initial, trace, runId)
      modifies this
      ensures Valid() && begun == |old(trace)| && old(trace) + [Begin(runId, SetupOf(hasTask, cron), now)] <= trace
      ensures Now().run == runId && Now().setup == SetupOf(hasTask, cron) && Now().now == now
      ensures Lawful(initial, trace) && After(initial, trace) == Now()
      ensures (Phase().Ended? || (Phase().Aborted? && trace[|trace| - 1].CannotLog?)) && EndsAs(Acts(), end)
      ensures Reports(Acts()) == (if StartsRun(Acts()) then 1 else 0)
      ensures StartsRun(Acts()) ==> Phase().Ended? && (terminalFinalized || end.Threw?)
      ensures !StartsRun(Acts()) ==> !end.Returned? && !terminalFinalized
      ensures !hasTask || (cron.None? && !end.Threw?) ==> StartsRun(Acts())
      ensures Told(Now(), Acts())
    {
      BeginInvocation(runId, SetupOf(hasTask, cron), now);
      end := Invoke(runId, hasTask, cron, now);
      Account(initial, trace, states, begun, runId);
    }

    static lemma Account(initial: Slot, trace: seq<Act>, states: seq<State>, k: nat, runId: string)
      requires Recorded(initial, states, trace) && k < |trace| && Begins(trace[k], runId) && states[|trace|].run == runId
      ensures var s, acts := states[|trace|], trace[k..];
        && Lawful(initial, trace) && After(initial, trace) == s && Reports(acts) == s.reports
        && (StartsRun(acts) <==> OwesReport(s.phase) || (s.phase.Ended? && s.reports == 1))
        && (s.phase.Ended? && s.reports == 0 ==> trace[|trace| - 1].Stop?)
        && s.reports <= 1 && (s.completed ==> s.reports == 1) && Told(s, acts)
    {
      RecordedIsLawful(initial, states, trace);
      InvocationBegins(initial, trace, k, runId);
      Accounts(initial, trace);
      CompletedReports(initial, trace);
      InvocationsAreTold(initial, trace);
      if states[|trace|].phase.Ended? {
        FinishedInvocationsReport(initial, trace);
      }
    }

    method Invoke(runId: string, hasTask: bool, cron: Option<Cron>, now: int) returns (end: End)
      requires Valid() && Phase().Begun? && !terminalFinalized && begun < |trace|
      requires Now().run == runId && Now().setup == SetupOf(hasTask, cron) && Now().now == now
      modifies this
      ensures Valid() && Onward()
      ensures Stopped(end) || Reported(end)
      ensures !hasTask || (cron.None? && !end.Threw?) ==> Reported(end)
    {
      if !hasTask {
        end := FailBefore(UsageError);
        return;
      }
      var logged := Logs();
      if !logged {
        return Threw;
      }
      if cron.None? {
        end := FailBefore(ConfigurationFailed);
        return;
      }
      logged := Logs();
      if !logged {
        return Threw;
      }
      var stopped := Preflight(cron.value, now);
      if stopped.Some? {
        return stopped.value;
      }
      end := Execute(runId, cron.value, now);
    }
  }
}
