/** The polling watchdog: it restarts the process at most once, and only for a poller that
    has stalled although the API can be reached. */
module PollingWatchdog {
  import opened Common

  datatype Progress = Progress(initializedAtMs: int, lastPollSucceededAtMs: Option<int>, lastPollFailedAtMs: Option<int>)

  datatype Update = NotProcessing | ProcessingSince(startedAtMs: int)

  function Max(a: int, b: int): int {
    if a < b then b else a
  }

  /** How long nothing has been polled, as far as this watchdog has watched. */
  function PollProgressAgeMs(p: Progress, nowMs: int, monitoringStartedAtMs: int): int {
    Max(0, nowMs - Max(p.lastPollSucceededAtMs.GetOr(p.initializedAtMs), monitoringStartedAtMs))
  }

  /** The age reaches a threshold exactly when both the last success and the start of
      watching are that long ago. */
  lemma AgeMeaning(p: Progress, nowMs: int, startedAtMs: int, thresholdMs: int)
    requires thresholdMs > 0
    ensures PollProgressAgeMs(p, nowMs, startedAtMs) >= thresholdMs
      <==> nowMs - startedAtMs >= thresholdMs && nowMs - p.lastPollSucceededAtMs.GetOr(p.initializedAtMs) >= thresholdMs
  {
  }

  /** What the checks have found about connectivity. */
  datatype Finding = Sound | Unreachable | Reachable(at: int)

  /** The first success in the unbroken row of successes at the end. */
  function ReachableSince(h: seq<Finding>): Option<int>
    decreases |h|
  {
    if |h| == 0 || !h[|h| - 1].Reachable? then None
    else
      var before := ReachableSince(h[..|h| - 1]);
      if before.Some? then before else Some(h[|h| - 1].at)
  }

  predicate Outstanding(h: seq<Finding>) {
    |h| > 0 && !h[|h| - 1].Sound?
  }

  /** It is when reachability came back, if it has not been lost since. */
  lemma {:induction false} ReachableSinceMeaning(h: seq<Finding>, t: int)
    ensures ReachableSince(h) == Some(t) <==> exists i | 0 <= i < |h| :: BeganAt(h, i, t)
    decreases |h|
  {
    if |h| > 0 && h[|h| - 1].Reachable? {
      var n := |h| - 1;
      ReachableSinceMeaning(h[..n], t);
      SomeReachable(h[..n]);
      forall i | 0 <= i < n
        ensures BeganAt(h, i, t) <==> BeganAt(h[..n], i, t)
      {
        assert BeganAt(h, i, t) ==> forall j | i <= j < n :: h[j].Reachable?;
      }
      if ReachableSince(h) == Some(t) && ReachableSince(h[..n]).None? {
        assert BeganAt(h, n, t);
      }
    }
  }

  /** Exactly if the last check found the network reachable is there such a time. */
  lemma SomeReachable(h: seq<Finding>)
    ensures ReachableSince(h).Some? <==> |h| > 0 && h[|h| - 1].Reachable?
  {
  }

  /** Reachability came back at finding i, at that time, and has not been lost since. */
  predicate BeganAt(h: seq<Finding>, i: nat, t: int)
    requires i < |h|
  {
    && h[i] == Reachable(t) && (i > 0 ==> !h[i - 1].Reachable?)
    && forall j | i <= j < |h| :: h[j].Reachable?
  }

  // Runs of one watchdog

  datatype Limits = Limits(thresholdMs: int, updateHandlerTimeoutMs: int)

  datatype State = State(
    timer: bool, checking: bool, restartDecided: bool, stopped: bool,
    startedAtMs: int, findings: seq<Finding>, exits: nat)

  /** A check is two events, for it waits for a heartbeat in between. */
  datatype Event =
    | Begin(now: int, progress: Progress, update: Update)
    | Finish(reachable: bool, now: int, latest: Progress, recoveredAt: int)
    | Start(now: int)
    | Stop

  function NewState(now: int): State {
    State(false, false, false, false, now, [], 0)
  }

  predicate Stale(k: Limits, s: State, progress: Progress, now: int) {
    PollProgressAgeMs(progress, now, s.startedAtMs) >= k.thresholdMs
  }

  /** A handler that has not timed out yet accounts for the silence. */
  predicate AccountedFor(k: Limits, update: Update, now: int) {
    update.ProcessingSince? && now - update.startedAtMs < k.updateHandlerTimeoutMs
  }

  /** This check asks for a heartbeat. */
  predicate Asks(k: Limits, s: State, e: Event) {
    && e.Begin? && !s.restartDecided && !s.stopped && !s.checking
    && Stale(k, s, e.progress, e.now) && !AccountedFor(k, e.update, e.now)
  }

  function Found(s: State, f: Finding): State {
    s.(findings := s.findings + [f])
  }

  function Restarted(s: State): State {
    s.(restartDecided := true, timer := false, exits := s.exits + 1)
  }

  /** A failed poll or an unreachable API is outstanding. */
  predicate Degraded(s: State, latest: Progress) {
    Outstanding(s.findings) || latest.lastPollFailedAtMs.Some?
  }

  function Next(k: Limits, s: State, e: Event): State {
    match e
    case Begin(now, progress, update) =>
      if s.restartDecided || s.stopped || s.checking then s
      else if !Stale(k, s, progress, now) then Found(s, Sound)
      else if AccountedFor(k, update, now) then s
      else s.(checking := true)
    case Finish(reachable, now, latest, recoveredAt) =>
      var t := s.(checking := false);
      if s.stopped || s.restartDecided then t
      else if !Stale(k, s, latest, now) then Found(t, Sound)
      else if !reachable then Found(t, Unreachable)
      else if !Degraded(s, latest) then Restarted(t)
      else
        var u := Found(t, Reachable(recoveredAt));
        if recoveredAt - ReachableSince(s.findings).GetOr(recoveredAt) < k.thresholdMs then u else Restarted(u)
    case Start(now) =>
      if s.timer || s.restartDecided then s
      else Found(s.(stopped := false, startedAtMs := now, timer := true), Sound)
    case Stop => s.(stopped := true, timer := false)
  }

  function After(k: Limits, start: State, h: seq<Event>): State
    decreases |h|
  {
    if |h| == 0 then start else Next(k, After(k, start, h[..|h| - 1]), h[|h| - 1])
  }

  /** Only a check that waits for its heartbeat finishes. */
  ghost predicate Lawful(k: Limits, start: State, h: seq<Event>) {
    forall i | 0 <= i < |h| && h[i].Finish? :: After(k, start, h[..i]).checking
  }

  ghost predicate AskedAt(k: Limits, start: State, h: seq<Event>, b: nat)
    requires b < |h|
  {
    Asks(k, After(k, start, h[..b]), h[b])
  }

  /** The check that still waits at the end began with act b. */
  ghost predicate WaitsSince(k: Limits, start: State, h: seq<Event>, b: nat) {
    b < |h| && AskedAt(k, start, h, b) && forall j | b < j < |h| :: !h[j].Finish?
  }

  /** Whoever waits for a heartbeat has asked for it, in a check that found polling stale. */
  lemma {:induction false} CheckingHasAsked(k: Limits, now: int, h: seq<Event>)
    requires After(k, NewState(now), h).checking
    ensures exists b: nat :: WaitsSince(k, NewState(now), h, b)
    decreases |h|
  {
    var start := NewState(now);
    if |h| > 0 {
      var n := |h| - 1;
      var before := h[..n];
      if After(k, start, before).checking && !h[n].Finish? {
        CheckingHasAsked(k, now, before);
        var b: nat :| WaitsSince(k, start, before, b);
        assert before[..b] == h[..b];
        assert WaitsSince(k, start, h, b);
      } else {
        assert WaitsSince(k, start, h, n);
      }
    }
  }

  /** Over every run of one watchdog the process is told to exit at most once. */
  lemma {:induction false} ExitsAtMostOnce(k: Limits, now: int, h: seq<Event>)
    ensures var s := After(k, NewState(now), h); s.exits == if s.restartDecided then 1 else 0
    decreases |h|
  {
    if |h| > 0 {
      ExitsAtMostOnce(k, now, h[..|h| - 1]);
    }
  }

  /** The restart has waited a full threshold since reachability came back for good. */
  ghost predicate WaitedOut(k: Limits, s: State, e: Event)
    requires e.Finish?
  {
    exists i, t | 0 <= i < |s.findings| :: BeganAt(s.findings, i, t) && e.recoveredAt - t >= k.thresholdMs
  }

  /** It exits only in a check whose heartbeat succeeded, with polling stale when the check
      began and still stale when it ended; and with a failed poll or an unreachable API
      outstanding, only a full threshold after reachability returned. */
  lemma OnlyStalledPollingExits(k: Limits, now: int, h: seq<Event>, i: nat)
    requires Lawful(k, NewState(now), h) && i < |h| && k.thresholdMs > 0
    requires After(k, NewState(now), h[..i + 1]).exits > After(k, NewState(now), h[..i]).exits
    ensures var s, e := After(k, NewState(now), h[..i]), h[i];
      && e.Finish? && e.reachable && Stale(k, s, e.latest, e.now)
      && (exists b: nat :: WaitsSince(k, NewState(now), h[..i], b))
      && (Degraded(s, e.latest) ==> WaitedOut(k, s, e))
  {
    var s, e := After(k, NewState(now), h[..i]), h[i];
    assert h[..i + 1][..i] == h[..i];
    assert After(k, NewState(now), h[..i + 1]) == Next(k, s, e);
    CheckingHasAsked(k, now, h[..i]);
    if Degraded(s, e.latest) {
      var t := ReachableSince(s.findings).value;
      ReachableSinceMeaning(s.findings, t);
    }
  }

  class Watchdog {
    const thresholdMs: int
    const updateHandlerTimeoutMs: int
    var timer: bool
    var checking: bool
    var restartDecided: bool
    var stopped: bool
    var monitoringStartedAtMs: int
    var awaitingPollRecovery: bool
    var pollRecoveryStartedAtMs: Option<int>
    var exits: nat

    ghost var findings: seq<Finding>

    constructor (thresholdMs: int, updateHandlerTimeoutMs: int, now: int)
      ensures Valid() && View() == NewState(now) && Bounds() == Limits(thresholdMs, updateHandlerTimeoutMs)
    {
      this.thresholdMs, this.updateHandlerTimeoutMs := thresholdMs, updateHandlerTimeoutMs;
      timer, checking, restartDecided, stopped, monitoringStartedAtMs := false, false, false, false, now;
      awaitingPollRecovery, pollRecoveryStartedAtMs, exits := false, None, 0;
      findings := [];
    }

    ghost function View(): State
      reads this
    {
      State(timer, checking, restartDecided, stopped, monitoringStartedAtMs, findings, exits)
    }

    function Bounds(): Limits {
      Limits(thresholdMs, updateHandlerTimeoutMs)
    }

    ghost predicate Valid()
      reads this
    {
      && exits == (if restartDecided then 1 else 0) && (restartDecided ==> !timer)
      && awaitingPollRecovery == Outstanding(findings)
      && pollRecoveryStartedAtMs == ReachableSince(findings)
    }

    ghost method Find(f: Finding)
      modifies this`findings
      ensures findings == old(findings) + [f]
      ensures Outstanding(findings) == !f.Sound?
      ensures ReachableSince(findings)
        == if f.Reachable? then (if ReachableSince(old(findings)).Some? then ReachableSince(old(findings)) else Some(f.at)) else None
    {
      assert (findings + [f])[..|findings|] == findings;
      findings := findings + [f];
    }

    /** A restart stops the timer and exits, once and for all. */
    method DecideRestart()
      requires Valid() && !stopped && !restartDecided
      modifies this`restartDecided, this`timer, this`exits
      ensures Valid() && View() == Restarted(old(View()))
    {
      restartDecided := true;
      timer := false;
      exits := exits + 1;
    }

    /** The first half of a check: a stale poller that is not busy with an update calls for a
        heartbeat; overlapping checks are suppressed. */
    method BeginCheck(now: int, progress: Progress, update: Update) returns (heartbeat: bool)
      requires Valid()
      modifies this
      ensures Valid() && heartbeat == Asks(Bounds(), old(View()), Begin(now, progress, update))
      ensures View() == Next(Bounds(), old(View()), Begin(now, progress, update))
      ensures thresholdMs > 0 ==>
        (heartbeat <==>
          && !old(restartDecided) && !old(stopped) && !old(checking)
          && now - old(monitoringStartedAtMs) >= thresholdMs
          && now - progress.lastPollSucceededAtMs.GetOr(progress.initializedAtMs) >= thresholdMs
          && !(update.ProcessingSince? && now - update.startedAtMs < updateHandlerTimeoutMs))
    {
      heartbeat := false;
      if restartDecided || stopped || checking {
        return;
      }
      if PollProgressAgeMs(progress, now, monitoringStartedAtMs) < thresholdMs {
        awaitingPollRecovery := false;
        pollRecoveryStartedAtMs := None;
        Find(Sound);
        return;
      }
      if update.ProcessingSince? && now - update.startedAtMs < updateHandlerTimeoutMs {
        return;
      }
      checking := true;
      heartbeat := true;
    }

    /** The second half, once the heartbeat has answered or timed out.  It restarts exactly
        when the API answered, polling is still stale, and, if a failed poll or an unreachable
        API is outstanding, a full threshold has passed since it could be reached again. */
    method FinishCheck(reachable: bool, now: int, latest: Progress, recoveredAt: int)
      requires Valid() && checking
      modifies this
      ensures Valid() && View() == Next(Bounds(), old(View()), Finish(reachable, now, latest, recoveredAt))
      ensures !old(stopped) && !old(restartDecided) ==>
        (restartDecided <==>
          && Stale(Bounds(), old(View()), latest, now) && reachable
          && (Degraded(old(View()), latest) ==> recoveredAt - ReachableSince(old(findings)).GetOr(recoveredAt) >= thresholdMs))
      ensures thresholdMs > 0 && !old(restartDecided) && restartDecided ==>
        && now - old(monitoringStartedAtMs) >= thresholdMs
        && now - latest.lastPollSucceededAtMs.GetOr(latest.initializedAtMs) >= thresholdMs
    {
      checking := false;
      if stopped || restartDecided {
        return;
      }
      if PollProgressAgeMs(latest, now, monitoringStartedAtMs) < thresholdMs {
        awaitingPollRecovery := false;
        pollRecoveryStartedAtMs := None;
        Find(Sound);
        return;
      }
      if !reachable {
        awaitingPollRecovery := true;
        pollRecoveryStartedAtMs := None;
        Find(Unreachable);
        return;
      }
      if awaitingPollRecovery || latest.lastPollFailedAtMs.Some? {
        awaitingPollRecovery := true;
        if pollRecoveryStartedAtMs.None? {
          pollRecoveryStartedAtMs := Some(recoveredAt);
        }
        Find(Reachable(recoveredAt));
        if recoveredAt - pollRecoveryStartedAtMs.value < thresholdMs {
          return;
        }
      }
      DecideRestart();
    }

    /** Watching begins afresh, unless a restart has been decided. */
    method Start(now: int)
      requires Valid()
      modifies this
      ensures Valid() && View() == Next(Bounds(), old(View()), Event.Start(now))
    {
      if timer || restartDecided {
        return;
      }
      stopped := false;
      monitoringStartedAtMs := now;
      awaitingPollRecovery := false;
      pollRecoveryStartedAtMs := None;
      Find(Sound);
      timer := true;
    }

    method Stop()
      requires Valid()
      modifies this`stopped, this`timer
      ensures Valid() && View() == Next(Bounds(), old(View()), Event.Stop)
    {
      stopped := true;
      timer := false;
    }
  }
}
