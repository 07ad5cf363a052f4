/** The queue's promises, for every story of a chat. */
module ChatTheorems {
  import opened Common
  import opened CollectPrompt
  import opened ChatQueue
  import opened ChatProofs

  // Conservation

  lemma {:induction false} RangeCounts(n: nat, id: nat)
    ensures multiset(Range(n))[id] == if id < n then 1 else 0
  {
    if n > 0 {
      RangeCounts(n - 1, id);
    }
  }

  function Places(s: Chat, id: nat): nat {
    multiset(PendingIds(s))[id] + multiset(BatchIds(s))[id] + multiset(EntryIds(s.collectEntries))[id]
    + multiset(DepartedIds(s.log.departures))[id]
  }

  /** Every message is pending, in the running batch, in the collect buffer or departed:
      one of these, once. */
  lemma EachMessageIsInOnePlace(k: Settings, story: Story, id: nat)
    ensures var s := After(k, story);
      Places(s, id) == if id < |s.log.arrivals| then 1 else 0
  {
    StoryKeeps(k, story);
    var s := After(k, story);
    RangeCounts(|s.log.arrivals|, id);
    assert (multiset(PendingIds(s)) + multiset(BatchIds(s)) + multiset(EntryIds(s.collectEntries))
            + multiset(DepartedIds(s.log.departures)) + multiset([]))[id] == Places(s, id);
  }

  // Callbacks

  function KeptIds(ds: seq<Departure>): seq<nat>
    decreases |ds|
  {
    if |ds| == 0 then []
    else KeptIds(ds[..|ds| - 1]) + if KeepsMedia(ds[|ds| - 1].exit) then [ds[|ds| - 1].id] else []
  }

  /** What one more departure adds to each list. */
  lemma OneMoreDue(ds: seq<Departure>, id: nat)
    requires |ds| > 0
    ensures var before, d := ds[..|ds| - 1], ds[|ds| - 1];
      && multiset(AllDue(ds))[Cleanup(id)] == multiset(AllDue(before))[Cleanup(id)] + (if d.id == id then 1 else 0)
      && multiset(AllDue(ds))[DropCleanup(id)]
         == multiset(AllDue(before))[DropCleanup(id)] + (if d.id == id && !KeepsMedia(d.exit) then 1 else 0)
  {
    var d := ds[|ds| - 1];
    assert multiset(Due(d))[Cleanup(id)] == if d.id == id then 1 else 0;
    assert multiset(Due(d))[DropCleanup(id)] == if d.id == id && !KeepsMedia(d.exit) then 1 else 0;
  }

  lemma OneMoreId(ds: seq<Departure>, id: nat)
    requires |ds| > 0
    ensures var before, d := ds[..|ds| - 1], ds[|ds| - 1];
      && multiset(DepartedIds(ds))[id] == multiset(DepartedIds(before))[id] + (if d.id == id then 1 else 0)
      && multiset(KeptIds(ds))[id] == multiset(KeptIds(before))[id] + (if d.id == id && KeepsMedia(d.exit) then 1 else 0)
  {
  }

  lemma {:induction false} DueCounts(ds: seq<Departure>, id: nat)
    ensures var due := multiset(AllDue(ds));
      && due[Cleanup(id)] == multiset(DepartedIds(ds))[id]
      && due[DropCleanup(id)] + multiset(KeptIds(ds))[id] == multiset(DepartedIds(ds))[id]
    decreases |ds|
  {
    if |ds| > 0 {
      DueCounts(ds[..|ds| - 1], id);
      OneMoreDue(ds, id);
      OneMoreId(ds, id);
    }
  }

  lemma IsCounted(ds: seq<Departure>, i: nat)
    requires i < |ds|
    ensures multiset(DepartedIds(ds))[ds[i].id] >= 1
  {
    assert DepartedIds(ds)[i] == ds[i].id;
  }

  lemma KeptAreDeparted(ds: seq<Departure>, id: nat)
    ensures multiset(KeptIds(ds))[id] <= multiset(DepartedIds(ds))[id]
  {
    DueCounts(ds, id);
  }

  /** A message that departed once was kept as its one departure says. */
  lemma {:induction false} KeptCounts(ds: seq<Departure>, i: nat, id: nat)
    requires i < |ds| && ds[i].id == id && multiset(DepartedIds(ds))[id] == 1
    ensures multiset(KeptIds(ds))[id] == if KeepsMedia(ds[i].exit) then 1 else 0
    decreases |ds|
  {
    OneMoreId(ds, id);
    if i < |ds| - 1 {
      CountedEarlier(ds, i, id);
      KeptCounts(ds[..|ds| - 1], i, id);
    } else {
      KeptAreDeparted(ds[..|ds| - 1], id);
    }
  }

  lemma CountedEarlier(ds: seq<Departure>, i: nat, id: nat)
    requires i < |ds| - 1 && ds[i].id == id && multiset(DepartedIds(ds))[id] == 1
    ensures ds[..|ds| - 1][i] == ds[i] && ds[|ds| - 1].id != id && multiset(DepartedIds(ds[..|ds| - 1]))[id] == 1
  {
    IsCounted(ds[..|ds| - 1], i);
    OneMoreId(ds, id);
  }

  lemma DepartedOnce(log: Log, i: nat)
    requires Paid(log) && i < |log.departures| && multiset(DepartedIds(log.departures))[log.departures[i].id] == 1
    ensures var d := log.departures[i];
      && multiset(log.ran)[Cleanup(d.id)] == 1
      && multiset(log.ran)[DropCleanup(d.id)] == if KeepsMedia(d.exit) then 0 else 1
  {
    DueCounts(log.departures, log.departures[i].id);
    KeptCounts(log.departures, i, log.departures[i].id);
  }

  lemma StillQueued(log: Log, id: nat)
    requires Paid(log) && id !in DepartedIds(log.departures)
    ensures Cleanup(id) !in log.ran && DropCleanup(id) !in log.ran
  {
    DueCounts(log.departures, id);
    assert multiset(log.ran)[Cleanup(id)] == 0 && multiset(log.ran)[DropCleanup(id)] == 0;
  }

  /** A departed message's cleanup has run exactly once, and its drop cleanup once too
      unless it left by an exit that keeps its media, and then never. */
  lemma CallbacksFollowExit(k: Settings, story: Story, i: nat)
    requires i < |After(k, story).log.departures|
    ensures var log := After(k, story).log;
      var d := log.departures[i];
      && multiset(log.ran)[Cleanup(d.id)] == 1
      && multiset(log.ran)[DropCleanup(d.id)] == if KeepsMedia(d.exit) then 0 else 1
  {
    var log := After(k, story).log;
    assert Paid(log) by {
      StoryKeeps(k, story);
    }
    EachMessageIsInOnePlace(k, story, log.departures[i].id);
    assert DepartedIds(log.departures)[i] == log.departures[i].id;
    DepartedOnce(log, i);
  }

  /** Nothing runs for a message that has not departed. */
  lemma NothingRunsEarly(k: Settings, story: Story, id: nat)
    requires id !in DepartedIds(After(k, story).log.departures)
    ensures Cleanup(id) !in After(k, story).log.ran && DropCleanup(id) !in After(k, story).log.ran
  {
    var log := After(k, story).log;
    assert Paid(log) by {
      StoryKeeps(k, story);
    }
    StillQueued(log, id);
  }

  // Prompts

  /** Every prompt holds its messages whole and in order, over all prompts no message is
      handed over twice or before an earlier one, and no batch met a missing platform. */
  lemma PromptsKeepOrder(k: Settings, story: Story)
    ensures var s := After(k, story);
      && Ascending(HandedIds(s.log.prompts), |s.log.arrivals|)
      && PromptsHold(s.log.arrivals, s.log.prompts)
      && AllSent(s.log.departures)
      && (s.attached && (|s.pendingTexts| > 0 || |s.collectEntries| > 0 || s.busy) ==> s.latestPlatform.Some?)
  {
    StoryKeeps(k, story);
    var s := After(k, story);
    LineFront(HandedIds(s.log.prompts), WaitingBatchIds(s), EntryIds(s.collectEntries), PendingIds(s));
    var rest := EntryIds(s.collectEntries) + PendingIds(s);
    AscendingFront(HandedIds(s.log.prompts) + WaitingBatchIds(s), rest, |s.log.arrivals|);
    AscendingFront(HandedIds(s.log.prompts), WaitingBatchIds(s), |s.log.arrivals|);
  }

  /** The batch that begins with a whole buffer. */
  ghost predicate TakesBuffer(t: Chat, es: seq<Entry>) {
    && |es| > 0 && t.collectEntries == [] && SuspendedIn(t, Preparing)
    && Ids(t.batch.value.cleanups) == EntryIds(es)
    && t.batch.value.prompt == BuildCollectPrompt(Texts(es)) && t.batch.value.images == Images(es)
  }

  lemma EndTakesBuffer(s: Chat, cs: seq<Callback>, live: Option<seq<Callback>>, exit: Exit)
    requires s.attached && s.latestPlatform.Some? && |s.collectEntries| > 0
    ensures TakesBuffer(AfterBatch(s, cs, live, exit), s.collectEntries)
  {
    SameIds(s.collectEntries);
  }

  lemma BufferFollows(s: Chat, k: Settings, ok: bool)
    requires s.attached && s.latestPlatform.Some? && |s.collectEntries| > 0
    requires SuspendedIn(s, if ok then Processing else Replying)
    ensures TakesBuffer(Step(s, k, if ok then Processed(true) else Replied), s.collectEntries)
  {
    var b := s.batch.value;
    EndTakesBuffer(if ok then Settle(s) else s, b.cleanups, b.liveDropCleanups, Finished(b.liveDropCleanups.None?));
  }

  lemma BusyFacts(s: Chat, k: Settings)
    requires Inv(s, k) && s.attached && s.batch.Some?
    ensures s.latestPlatform.Some? && Increasing(s.collectEntries)
  {
  }

  /** What steering did not consume becomes the next batch, in order of arrival. */
  lemma UnconsumedFallBack(k: Settings, story: Story, ok: bool)
    requires SuspendedIn(After(k, story), if ok then Processing else Replying)
    requires After(k, story).attached && |After(k, story).collectEntries| > 0
    ensures var s := After(k, story);
      && Increasing(s.collectEntries)
      && TakesBuffer(Step(s, k, if ok then Processed(true) else Replied), s.collectEntries)
  {
    StoryKeeps(k, story);
    BusyFacts(After(k, story), k);
    BufferFollows(After(k, story), k, ok);
  }

  // Steering

  /** In one busy generation the offers are a prefix of the arrivals, each offered once;
      while nothing has failed, those awaiting an answer are a prefix of the buffer. */
  lemma OffersAreAPrefix(k: Settings, story: Story)
    requires After(k, story).attached
    ensures var s := After(k, story);
      && s.log.offers <= s.log.collected && Increasing(s.log.collected)
      && 0 <= Awaiting(s) <= |s.collectEntries|
      && (!s.steerBlocked ==> s.steerPending == Elements(s.collectEntries[..Awaiting(s)]))
  {
    StoryKeeps(k, story);
  }

  /** Once a turn has failed, no answer is awaited. */
  ghost predicate Quiet(s: Chat) {
    SuspendedIn(s, Replying) ==> s.steerBlocked && s.steerPending == {}
  }

  lemma {:induction false} StoryIsQuiet(k: Settings, story: Story)
    ensures Quiet(After(k, story))
  {
    match story
    case Made(_) =>
    case Then(before, event) =>
      StoryIsQuiet(k, before);
      StepIsQuiet(After(k, before), k, event);
  }

  lemma StepIsQuiet(s: Chat, k: Settings, event: Event)
    requires Quiet(s)
    ensures Quiet(Step(s, k, event))
  {
    match event {
      case Prepared(_) | Noticed | Processed(_) | Replied =>
        FinishFacts(s);
        FinishFacts(Settle(s));
      case Flush =>
        FlushFacts(s);
      case _ =>
    }
  }

  /** What the end of a batch leaves alone, whatever it begins. */
  ghost predicate Undisturbed(s: Chat, t: Chat) {
    && t.attached == s.attached && t.pendingCleanups == s.pendingCleanups && t.log.arrivals == s.log.arrivals
    && (t.batch.None? || SuspendedIn(t, Preparing))
  }

  lemma EndFacts(s: Chat, cs: seq<Callback>, live: Option<seq<Callback>>, exit: Exit)
    ensures Undisturbed(s, AfterBatch(s, cs, live, exit))
    decreases |s.collectEntries|, 0
  {
    var t := s.(batch := None, log := Leave(s.log, cs + live.GetOr([]), Ids(cs), exit));
    if t.attached && |t.collectEntries| > 0 {
      var es := t.collectEntries;
      BeginFacts(t.(busy := false, collectEntries := []), BuildCollectPrompt(Texts(es)), Images(es), Cleanups(es), DropCleanups(es));
    }
  }

  lemma BeginFacts(s: Chat, prompt: string, images: seq<string>, cs: seq<Callback>, drops: seq<Callback>)
    ensures Undisturbed(s, BeginBatch(s, prompt, images, cs, drops))
    decreases |s.collectEntries|, 1
  {
    if s.latestPlatform.None? {
      var t := s.(busy := true, steerSubmitting := None, steerPending := {}, steerBlocked := false,
                  log := s.log.(collected := [], offers := [], batches := s.log.batches + 1));
      EndFacts(Settle(t), cs, Some(drops), Unsent);
    }
  }

  lemma FinishFacts(s: Chat)
    ensures s.batch.Some? ==> Undisturbed(s, FinishBatch(s))
  {
    if s.batch.Some? {
      var b := s.batch.value;
      EndFacts(s, b.cleanups, b.liveDropCleanups, Finished(b.liveDropCleanups.None?));
    }
  }

  lemma FlushFacts(s: Chat)
    ensures var t := Flushed(s);
      && t.attached == s.attached && t.log.arrivals == s.log.arrivals
      && (if s.attached && |s.pendingTexts| > 0 then t.pendingCleanups == [] && (t.batch.None? || SuspendedIn(t, Preparing))
          else t == s)
  {
    if s.attached && |s.pendingTexts| > 0 {
      BeginFacts(s.(pendingTexts := [], pendingImagePaths := [], pendingCleanups := [], pendingDropCleanups := [],
                    debounceTimer := false),
                 CombineTexts(s.pendingTexts), s.pendingImagePaths, s.pendingCleanups, s.pendingDropCleanups);
    }
  }

  lemma PendingWasOffered(s: Chat, e: Entry)
    requires Steering(s) && e in s.steerPending
    ensures e in s.log.offers && e in s.collectEntries
  {
    assert e in s.collectEntries[..Awaiting(s)];
  }

  /** An answer about an entry that was not offered in this generation, or has left the
      buffer, or comes after the turn settled or the chat was cleared, changes nothing; nor
      does the word that such an entry has been submitted. */
  lemma LateAnswersChangeNothing(k: Settings, story: Story, e: Entry, acknowledged: bool)
    ensures var s := After(k, story);
      !s.attached || SuspendedIn(s, Replying) || e !in s.log.offers || e !in s.collectEntries
      ==> Step(s, k, SteerAnswered(e, acknowledged)) == s && Step(s, k, SteerEnqueued(e)) == s
  {
    var s := After(k, story);
    if s.attached && e in s.steerPending {
      assert Steering(s) by {
        StoryKeeps(k, story);
      }
      StoryIsQuiet(k, story);
      PendingWasOffered(s, e);
    }
  }

  // Shutdown

  function AfterAll(s: Chat, k: Settings, events: seq<Event>): Chat
    decreases |events|
  {
    if |events| == 0 then s else Step(AfterAll(s, k, events[..|events| - 1]), k, events[|events| - 1])
  }

  lemma NothingNewPends(s: Chat, k: Settings, event: Event)
    requires PendingIds(s) == [] && |s.pendingTexts| == |s.pendingCleanups| && !event.Enqueue?
    ensures PendingIds(Step(s, k, event)) == [] && Step(s, k, event).log.arrivals == s.log.arrivals
  {
    match event {
      case Prepared(_) | Noticed | Processed(_) | Replied => FlowAddsNothing(s, k, event);
      case SteerEnqueued(_) | SteerAnswered(_, _) => SteeringAddsNothing(s, k, event);
      case Flush => FlushFacts(s);
      case _ =>
    }
  }

  lemma FlowAddsNothing(s: Chat, k: Settings, event: Event)
    requires PendingIds(s) == [] && (event.Prepared? || event.Noticed? || event.Processed? || event.Replied?)
    ensures PendingIds(Step(s, k, event)) == [] && Step(s, k, event).log.arrivals == s.log.arrivals
  {
    FinishFacts(s);
    FinishFacts(Settle(s));
  }

  lemma SteeringAddsNothing(s: Chat, k: Settings, event: Event)
    requires PendingIds(s) == [] && (event.SteerEnqueued? || event.SteerAnswered?)
    ensures PendingIds(Step(s, k, event)) == [] && Step(s, k, event).log.arrivals == s.log.arrivals
  {
  }

  lemma SameLengths(s: Chat, k: Settings)
    requires Inv(s, k)
    ensures |s.pendingTexts| == |s.pendingCleanups|
  {
  }

  lemma {:induction false} NothingPends(s: Chat, k: Settings, events: seq<Event>)
    requires Inv(s, k) && PendingIds(s) == []
    requires forall i | 0 <= i < |events| :: !events[i].Enqueue?
    ensures var t := AfterAll(s, k, events);
      Inv(t, k) && PendingIds(t) == [] && t.log.arrivals == s.log.arrivals
    decreases |events|
  {
    if |events| > 0 {
      var n := |events| - 1;
      NothingPends(s, k, events[..n]);
      var before := AfterAll(s, k, events[..n]);
      StepKeeps(before, k, events[n]);
      SameLengths(before, k);
      NothingNewPends(before, k, events[n]);
    }
  }

  lemma AllDeparted(t: Chat)
    requires Conserved(t, []) && t.batch.None? && PendingIds(t) == [] && t.collectEntries == []
    ensures multiset(DepartedIds(t.log.departures)) == multiset(Range(|t.log.arrivals|))
  {
  }

  lemma IdleBuffer(t: Chat, k: Settings)
    requires Shape(t, k) && t.batch.None?
    ensures t.collectEntries == []
  {
  }

  /** After admission has closed and pending work has been flushed, as soon as no flush is
      running every message has departed. */
  lemma ShutdownDrains(k: Settings, story: Story, events: seq<Event>)
    requires forall i | 0 <= i < |events| :: !events[i].Enqueue?
    ensures var s := After(k, story);
      var t := AfterAll(Step(s, k, Flush), k, events);
      t.batch.None? ==>
        multiset(DepartedIds(t.log.departures)) == multiset(Range(|s.log.arrivals|)) && t.collectEntries == []
  {
    StoryKeeps(k, story);
    FlushedDrains(After(k, story), k, events);
  }

  lemma PendingIsNotBusy(s: Chat, k: Settings)
    requires Inv(s, k) && s.attached
    ensures FlushedUnlessBusy(s) == Step(s, k, Flush)
  {
  }

  /** The guard of the flush at shutdown leaves out nothing. */
  lemma ShutdownFlushesAllPending(k: Settings, story: Story)
    requires After(k, story).attached
    ensures FlushedUnlessBusy(After(k, story)) == Step(After(k, story), k, Flush)
  {
    StoryKeeps(k, story);
    PendingIsNotBusy(After(k, story), k);
  }

  lemma FlushedDrains(s: Chat, k: Settings, events: seq<Event>)
    requires Inv(s, k)
    requires forall i | 0 <= i < |events| :: !events[i].Enqueue?
    ensures var t := AfterAll(Step(s, k, Flush), k, events);
      t.batch.None? ==>
        multiset(DepartedIds(t.log.departures)) == multiset(Range(|s.log.arrivals|)) && t.collectEntries == []
  {
    StepKeeps(s, k, Flush);
    FlushClears(s, k);
    NothingPends(Step(s, k, Flush), k, events);
    var t := AfterAll(Step(s, k, Flush), k, events);
    if t.batch.None? {
      IdleBuffer(t, k);
      AllDeparted(t);
    }
  }

  lemma FlushClears(s: Chat, k: Settings)
    requires Inv(s, k)
    ensures PendingIds(Step(s, k, Flush)) == [] && Step(s, k, Flush).log.arrivals == s.log.arrivals
  {
    SameLengths(s, k);
    FlushFacts(s);
  }

  /** The answers that a chat still waits for, if nothing more arrives: those of the running
      batch, and those of the one that its buffer will make. */
  function StillToCome(s: Chat): nat {
    (if s.batch.None? then 0
     else match s.batch.value.phase case Preparing => 4 case Notifying => 3 case Processing => 2 case Replying => 1)
    + (if |s.collectEntries| > 0 then 4 else 0)
  }

  /** The call at which the running flush is suspended comes back. */
  predicate Answers(s: Chat, event: Event) {
    s.batch.Some? && match s.batch.value.phase
                     case Preparing => event.Prepared?
                     case Notifying => event.Noticed?
                     case Processing => event.Processed?
                     case Replying => event.Replied?
  }

  lemma EndBringsNearer(s: Chat, cs: seq<Callback>, live: Option<seq<Callback>>, exit: Exit)
    requires |s.collectEntries| > 0 ==> s.attached && s.latestPlatform.Some?
    ensures StillToCome(AfterBatch(s, cs, live, exit)) <= if |s.collectEntries| > 0 then 4 else 0
  {
  }

  lemma FinishBringsNearer(s: Chat, k: Settings)
    requires Shape(s, k) && s.batch.Some?
    ensures StillToCome(FinishBatch(s)) < StillToCome(s)
    ensures StillToCome(FinishBatch(Settle(s))) < StillToCome(s)
  {
    var b := s.batch.value;
    EndBringsNearer(s, b.cleanups, b.liveDropCleanups, Finished(b.liveDropCleanups.None?));
    EndBringsNearer(Settle(s), b.cleanups, b.liveDropCleanups, Finished(b.liveDropCleanups.None?));
  }

  lemma FailBringsNearer(s: Chat, k: Settings)
    requires Shape(s, k) && s.batch.Some? && s.batch.value.phase != Replying
    ensures StillToCome(FailBatch(s)) < StillToCome(s)
  {
    FinishBringsNearer(s, k);
  }

  lemma AnswerBringsNearer(s: Chat, k: Settings, event: Event)
    requires Shape(s, k) && (event.Prepared? || event.Noticed? || event.Processed? || event.Replied?)
    ensures if Answers(s, event) then StillToCome(Step(s, k, event)) < StillToCome(s) else Step(s, k, event) == s
  {
    if Answers(s, event) {
      FinishBringsNearer(s, k);
      if !event.Replied? {
        FailBringsNearer(s, k);
      }
    }
  }

  lemma NothingDelays(s: Chat, k: Settings, event: Event)
    requires PendingIds(s) == [] && |s.pendingTexts| == |s.pendingCleanups| && !event.Enqueue?
    requires !(event.Prepared? || event.Noticed? || event.Processed? || event.Replied?)
    ensures StillToCome(Step(s, k, event)) <= StillToCome(s) && !Answers(s, event)
  {
  }

  /** How many of the events were answers that were waited for when they came. */
  function Answered(s: Chat, k: Settings, events: seq<Event>): nat
    decreases |events|
  {
    if |events| == 0 then 0
    else
      var before := events[..|events| - 1];
      Answered(s, k, before) + if Answers(AfterAll(s, k, before), events[|events| - 1]) then 1 else 0
  }

  lemma {:induction false} EventsBringNearer(s: Chat, k: Settings, events: seq<Event>)
    requires Inv(s, k) && PendingIds(s) == []
    requires forall i | 0 <= i < |events| :: !events[i].Enqueue?
    ensures Answered(s, k, events) + StillToCome(AfterAll(s, k, events)) <= StillToCome(s)
    decreases |events|
  {
    if |events| > 0 {
      var n := |events| - 1;
      var before := AfterAll(s, k, events[..n]);
      EventsBringNearer(s, k, events[..n]);
      NothingPends(s, k, events[..n]);
      SameLengths(before, k);
      OneEventNearer(before, k, events[n]);
    }
  }

  lemma OneEventNearer(s: Chat, k: Settings, event: Event)
    requires Inv(s, k) && PendingIds(s) == [] && |s.pendingTexts| == |s.pendingCleanups| && !event.Enqueue?
    ensures StillToCome(Step(s, k, event)) + (if Answers(s, event) then 1 else 0) <= StillToCome(s)
  {
    if event.Prepared? || event.Noticed? || event.Processed? || event.Replied? {
      AnswerBringsNearer(s, k, event);
    } else {
      NothingDelays(s, k, event);
    }
  }

  lemma FewAnswers(s: Chat)
    ensures StillToCome(s) <= 8 && (StillToCome(s) == 0 ==> s.batch.None?)
  {
  }

  /** Once nothing is pending and nothing more arrives, the flushes are over after eight
      answers at most: those of the running batch and of the one after it. */
  lemma ShutdownEnds(k: Settings, story: Story, events: seq<Event>)
    requires PendingIds(After(k, story)) == []
    requires forall i | 0 <= i < |events| :: !events[i].Enqueue?
    ensures var s := After(k, story);
      && Answered(s, k, events) <= 8
      && (Answered(s, k, events) == 8 ==> AfterAll(s, k, events).batch.None?)
  {
    StoryKeeps(k, story);
    EventsBringNearer(After(k, story), k, events);
    FewAnswers(After(k, story));
    FewAnswers(AfterAll(After(k, story), k, events));
  }
}
