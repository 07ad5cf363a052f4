/** What a chat owes a message: to take it in while there is room, to offer it to steering
    while that is possible, to hand it to the agent unless something failed, and to the right
    agent on the right platform. */
module ChatPromises {
  import opened Common
  import opened CollectPrompt
  import opened ChatQueue
  import opened ChatProofs
  import opened ChatTheorems
  import opened ChatOwnership

  // Admission

  /** How many messages wait where one that arrives now would go. */
  function WaitingWithIt(s: Chat): nat {
    if s.busy then |s.collectEntries| else |s.pendingTexts|
  }

  /** This message arrives now, and where it would go `queueCap` messages wait already. */
  predicate ArrivesAtFull(s: Chat, k: Settings, event: Event, id: nat) {
    event.Enqueue? && s.attached && id == |s.log.arrivals| && WaitingWithIt(s) >= k.queueCap
  }

  predicate ArrivedAtFull(k: Settings, story: Story, id: nat) {
    match story
    case Made(_) => false
    case Then(before, event) => ArrivedAtFull(k, before, id) || ArrivesAtFull(After(k, before), k, event, id)
  }

  lemma StepRejects(s: Chat, k: Settings, event: Event, id: nat)
    ensures LeftBy(Step(s, k, event).log, id, Rejected) <==> LeftBy(s.log, id, Rejected) || ArrivesAtFull(s, k, event, id)
  {
    match event {
      case Enqueue(_, _, _, _, _) =>
        ArrivalRejects(s, k, event, id);
      case Clear => ClearAdds(s, id, Rejected);
      case SteerAnswered(e, _) => LeaveAdds(s.log, [Cleanup(e.id)], [e.id], Consumed, id, Rejected);
      case Prepared(_) | Noticed | Processed(_) | Replied => FlowRejects(s, k, event, id);
      case Flush => FlushRejects(s, id);
      case _ =>
    }
  }

  lemma ArrivalRejects(s: Chat, k: Settings, event: Event, id: nat)
    requires event.Enqueue?
    ensures LeftBy(Step(s, k, event).log, id, Rejected) <==> LeftBy(s.log, id, Rejected) || ArrivesAtFull(s, k, event, id)
  {
    var n := |s.log.arrivals|;
    var log := s.log.(arrivals := s.log.arrivals + [Entry(n, event.text, event.images)]);
    LeaveAdds(log, [Cleanup(n), DropCleanup(n)], [n], Rejected, id, Rejected);
  }

  lemma FlowRejects(s: Chat, k: Settings, event: Event, id: nat)
    requires event.Prepared? || event.Noticed? || event.Processed? || event.Replied?
    ensures LeftBy(Step(s, k, event).log, id, Rejected) <==> LeftBy(s.log, id, Rejected)
  {
    if s.batch.Some? {
      FinishAdds(s, id, Rejected);
      FinishAdds(Settle(s), id, Rejected);
    }
  }

  lemma FlushRejects(s: Chat, id: nat)
    ensures LeftBy(Flushed(s).log, id, Rejected) <==> LeftBy(s.log, id, Rejected)
  {
    if s.attached && |s.pendingTexts| > 0 {
      BeginAdds(s.(pendingTexts := [], pendingImagePaths := [], pendingCleanups := [], pendingDropCleanups := [],
                   debounceTimer := false),
                CombineTexts(s.pendingTexts), s.pendingImagePaths, s.pendingCleanups, s.pendingDropCleanups, id, Rejected);
    }
  }

  lemma {:induction false} StoryRejects(k: Settings, story: Story, id: nat)
    ensures LeftBy(After(k, story).log, id, Rejected) <==> ArrivedAtFull(k, story, id)
  {
    match story
    case Made(_) =>
    case Then(before, event) =>
      StoryRejects(k, before, id);
      StepRejects(After(k, before), k, event, id);
  }

  /** A message was turned away exactly if it arrived when `queueCap` messages waited where it
      would have gone. */
  lemma TurnedAwayExactlyWhenFull(k: Settings, story: Story, i: nat)
    requires i < |After(k, story).log.departures|
    ensures var d := After(k, story).log.departures[i];
      d.exit == Rejected <==> ArrivedAtFull(k, story, d.id)
  {
    var ds := After(k, story).log.departures;
    StoryRejects(k, story, ds[i].id);
    EachMessageIsInOnePlace(k, story, ds[i].id);
    IsCounted(ds, i);
    forall j | 0 <= j < |ds| && ds[j].id == ds[i].id
      ensures j == i
    {
      LeavesOnce(ds, i, j);
    }
  }

  // Offers

  /** While a chat is busy and steering may go on, whatever was collected has been offered as
      soon as no submission is under way; without steering nothing is. */
  ghost predicate AllOffered(s: Chat, k: Settings) {
    && (s.attached && s.busy && k.steers && !s.steerBlocked && s.steerSubmitting.None? ==>
          forall e | e in s.collectEntries :: e in s.steerPending)
    && (!k.steers ==> s.log.offers == [])
  }

  lemma {:induction false} NoneLeftToOffer(es: seq<Entry>, pending: set<Entry>)
    requires FirstNotPending(es, pending).None?
    ensures forall e | e in es :: e in pending
  {
    if |es| > 0 {
      NoneLeftToOffer(es[1..], pending);
      assert es == [es[0]] + es[1..];
    }
  }

  lemma AttemptOffersAll(s: Chat, k: Settings)
    requires !k.steers ==> s.log.offers == []
    ensures AllOffered(AttemptSteer(s, k), k)
  {
    if FirstNotPending(s.collectEntries, s.steerPending).None? {
      NoneLeftToOffer(s.collectEntries, s.steerPending);
    }
  }

  lemma {:induction false} EndOffersAll(s: Chat, k: Settings, cs: seq<Callback>, live: Option<seq<Callback>>, exit: Exit)
    requires !k.steers ==> s.log.offers == []
    ensures AllOffered(AfterBatch(s, cs, live, exit), k)
    decreases |s.collectEntries|, 0
  {
    var t := s.(batch := None, log := Leave(s.log, cs + live.GetOr([]), Ids(cs), exit));
    if t.attached && |t.collectEntries| > 0 {
      var es := t.collectEntries;
      BeginOffersAll(t.(busy := false, collectEntries := []), k, BuildCollectPrompt(Texts(es)), Images(es), Cleanups(es), DropCleanups(es));
    }
  }

  lemma {:induction false} BeginOffersAll(s: Chat, k: Settings, prompt: string, images: seq<string>, cs: seq<Callback>, drops: seq<Callback>)
    requires s.collectEntries == []
    ensures AllOffered(BeginBatch(s, prompt, images, cs, drops), k)
    decreases |s.collectEntries|, 1
  {
    if s.latestPlatform.None? {
      var t := s.(busy := true, steerSubmitting := None, steerPending := {}, steerBlocked := false,
                  log := s.log.(collected := [], offers := [], batches := s.log.batches + 1));
      EndOffersAll(Settle(t), k, cs, Some(drops), Unsent);
    }
  }

  lemma FlowOffersAll(s: Chat, k: Settings, event: Event)
    requires AllOffered(s, k)
    requires event.Prepared? || event.Noticed? || event.Processed? || event.Replied?
    ensures AllOffered(Step(s, k, event), k)
  {
    if s.batch.Some? {
      var b := s.batch.value;
      EndOffersAll(s, k, b.cleanups, b.liveDropCleanups, Finished(b.liveDropCleanups.None?));
      EndOffersAll(Settle(s), k, b.cleanups, b.liveDropCleanups, Finished(b.liveDropCleanups.None?));
    }
  }

  lemma SteeringOffersAll(s: Chat, k: Settings, event: Event)
    requires AllOffered(s, k) && (s.attached ==> Steering(s)) && (event.SteerEnqueued? || event.SteerAnswered?)
    ensures AllOffered(Step(s, k, event), k)
  {
    match event {
      case SteerEnqueued(e) => AttemptOffersAll(s.(steerSubmitting := None), k);
      case SteerAnswered(e, acknowledged) =>
        if s.attached && s.busy && e in s.steerPending && acknowledged {
          PendingWasOffered(s, e);
          var t := s.(steerPending := s.steerPending - {e},
                      steerSubmitting := if s.steerSubmitting == Some(e) then None else s.steerSubmitting);
          AttemptOffersAll(t.(collectEntries := Without(t.collectEntries, e),
                              log := Leave(t.log, [Cleanup(e.id)], [e.id], Consumed)), k);
        }
    }
  }

  lemma ArrivalOffersAll(s: Chat, k: Settings, event: Event)
    requires AllOffered(s, k) && event.Enqueue?
    ensures AllOffered(Step(s, k, event), k)
  {
    if s.attached {
      var e := Entry(|s.log.arrivals|, event.text, event.images);
      var t := s.(agentId := event.agentId, latestPlatform := Some(event.platform), log := s.log.(arrivals := s.log.arrivals + [e]));
      AttemptOffersAll(t.(collectEntries := t.collectEntries + [e], log := t.log.(collected := t.log.collected + [e])), k);
    }
  }

  lemma StepOffersAll(s: Chat, k: Settings, event: Event)
    requires AllOffered(s, k) && (s.attached ==> Steering(s)) && Shape(s, k)
    ensures AllOffered(Step(s, k, event), k)
  {
    match event {
      case Enqueue(_, _, _, _, _) => ArrivalOffersAll(s, k, event);
      case Prepared(_) | Noticed | Processed(_) | Replied => FlowOffersAll(s, k, event);
      case SteerEnqueued(_) | SteerAnswered(_, _) => SteeringOffersAll(s, k, event);
      case Flush => FlushOffersAll(s, k);
      case _ =>
    }
  }

  lemma FlushOffersAll(s: Chat, k: Settings)
    requires AllOffered(s, k) && (s.attached && !s.busy ==> s.collectEntries == [])
    requires s.attached && |s.pendingTexts| > 0 ==> !s.busy
    ensures AllOffered(Flushed(s), k)
  {
    if s.attached && |s.pendingTexts| > 0 {
      BeginOffersAll(s.(pendingTexts := [], pendingImagePaths := [], pendingCleanups := [], pendingDropCleanups := [],
                        debounceTimer := false), k,
                     CombineTexts(s.pendingTexts), s.pendingImagePaths, s.pendingCleanups, s.pendingDropCleanups);
    }
  }

  lemma {:induction false} NothingWaitsToBeOffered(k: Settings, story: Story)
    ensures AllOffered(After(k, story), k)
  {
    match story
    case Made(_) =>
    case Then(before, event) =>
      NothingWaitsToBeOffered(k, before);
      StoryKeeps(k, before);
      StepOffersAll(After(k, before), k, event);
  }

  // Handing over

  /** The session could not be prepared for a batch that has this message. */
  predicate FailsToPrepare(s: Chat, event: Event, id: nat) {
    event == Prepared(false) && SuspendedIn(s, Preparing) && InBatch(s, id)
  }

  predicate FailedToPrepare(k: Settings, story: Story, id: nat) {
    match story
    case Made(_) => false
    case Then(before, event) => FailedToPrepare(k, before, id) || FailsToPrepare(After(k, before), event, id)
  }

  predicate HasFinished(log: Log, id: nat) {
    LeftBy(log, id, Finished(true)) || LeftBy(log, id, Finished(false))
  }

  /** A message that is through with its batch was handed to the agent, unless the session could
      not be prepared or the chat was cleared; so will one be that is in a batch. */
  ghost predicate HandedUnlessFailed(s: Chat, id: nat, failed: bool) {
    && (HasFinished(s.log, id) ==> id in HandedIds(s.log.prompts) || failed || !s.attached)
    && (InBatch(s, id) && s.batch.value.phase == Replying && !s.batch.value.handed ==> failed)
    && (InBatch(s, id) && s.batch.value.handed ==> id in HandedIds(s.log.prompts))
  }

  /** The end of a batch keeps this if its messages were handed over or had a reason not to be. */
  lemma FinishHanded(s: Chat, id: nat, failed: bool)
    requires s.batch.Some? && HandedUnlessFailed(s, id, failed)
    requires InBatch(s, id) ==> id in HandedIds(s.log.prompts) || failed || !s.attached
    ensures HandedUnlessFailed(FinishBatch(s), id, failed)
  {
    FinishAdds(s, id, Finished(true));
    FinishAdds(s, id, Finished(false));
    FinishFacts(s);
  }

  lemma PreparedHanded(s: Chat, id: nat, ok: bool, failed: bool)
    requires HandedUnlessFailed(s, id, failed)
    ensures HandedUnlessFailed(AfterPrepare(s, ok), id, failed || FailsToPrepare(s, Prepared(ok), id))
  {
    if SuspendedIn(s, Preparing) && !s.attached {
      FinishHanded(Settle(s), id, failed);
    }
  }

  lemma NoticedHanded(s: Chat, id: nat, failed: bool)
    requires HandedUnlessFailed(s, id, failed)
    ensures HandedUnlessFailed(AfterNotice(s), id, failed)
  {
    if SuspendedIn(s, Notifying) {
      if s.attached {
        var b := s.batch.value;
        HandedGrow(s.log.prompts, Prompt(Ids(b.cleanups), b.prompt, b.images, s.agentId, b.platform), id);
      } else {
        FinishHanded(Settle(s), id, failed);
      }
    }
  }

  lemma ProcessedHanded(s: Chat, id: nat, ok: bool, failed: bool)
    requires HandedUnlessFailed(s, id, failed) && (SuspendedIn(s, Processing) ==> s.batch.value.handed)
    ensures HandedUnlessFailed(AfterProcess(s, ok), id, failed)
  {
    if SuspendedIn(s, Processing) && (ok || !s.attached) {
      FinishHanded(Settle(s), id, failed);
    }
  }

  lemma RepliedHanded(s: Chat, id: nat, failed: bool)
    requires HandedUnlessFailed(s, id, failed)
    ensures HandedUnlessFailed(AfterReply(s), id, failed)
  {
    if SuspendedIn(s, Replying) {
      FinishHanded(s, id, failed);
    }
  }

  lemma FlushHanded(s: Chat, id: nat, failed: bool)
    requires HandedUnlessFailed(s, id, failed)
    ensures HandedUnlessFailed(Flushed(s), id, failed)
  {
    if s.attached && |s.pendingTexts| > 0 {
      var t := s.(pendingTexts := [], pendingImagePaths := [], pendingCleanups := [], pendingDropCleanups := [],
                  debounceTimer := false);
      BeginAdds(t, CombineTexts(s.pendingTexts), s.pendingImagePaths, s.pendingCleanups, s.pendingDropCleanups, id, Finished(true));
      BeginAdds(t, CombineTexts(s.pendingTexts), s.pendingImagePaths, s.pendingCleanups, s.pendingDropCleanups, id, Finished(false));
      FlushFacts(s);
    }
  }

  lemma AsideHanded(s: Chat, k: Settings, event: Event, id: nat, failed: bool)
    requires Aside(event) && HandedUnlessFailed(s, id, failed)
    ensures HandedUnlessFailed(Step(s, k, event), id, failed)
  {
    AsideOwned(s, k, event, id);
    AsideFinishes(s, k, event, id);
    StaysForgotten(s, k, event);
  }

  lemma AsideFinishes(s: Chat, k: Settings, event: Event, id: nat)
    requires Aside(event)
    ensures LeftBy(Step(s, k, event).log, id, Finished(false)) <==> LeftBy(s.log, id, Finished(false))
  {
    match event {
      case Enqueue(_, _, _, _, _) => ArrivalAdds(s, k, event, id, Finished(false));
      case Clear => ClearAdds(s, id, Finished(false));
      case SteerAnswered(e, _) => LeaveAdds(s.log, [Cleanup(e.id)], [e.id], Consumed, id, Finished(false));
      case _ =>
    }
  }

  lemma StaysForgotten(s: Chat, k: Settings, event: Event)
    requires Aside(event)
    ensures !s.attached ==> !Step(s, k, event).attached
  {
  }

  lemma StepHanded(s: Chat, k: Settings, event: Event, id: nat, failed: bool)
    requires Shape(s, k) && HandedUnlessFailed(s, id, failed)
    ensures HandedUnlessFailed(Step(s, k, event), id, failed || FailsToPrepare(s, event, id))
  {
    match event {
      case Prepared(ok) => PreparedHanded(s, id, ok, failed);
      case Noticed => NoticedHanded(s, id, failed);
      case Processed(ok) => ProcessedHanded(s, id, ok, failed);
      case Replied => RepliedHanded(s, id, failed);
      case Flush => FlushHanded(s, id, failed);
      case OwnershipTaken(_) =>
      case _ => AsideHanded(s, k, event, id, failed);
    }
  }

  lemma {:induction false} StoryHands(k: Settings, story: Story, id: nat)
    ensures HandedUnlessFailed(After(k, story), id, FailedToPrepare(k, story, id))
  {
    match story
    case Made(_) =>
    case Then(before, event) =>
      StoryKeeps(k, before);
      StoryHands(k, before, id);
      StepHanded(After(k, before), k, event, id, FailedToPrepare(k, before, id));
  }

  /** A message whose batch is over was handed to the agent, unless its session could not be
      prepared or the chat has been cleared. */
  lemma FinishedMeansHanded(k: Settings, story: Story, i: nat)
    requires i < |After(k, story).log.departures| && After(k, story).log.departures[i].exit.Finished?
    ensures var s := After(k, story);
      var id := s.log.departures[i].id;
      id in HandedIds(s.log.prompts) || FailedToPrepare(k, story, id) || !s.attached
  {
    var d := After(k, story).log.departures[i];
    StoryHands(k, story, d.id);
    assert d == Departure(d.id, Finished(d.exit.owned));
  }

  // Timers

  predicate NeverCancelled(story: Story) {
    story.Then? ==> NeverCancelled(story.before) && !story.event.CancelTimer?
  }

  predicate TimerRuns(s: Chat) {
    s.attached && |s.pendingTexts| > 0 ==> s.debounceTimer
  }

  ghost predicate SamePending(s: Chat, t: Chat) {
    t.attached == s.attached && t.pendingTexts == s.pendingTexts && t.debounceTimer == s.debounceTimer
  }

  lemma {:induction false} EndLeavesPending(s: Chat, cs: seq<Callback>, live: Option<seq<Callback>>, exit: Exit)
    ensures SamePending(s, AfterBatch(s, cs, live, exit))
    decreases |s.collectEntries|, 0
  {
    var t := s.(batch := None, log := Leave(s.log, cs + live.GetOr([]), Ids(cs), exit));
    if t.attached && |t.collectEntries| > 0 {
      var es := t.collectEntries;
      BeginLeavesPending(t.(busy := false, collectEntries := []), BuildCollectPrompt(Texts(es)), Images(es), Cleanups(es), DropCleanups(es));
    }
  }

  lemma {:induction false} BeginLeavesPending(s: Chat, prompt: string, images: seq<string>, cs: seq<Callback>, drops: seq<Callback>)
    ensures SamePending(s, BeginBatch(s, prompt, images, cs, drops))
    decreases |s.collectEntries|, 1
  {
    if s.latestPlatform.None? {
      var t := s.(busy := true, steerSubmitting := None, steerPending := {}, steerBlocked := false,
                  log := s.log.(collected := [], offers := [], batches := s.log.batches + 1));
      EndLeavesPending(Settle(t), cs, Some(drops), Unsent);
    }
  }

  lemma FlowLeavesPending(s: Chat, k: Settings, event: Event)
    requires event.Prepared? || event.Noticed? || event.Processed? || event.Replied?
    ensures SamePending(s, Step(s, k, event))
  {
    if s.batch.Some? {
      var b := s.batch.value;
      EndLeavesPending(s, b.cleanups, b.liveDropCleanups, Finished(b.liveDropCleanups.None?));
      EndLeavesPending(Settle(s), b.cleanups, b.liveDropCleanups, Finished(b.liveDropCleanups.None?));
    }
  }

  lemma StepKeepsTimer(s: Chat, k: Settings, event: Event)
    requires TimerRuns(s) && !event.CancelTimer?
    ensures TimerRuns(Step(s, k, event))
  {
    match event {
      case Prepared(_) | Noticed | Processed(_) | Replied => FlowLeavesPending(s, k, event);
      case Flush =>
        if s.attached && |s.pendingTexts| > 0 {
          BeginLeavesPending(s.(pendingTexts := [], pendingImagePaths := [], pendingCleanups := [], pendingDropCleanups := [],
                                debounceTimer := false),
                             CombineTexts(s.pendingTexts), s.pendingImagePaths, s.pendingCleanups, s.pendingDropCleanups);
        }
      case _ =>
    }
  }

  /** Whatever is pending has a timer running that will flush it, until timers are cancelled. */
  lemma {:induction false} PendingHasTimer(k: Settings, story: Story)
    requires NeverCancelled(story)
    ensures TimerRuns(After(k, story))
  {
    if story.Then? {
      PendingHasTimer(k, story.before);
      StepKeepsTimer(After(k, story.before), k, story.event);
    }
  }

  // Where a batch goes

  /** The agent and the platform of the last message that arrived, the platform unless the idle
      chat has forgotten it. */
  function LastSource(k: Settings, story: Story): (string, Option<Platform>) {
    match story
    case Made(agentId) => (agentId, None)
    case Then(before, event) =>
      var s, last := After(k, before), LastSource(k, before);
      if event.Enqueue? && s.attached then (event.agentId, Some(event.platform))
      else if event.EvictIfIdle? && s.attached && Idle(s) && s.nextRejectionNoticeAt > event.now then (last.0, None)
      else last
  }

  ghost predicate SameSource(s: Chat, t: Chat) {
    t.agentId == s.agentId && t.latestPlatform == s.latestPlatform
    && (t.batch.Some? && !(s.batch.Some? && t.batch.value.number == s.batch.value.number) ==>
          Some(t.batch.value.platform) == s.latestPlatform)
    && (t.batch.Some? && s.batch.Some? && t.batch.value.number == s.batch.value.number ==>
          t.batch.value.platform == s.batch.value.platform)
  }

  /** A batch that begins is for the platform of that moment. */
  ghost predicate BeginsHere(s: Chat, t: Chat) {
    t.agentId == s.agentId && t.latestPlatform == s.latestPlatform
    && (t.batch.Some? ==> Some(t.batch.value.platform) == s.latestPlatform && s.log.batches <= t.batch.value.number < t.log.batches)
    && t.log.batches >= s.log.batches && t.log.prompts == s.log.prompts
  }

  lemma {:induction false} EndBeginsHere(s: Chat, cs: seq<Callback>, live: Option<seq<Callback>>, exit: Exit)
    ensures BeginsHere(s, AfterBatch(s, cs, live, exit))
    decreases |s.collectEntries|, 0
  {
    var t := s.(batch := None, log := Leave(s.log, cs + live.GetOr([]), Ids(cs), exit));
    if t.attached && |t.collectEntries| > 0 {
      var es := t.collectEntries;
      BeginBeginsHere(t.(busy := false, collectEntries := []), BuildCollectPrompt(Texts(es)), Images(es), Cleanups(es), DropCleanups(es));
    }
  }

  lemma {:induction false} BeginBeginsHere(s: Chat, prompt: string, images: seq<string>, cs: seq<Callback>, drops: seq<Callback>)
    ensures BeginsHere(s, BeginBatch(s, prompt, images, cs, drops))
    decreases |s.collectEntries|, 1
  {
    if s.latestPlatform.None? {
      var t := s.(busy := true, steerSubmitting := None, steerPending := {}, steerBlocked := false,
                  log := s.log.(collected := [], offers := [], batches := s.log.batches + 1));
      EndBeginsHere(Settle(t), cs, Some(drops), Unsent);
    }
  }

  /** Batches are numbered in the order in which they begin. */
  ghost predicate BatchIsLatest(s: Chat) {
    s.batch.Some? ==> s.batch.value.number < s.log.batches
  }

  /** What a step does that is neither an arrival nor an eviction. */
  ghost predicate KeepsSource(s: Chat, t: Chat) {
    SameSource(s, t) && BatchIsLatest(t)
  }

  lemma FinishSource(s: Chat)
    requires BatchIsLatest(s) && s.batch.Some?
    ensures KeepsSource(s, FinishBatch(s))
  {
    var b := s.batch.value;
    EndBeginsHere(s, b.cleanups, b.liveDropCleanups, Finished(b.liveDropCleanups.None?));
  }

  lemma FlowSource(s: Chat, k: Settings, event: Event)
    requires BatchIsLatest(s)
    requires event.Prepared? || event.Noticed? || event.Processed? || event.Replied?
    ensures KeepsSource(s, Step(s, k, event))
  {
    if s.batch.Some? {
      FinishSource(s);
      FinishSource(Settle(s));
    }
  }

  lemma FlushSource(s: Chat)
    requires BatchIsLatest(s)
    ensures KeepsSource(s, Flushed(s))
  {
    if s.attached && |s.pendingTexts| > 0 {
      BeginBeginsHere(s.(pendingTexts := [], pendingImagePaths := [], pendingCleanups := [], pendingDropCleanups := [],
                         debounceTimer := false),
                      CombineTexts(s.pendingTexts), s.pendingImagePaths, s.pendingCleanups, s.pendingDropCleanups);
    }
  }

  lemma StepSource(s: Chat, k: Settings, event: Event)
    requires BatchIsLatest(s) && !event.Enqueue? && !event.EvictIfIdle?
    ensures KeepsSource(s, Step(s, k, event))
  {
    match event {
      case Prepared(_) | Noticed | Processed(_) | Replied => FlowSource(s, k, event);
      case Flush => FlushSource(s);
      case _ =>
    }
  }

  lemma ArrivalSource(s: Chat, k: Settings, event: Event)
    requires BatchIsLatest(s) && event.Enqueue? && s.attached
    ensures var t := Step(s, k, event);
      t.agentId == event.agentId && t.latestPlatform == Some(event.platform) && t.batch == s.batch && BatchIsLatest(t)
  {
  }

  lemma {:induction false} StorySource(k: Settings, story: Story)
    ensures var s := After(k, story); BatchIsLatest(s) && (s.agentId, s.latestPlatform) == LastSource(k, story)
  {
    match story
    case Made(_) =>
    case Then(before, event) =>
      StorySource(k, before);
      if event.Enqueue? {
        if After(k, before).attached {
          ArrivalSource(After(k, before), k, event);
        }
      } else if !event.EvictIfIdle? {
        StepSource(After(k, before), k, event);
      }
  }

  /** A batch that begins is for the platform of the last message that arrived, and keeps it. */
  lemma BatchIsForLastPlatform(k: Settings, story: Story, event: Event)
    ensures var s, t := After(k, story), Step(After(k, story), k, event);
      t.batch.Some? ==>
        Some(t.batch.value.platform) == if s.batch.Some? && s.batch.value.number == t.batch.value.number
                                        then Some(s.batch.value.platform) else LastSource(k, story).1
  {
    StorySource(k, story);
    if event.Enqueue? {
      if After(k, story).attached {
        ArrivalSource(After(k, story), k, event);
      }
    } else if !event.EvictIfIdle? {
      StepSource(After(k, story), k, event);
    }
  }

  lemma FinishHandsNothing(s: Chat)
    requires s.batch.Some?
    ensures FinishBatch(s).log.prompts == s.log.prompts
  {
    var b := s.batch.value;
    EndBeginsHere(s, b.cleanups, b.liveDropCleanups, Finished(b.liveDropCleanups.None?));
  }

  /** The one step that hands a prompt over. */
  predicate Hands(s: Chat, event: Event) {
    event.Noticed? && SuspendedIn(s, Notifying) && s.attached
  }

  lemma FlowHands(s: Chat, k: Settings, event: Event)
    requires event.Prepared? || event.Noticed? || event.Processed? || event.Replied?
    ensures !Hands(s, event) ==> Step(s, k, event).log.prompts == s.log.prompts
  {
    if s.batch.Some? {
      FinishHandsNothing(s);
      FinishHandsNothing(Settle(s));
    }
  }

  lemma FlushHandsNothing(s: Chat)
    ensures Flushed(s).log.prompts == s.log.prompts
  {
    if s.attached && |s.pendingTexts| > 0 {
      BeginBeginsHere(s.(pendingTexts := [], pendingImagePaths := [], pendingCleanups := [], pendingDropCleanups := [],
                         debounceTimer := false),
                      CombineTexts(s.pendingTexts), s.pendingImagePaths, s.pendingCleanups, s.pendingDropCleanups);
    }
  }

  lemma StepHands(s: Chat, k: Settings, event: Event)
    ensures !Hands(s, event) ==> Step(s, k, event).log.prompts == s.log.prompts
  {
    match event {
      case Prepared(_) | Noticed | Processed(_) | Replied => FlowHands(s, k, event);
      case Flush => FlushHandsNothing(s);
      case _ =>
    }
  }

  /** Exactly a batch whose notice is done is handed over, whole, to the agent of the last
      message that arrived and on its own platform. */
  lemma PromptIsForLastAgent(k: Settings, story: Story, event: Event)
    ensures var s, t := After(k, story), Step(After(k, story), k, event);
      t.log.prompts == s.log.prompts
        + if Hands(s, event)
          then [Prompt(BatchIds(s), s.batch.value.prompt, s.batch.value.images, LastSource(k, story).0, s.batch.value.platform)]
          else []
  {
    StorySource(k, story);
    StepHands(After(k, story), k, event);
  }

  // Failures

  /** The session of this batch cannot be prepared now, or the agent fails it, in a chat that
      has not been cleared. */
  predicate Fails(s: Chat, event: Event, number: nat) {
    && s.attached && s.batch.Some? && s.batch.value.number == number
    && ((event == Prepared(false) && SuspendedIn(s, Preparing)) || (event == Processed(false) && SuspendedIn(s, Processing)))
  }

  predicate HasFailed(k: Settings, story: Story, number: nat) {
    story.Then? && (HasFailed(k, story.before, number) || Fails(After(k, story.before), story.event, number))
  }

  predicate RepliesNow(s: Chat, number: nat) {
    SuspendedIn(s, Replying) && s.batch.value.number == number
  }

  /** An error reply for this batch has been sent, or sending it failed too. */
  predicate WasReplied(k: Settings, story: Story, number: nat) {
    story.Then? &&
    (WasReplied(k, story.before, number) || (story.event.Replied? && RepliesNow(After(k, story.before), number)))
  }

  lemma ReplyStays(s: Chat, k: Settings, event: Event, number: nat)
    requires Shape(s, k) && RepliesNow(s, number) && !event.Replied?
    ensures RepliesNow(Step(s, k, event), number)
  {
  }

  lemma FailureBeginsReply(s: Chat, k: Settings, event: Event, number: nat)
    requires Fails(s, event, number)
    ensures RepliesNow(Step(s, k, event), number)
  {
  }

  lemma StoryShape(k: Settings, story: Story)
    ensures Shape(After(k, story), k)
  {
    StoryKeeps(k, story);
  }

  /** Every failure is answered with an error reply before anything else becomes of the batch. */
  lemma {:induction false} FailuresAreReplied(k: Settings, story: Story, number: nat)
    requires HasFailed(k, story, number)
    ensures WasReplied(k, story, number) || RepliesNow(After(k, story), number)
  {
    var s := After(k, story.before);
    if HasFailed(k, story.before, number) {
      FailuresAreReplied(k, story.before, number);
      StoryShape(k, story.before);
      if RepliesNow(s, number) && !story.event.Replied? {
        ReplyStays(s, k, story.event, number);
      }
    } else {
      FailureBeginsReply(s, k, story.event, number);
    }
  }

  // Saturation notices

  /** A message is turned away, and the sender is to be told. */
  predicate SchedulesNotice(s: Chat, t: Chat) {
    t.rejectionNoticeScheduled && !s.rejectionNoticeScheduled
  }

  /** When the last notice was scheduled. */
  function LastNotice(k: Settings, story: Story): Option<int> {
    match story
    case Made(_) => None
    case Then(before, event) =>
      if event.Enqueue? && SchedulesNotice(After(k, before), After(k, story)) then Some(event.now) else LastNotice(k, before)
  }

  ghost predicate SameNotice(s: Chat, t: Chat) {
    t.rejectionNoticeScheduled == s.rejectionNoticeScheduled && t.nextRejectionNoticeAt == s.nextRejectionNoticeAt
  }

  lemma {:induction false} EndLeavesNotice(s: Chat, cs: seq<Callback>, live: Option<seq<Callback>>, exit: Exit)
    ensures SameNotice(s, AfterBatch(s, cs, live, exit))
    decreases |s.collectEntries|, 0
  {
    var t := s.(batch := None, log := Leave(s.log, cs + live.GetOr([]), Ids(cs), exit));
    if t.attached && |t.collectEntries| > 0 {
      var es := t.collectEntries;
      BeginLeavesNotice(t.(busy := false, collectEntries := []), BuildCollectPrompt(Texts(es)), Images(es), Cleanups(es), DropCleanups(es));
    }
  }

  lemma {:induction false} BeginLeavesNotice(s: Chat, prompt: string, images: seq<string>, cs: seq<Callback>, drops: seq<Callback>)
    ensures SameNotice(s, BeginBatch(s, prompt, images, cs, drops))
    decreases |s.collectEntries|, 1
  {
    if s.latestPlatform.None? {
      var t := s.(busy := true, steerSubmitting := None, steerPending := {}, steerBlocked := false,
                  log := s.log.(collected := [], offers := [], batches := s.log.batches + 1));
      EndLeavesNotice(Settle(t), cs, Some(drops), Unsent);
    }
  }

  lemma FlowLeavesNotice(s: Chat, k: Settings, event: Event)
    requires event.Prepared? || event.Noticed? || event.Processed? || event.Replied?
    ensures SameNotice(s, Step(s, k, event))
  {
    if s.batch.Some? {
      var b := s.batch.value;
      EndLeavesNotice(s, b.cleanups, b.liveDropCleanups, Finished(b.liveDropCleanups.None?));
      EndLeavesNotice(Settle(s), b.cleanups, b.liveDropCleanups, Finished(b.liveDropCleanups.None?));
    }
  }

  lemma OnlyArrivalsNotify(s: Chat, k: Settings, event: Event)
    requires !event.Enqueue?
    ensures var t := Step(s, k, event);
      t.nextRejectionNoticeAt == s.nextRejectionNoticeAt && (t.rejectionNoticeScheduled ==> s.rejectionNoticeScheduled)
  {
    match event {
      case Prepared(_) | Noticed | Processed(_) | Replied => FlowLeavesNotice(s, k, event);
      case Flush =>
        if s.attached && |s.pendingTexts| > 0 {
          BeginLeavesNotice(s.(pendingTexts := [], pendingImagePaths := [], pendingCleanups := [], pendingDropCleanups := [],
                               debounceTimer := false),
                            CombineTexts(s.pendingTexts), s.pendingImagePaths, s.pendingCleanups, s.pendingDropCleanups);
        }
      case _ =>
    }
  }

  lemma {:induction false} CooldownRuns(k: Settings, story: Story)
    ensures var last := LastNotice(k, story);
      After(k, story).nextRejectionNoticeAt == if last.Some? then last.value + 30_000 else 0
    ensures After(k, story).rejectionNoticeScheduled ==> LastNotice(k, story).Some?
  {
    if story.Then? {
      CooldownRuns(k, story.before);
      if !story.event.Enqueue? {
        OnlyArrivalsNotify(After(k, story.before), k, story.event);
      }
    }
  }

  /** The sender is told exactly when a message is turned away with no notice waiting and half a
      minute gone since the last one. */
  lemma NoticeExactlyWhenDue(k: Settings, story: Story, event: Event)
    requires After(k, story).attached && (event.Enqueue? ==> event.now >= 0)
    ensures var s, last := After(k, story), LastNotice(k, story);
      SchedulesNotice(s, Step(s, k, event)) <==>
      && event.Enqueue? && WaitingWithIt(s) >= k.queueCap && !s.rejectionNoticeScheduled
      && (last.Some? ==> event.now >= last.value + 30_000)
  {
    CooldownRuns(k, story);
    if !event.Enqueue? {
      OnlyArrivalsNotify(After(k, story), k, event);
    }
  }

  // Forgetting

  /** Nothing is in the chat's hands: no turn, no message and no timer. */
  predicate AtRest(s: Chat) {
    s.batch.None? && !s.busy && s.pendingTexts == [] && s.collectEntries == [] && !s.debounceTimer
  }

  lemma RestsIffIdle(s: Chat, k: Settings)
    requires Shape(s, k)
    ensures s.attached ==> (AtRest(s) <==> Idle(s))
  {
  }

  lemma ForgetsWhen(s: Chat, k: Settings, now: int)
    requires Shape(s, k) && s.attached
    ensures !Step(s, k, EvictIfIdle(now)).attached <==> AtRest(s) && now >= s.nextRejectionNoticeAt
  {
    RestsIffIdle(s, k);
  }

  /** An idle check forgets a chat exactly if it is at rest and the next notice may come at once,
      so a chat that is made anew owes nobody a pause. */
  lemma ForgottenExactlyAtRest(k: Settings, story: Story, now: int)
    requires After(k, story).attached && now >= 0
    ensures var s, last := After(k, story), LastNotice(k, story);
      !Step(s, k, EvictIfIdle(now)).attached <==> AtRest(s) && (last.Some? ==> now >= last.value + 30_000)
  {
    StoryShape(k, story);
    CooldownRuns(k, story);
    ForgetsWhen(After(k, story), k, now);
  }
}
