/** Who keeps the media of a message, told from the events of a story: the agent that took
    ownership of a batch it had been handed, or steering that consumed the message. */
module ChatOwnership {
  import opened Common
  import opened CollectPrompt
  import opened ChatQueue
  import opened ChatProofs
  import opened ChatTheorems

  /** The agent takes the running batch's media, and the message is one that it was handed
      with that batch; a chat that has been cleared does not hear of it. */
  predicate Owns(s: Chat, event: Event, id: nat) {
    && event.OwnershipTaken? && s.attached && s.batch.Some? && s.batch.value.number == event.number
    && id in Ids(s.batch.value.cleanups) && id in HandedIds(s.log.prompts)
  }

  /** Steering reports that it consumed an entry that waits for this answer. */
  predicate Consumes(s: Chat, event: Event, id: nat) {
    && event.SteerAnswered? && event.acknowledged && event.entry.id == id
    && s.attached && s.busy && event.entry in s.steerPending && event.entry in s.collectEntries
  }

  predicate WasOwned(k: Settings, story: Story, id: nat) {
    match story
    case Made(_) => false
    case Then(before, event) => WasOwned(k, before, id) || Owns(After(k, before), event, id)
  }

  predicate WasConsumed(k: Settings, story: Story, id: nat) {
    match story
    case Made(_) => false
    case Then(before, event) => WasConsumed(k, before, id) || Consumes(After(k, before), event, id)
  }

  predicate LeftBy(log: Log, id: nat, exit: Exit) {
    Departure(id, exit) in log.departures
  }

  predicate InBatch(s: Chat, id: nat) {
    s.batch.Some? && id in Ids(s.batch.value.cleanups)
  }

  // Steps

  /** The end of a batch lets out its messages, and no others but without a platform; the
      batch that it begins has all its drop cleanups and has not been handed over. */
  ghost predicate EndsAs(s: Chat, t: Chat, ids: seq<nat>, exit: Exit, id: nat, x: Exit) {
    && (x != Unsent ==> (LeftBy(t.log, id, x) <==> LeftBy(s.log, id, x) || (x == exit && id in ids)))
    && t.log.prompts == s.log.prompts
    && (t.batch.Some? ==> t.batch.value.liveDropCleanups.Some? && !t.batch.value.handed)
  }

  lemma EndAdds(s: Chat, cs: seq<Callback>, live: Option<seq<Callback>>, exit: Exit, id: nat, x: Exit)
    ensures EndsAs(s, AfterBatch(s, cs, live, exit), Ids(cs), exit, id, x)
    decreases |s.collectEntries|, 0
  {
    var t := s.(batch := None, log := Leave(s.log, cs + live.GetOr([]), Ids(cs), exit));
    LeaveAdds(s.log, cs + live.GetOr([]), Ids(cs), exit, id, x);
    if t.attached && |t.collectEntries| > 0 {
      var es := t.collectEntries;
      BeginAdds(t.(busy := false, collectEntries := []), BuildCollectPrompt(Texts(es)), Images(es), Cleanups(es), DropCleanups(es), id, x);
    }
  }

  lemma BeginAdds(s: Chat, prompt: string, images: seq<string>, cs: seq<Callback>, drops: seq<Callback>, id: nat, x: Exit)
    ensures EndsAs(s, BeginBatch(s, prompt, images, cs, drops), [], Unsent, id, x)
    decreases |s.collectEntries|, 1
  {
    if s.latestPlatform.None? {
      var t := s.(busy := true, steerSubmitting := None, steerPending := {}, steerBlocked := false,
                  log := s.log.(collected := [], offers := [], batches := s.log.batches + 1));
      EndAdds(Settle(t), cs, Some(drops), Unsent, id, x);
    }
  }

  lemma LeaveAdds(log: Log, ran: seq<Callback>, ids: seq<nat>, exit: Exit, id: nat, x: Exit)
    ensures LeftBy(Leave(log, ran, ids, exit), id, x) <==> LeftBy(log, id, x) || (x == exit && id in ids)
  {
    var ds := Departures(ids, exit);
    if id in ids && x == exit {
      var i :| 0 <= i < |ids| && ids[i] == id;
      assert ds[i] == Departure(id, x);
    }
  }

  lemma FinishAdds(s: Chat, id: nat, x: Exit)
    requires s.batch.Some?
    ensures var b := s.batch.value;
      EndsAs(s, FinishBatch(s), Ids(b.cleanups), Finished(b.liveDropCleanups.None?), id, x)
  {
    var b := s.batch.value;
    EndAdds(s, b.cleanups, b.liveDropCleanups, Finished(b.liveDropCleanups.None?), id, x);
  }

  lemma ArrivalAdds(s: Chat, k: Settings, event: Event, id: nat, x: Exit)
    requires event.Enqueue? && x != Rejected
    ensures LeftBy(Step(s, k, event).log, id, x) <==> LeftBy(s.log, id, x)
  {
    var n := |s.log.arrivals|;
    var log := s.log.(arrivals := s.log.arrivals + [Entry(n, event.text, event.images)]);
    LeaveAdds(log, [Cleanup(n), DropCleanup(n)], [n], Rejected, id, x);
  }

  lemma ClearAdds(s: Chat, id: nat, x: Exit)
    requires x != Dropped
    ensures LeftBy(Cleared(s).log, id, x) <==> LeftBy(s.log, id, x)
  {
    var ran := s.pendingCleanups + s.pendingDropCleanups;
    var l := Leave(s.log, ran, Ids(s.pendingCleanups), Dropped);
    LeaveAdds(s.log, ran, Ids(s.pendingCleanups), Dropped, id, x);
    LeaveAdds(l, InterleavedCleanups(s.collectEntries), EntryIds(s.collectEntries), Dropped, id, x);
  }

  // Ownership

  /** The agent owns the media of exactly the messages of an owned running batch and of those
      that left so. */
  ghost predicate OwnedAre(s: Chat, id: nat, owned: bool) {
    && (owned <==> LeftBy(s.log, id, Finished(true)) || (InBatch(s, id) && s.batch.value.liveDropCleanups.None?))
    && (InBatch(s, id) && s.batch.value.handed ==> id in HandedIds(s.log.prompts))
  }

  lemma FinishOwned(s: Chat, id: nat, owned: bool)
    requires s.batch.Some? && OwnedAre(s, id, owned)
    ensures OwnedAre(FinishBatch(s), id, owned)
  {
    FinishAdds(s, id, Finished(true));
  }

  lemma FailOwned(s: Chat, id: nat, owned: bool)
    requires s.batch.Some? && OwnedAre(s, id, owned)
    ensures OwnedAre(FailBatch(s), id, owned)
  {
    FinishOwned(Settle(s), id, owned);
  }

  lemma FlowOwned(s: Chat, k: Settings, event: Event, id: nat, owned: bool)
    requires OwnedAre(s, id, owned)
    requires event.Prepared? || event.Processed? || event.Replied?
    ensures OwnedAre(Step(s, k, event), id, owned)
  {
    if s.batch.Some? {
      FailOwned(s, id, owned);
      FinishOwned(s, id, owned);
      FinishOwned(Settle(s), id, owned);
    }
  }

  lemma HandedGrow(prompts: seq<Prompt>, p: Prompt, id: nat)
    ensures id in HandedIds(prompts + [p]) <==> id in HandedIds(prompts) || id in p.ids
  {
    assert (prompts + [p])[..|prompts|] == prompts;
  }

  lemma NoticeOwned(s: Chat, id: nat, owned: bool)
    requires OwnedAre(s, id, owned)
    ensures OwnedAre(AfterNotice(s), id, owned)
  {
    if SuspendedIn(s, Notifying) {
      var b := s.batch.value;
      HandedGrow(s.log.prompts, Prompt(Ids(b.cleanups), b.prompt, b.images, s.agentId, b.platform), id);
      FinishOwned(Settle(s), id, owned);
    }
  }

  lemma FlushOwned(s: Chat, id: nat, owned: bool)
    requires OwnedAre(s, id, owned) && (s.attached && s.batch.Some? ==> s.pendingTexts == [])
    ensures OwnedAre(Flushed(s), id, owned)
  {
    if s.attached && |s.pendingTexts| > 0 {
      BeginAdds(s.(pendingTexts := [], pendingImagePaths := [], pendingCleanups := [], pendingDropCleanups := [],
                   debounceTimer := false),
                CombineTexts(s.pendingTexts), s.pendingImagePaths, s.pendingCleanups, s.pendingDropCleanups, id, Finished(true));
    }
  }

  /** A batch that has not been handed over is not among the prompts. */
  lemma WaitingIsNotHanded(s: Chat, id: nat)
    requires InOrder(s, []) && InBatch(s, id) && id in HandedIds(s.log.prompts)
    ensures s.batch.value.handed
  {
    if !s.batch.value.handed {
      LineFront(HandedIds(s.log.prompts), WaitingBatchIds(s), EntryIds(s.collectEntries), PendingIds(s));
      AscendingFront(HandedIds(s.log.prompts) + WaitingBatchIds(s), EntryIds(s.collectEntries) + PendingIds(s), |s.log.arrivals|);
      var i :| 0 <= i < |HandedIds(s.log.prompts)| && HandedIds(s.log.prompts)[i] == id;
      var j :| 0 <= j < |WaitingBatchIds(s)| && WaitingBatchIds(s)[j] == id;
      NoRepeat(HandedIds(s.log.prompts), WaitingBatchIds(s), |s.log.arrivals|, i, j);
    }
  }

  lemma NoRepeat(a: seq<nat>, b: seq<nat>, bound: nat, i: nat, j: nat)
    requires Ascending(a + b, bound) && i < |a| && j < |b|
    ensures a[i] != b[j]
  {
    assert (a + b)[i] == a[i] && (a + b)[|a| + j] == b[j];
  }

  lemma TakingOwned(s: Chat, number: nat, id: nat, owned: bool)
    requires OwnedAre(s, id, owned) && InOrder(s, [])
    ensures OwnedAre(TakeOwnership(s, number), id, owned || Owns(s, OwnershipTaken(number), id))
  {
    if Owns(s, OwnershipTaken(number), id) {
      WaitingIsNotHanded(s, id);
    }
  }

  /** What happens to a chat beside its batches. */
  predicate Aside(event: Event) {
    event.Enqueue? || event.CancelTimer? || event.SteerEnqueued? || event.SteerAnswered? || event.NoticeDispatched?
    || event.EvictIfIdle? || event.Clear?
  }

  ghost predicate SameBatch(s: Chat, t: Chat, id: nat) {
    && t.batch == s.batch && t.log.prompts == s.log.prompts
    && (LeftBy(t.log, id, Finished(true)) <==> LeftBy(s.log, id, Finished(true)))
  }

  lemma AsideOwned(s: Chat, k: Settings, event: Event, id: nat)
    requires Aside(event)
    ensures SameBatch(s, Step(s, k, event), id)
  {
    match event {
      case Enqueue(_, _, _, _, _) => ArrivalAdds(s, k, event, id, Finished(true));
      case Clear => ClearAdds(s, id, Finished(true));
      case SteerAnswered(e, _) =>
        LeaveAdds(s.log, [Cleanup(e.id)], [e.id], Consumed, id, Finished(true));
      case _ =>
    }
  }

  lemma StepOwned(s: Chat, k: Settings, event: Event, id: nat, owned: bool)
    requires Inv(s, k) && OwnedAre(s, id, owned)
    ensures OwnedAre(Step(s, k, event), id, owned || Owns(s, event, id))
  {
    match event {
      case Noticed => NoticeOwned(s, id, owned);
      case Prepared(_) | Processed(_) | Replied => FlowOwned(s, k, event, id, owned);
      case Flush => FlushOwned(s, id, owned);
      case OwnershipTaken(number) => TakingOwned(s, number, id, owned);
      case _ => AsideOwned(s, k, event, id);
    }
  }

  lemma {:induction false} StoryOwned(k: Settings, story: Story, id: nat)
    ensures OwnedAre(After(k, story), id, WasOwned(k, story, id))
  {
    match story
    case Made(_) =>
    case Then(before, event) =>
      StoryKeeps(k, before);
      StoryOwned(k, before, id);
      StepOwned(After(k, before), k, event, id, WasOwned(k, before, id));
  }

  // Steering

  lemma StepConsumed(s: Chat, k: Settings, event: Event, id: nat)
    ensures LeftBy(Step(s, k, event).log, id, Consumed) <==> LeftBy(s.log, id, Consumed) || Consumes(s, event, id)
  {
    match event {
      case Enqueue(_, _, _, _, _) => ArrivalAdds(s, k, event, id, Consumed);
      case Clear => ClearAdds(s, id, Consumed);
      case SteerAnswered(e, _) =>
        LeaveAdds(s.log, [Cleanup(e.id)], [e.id], Consumed, id, Consumed);
      case Prepared(_) | Noticed | Processed(_) | Replied =>
        FlowConsumed(s, k, event, id);
      case Flush =>
        FlushConsumed(s, id);
      case _ =>
    }
  }

  lemma FlowConsumed(s: Chat, k: Settings, event: Event, id: nat)
    requires event.Prepared? || event.Noticed? || event.Processed? || event.Replied?
    ensures LeftBy(Step(s, k, event).log, id, Consumed) <==> LeftBy(s.log, id, Consumed)
  {
    if s.batch.Some? {
      FinishAdds(s, id, Consumed);
      FinishAdds(Settle(s), id, Consumed);
    }
  }

  lemma FlushConsumed(s: Chat, id: nat)
    ensures LeftBy(Flushed(s).log, id, Consumed) <==> LeftBy(s.log, id, Consumed)
  {
    if s.attached && |s.pendingTexts| > 0 {
      BeginAdds(s.(pendingTexts := [], pendingImagePaths := [], pendingCleanups := [], pendingDropCleanups := [],
                   debounceTimer := false),
                CombineTexts(s.pendingTexts), s.pendingImagePaths, s.pendingCleanups, s.pendingDropCleanups, id, Consumed);
    }
  }

  lemma {:induction false} StoryConsumed(k: Settings, story: Story, id: nat)
    ensures LeftBy(After(k, story).log, id, Consumed) <==> WasConsumed(k, story, id)
  {
    match story
    case Made(_) =>
    case Then(before, event) =>
      StoryConsumed(k, before, id);
      StepConsumed(After(k, before), k, event, id);
  }

  // What the events decide

  lemma {:induction false} LeavesOnce(ds: seq<Departure>, i: nat, j: nat)
    requires i < |ds| && j < |ds| && ds[i].id == ds[j].id && multiset(DepartedIds(ds))[ds[i].id] <= 1
    ensures i == j
  {
    var ids := DepartedIds(ds);
    if i < j {
      TwoCount(ids, i, j);
    } else if j < i {
      TwoCount(ids, j, i);
    }
  }

  lemma TwoCount(ids: seq<nat>, i: nat, j: nat)
    requires i < j < |ids| && ids[i] == ids[j]
    ensures multiset(ids)[ids[i]] >= 2
  {
    assert ids == ids[..j] + ids[j..];
    assert ids[..j][i] == ids[i] && ids[j..][0] == ids[i];
    assert multiset(ids) == multiset(ids[..j]) + multiset(ids[j..]);
  }

  /** A message left with its media in the agent's hands exactly if the agent took ownership of
      the batch it had been handed with, before any clear; and as consumed exactly if
      steering consumed it. */
  lemma EventsDecideExit(k: Settings, story: Story, i: nat)
    requires i < |After(k, story).log.departures|
    ensures var d := After(k, story).log.departures[i];
      && (d.exit == Finished(true) <==> WasOwned(k, story, d.id))
      && (d.exit == Consumed <==> WasConsumed(k, story, d.id))
  {
    var s := After(k, story);
    var ds := s.log.departures;
    StoryOwned(k, story, ds[i].id);
    StoryConsumed(k, story, ds[i].id);
    EachMessageIsInOnePlace(k, story, ds[i].id);
    IsCounted(ds, i);
    forall j | 0 <= j < |ds| && ds[j].id == ds[i].id
      ensures j == i
    {
      LeavesOnce(ds, i, j);
    }
  }

  /** A departed message's cleanup has run exactly once; its drop cleanup has run once too,
      unless its media was taken over, and then never. */
  lemma CallbacksRunOnce(k: Settings, story: Story, i: nat)
    requires i < |After(k, story).log.departures|
    ensures var log := After(k, story).log;
      var id := log.departures[i].id;
      && multiset(log.ran)[Cleanup(id)] == 1
      && multiset(log.ran)[DropCleanup(id)] == if WasOwned(k, story, id) || WasConsumed(k, story, id) then 0 else 1
  {
    CallbacksFollowExit(k, story, i);
    EventsDecideExit(k, story, i);
  }

  /** Once taken over, media is never dropped, however the story goes on. */
  lemma TakenMediaIsKept(k: Settings, story: Story, id: nat)
    requires WasOwned(k, story, id) || WasConsumed(k, story, id)
    ensures DropCleanup(id) !in After(k, story).log.ran
  {
    var log := After(k, story).log;
    if id in DepartedIds(log.departures) {
      var i :| 0 <= i < |log.departures| && DepartedIds(log.departures)[i] == id;
      CallbacksRunOnce(k, story, i);
    } else {
      NothingRunsEarly(k, story, id);
    }
  }
}
