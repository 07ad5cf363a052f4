/** The message queue as it runs: chat states are objects that timers, acknowledgements
    and suspended flushes keep hold of after the queue has forgotten them. */
module MessageQueue {
  import opened Common
  import opened CollectPrompt
  import opened ChatQueue

  lemma LeaveInTwo(log: Log, a: seq<Callback>, b: seq<Callback>, ids: seq<nat>, exit: Exit)
    ensures Leave(Leave(log, a, ids, exit), b, [], exit) == Leave(log, a + b, ids, exit)
  {
    assert Departures([], exit) == [];
    var ds := log.departures + Departures(ids, exit);
    assert ds + [] == ds;
    assert log.ran + a + b == log.ran + (a + b);
  }

  class ChatState {
    const chatId: string
    var pendingTexts: seq<string>
    var pendingImagePaths: seq<string>
    var pendingCleanups: seq<Callback>
    var pendingDropCleanups: seq<Callback>
    var debounceTimer: bool
    var collectEntries: seq<Entry>
    var busy: bool
    var steerSubmitting: Option<Entry>
    var steerPending: set<Entry>
    var steerBlocked: bool
    var latestPlatform: Option<Platform>
    var agentId: string
    var nextRejectionNoticeAt: int
    var rejectionNoticeScheduled: bool

    /** The locals of the suspended flush. */
    var batch: Option<Batch>

    // Numbers for the next message and the next batch: they stand for object identity.
    var nextId: nat
    var nextBatch: nat

    ghost var attached: bool
    ghost var log: Log

    constructor (chatId: string, agentId: string)
      ensures this.chatId == chatId && View() == NewChat(agentId)
      ensures nextId == 0 && nextBatch == 0
    {
      this.chatId := chatId;
      pendingTexts, pendingImagePaths, pendingCleanups, pendingDropCleanups := [], [], [], [];
      debounceTimer, collectEntries, busy := false, [], false;
      steerSubmitting, steerPending, steerBlocked := None, {}, false;
      latestPlatform, this.agentId := None, agentId;
      nextRejectionNoticeAt, rejectionNoticeScheduled := 0, false;
      batch, nextId, nextBatch := None, 0, 0;
      attached, log := true, NOTHING_YET;
    }

    ghost function View(): Chat
      reads this
    {
      Chat(pendingTexts, pendingImagePaths, pendingCleanups, pendingDropCleanups, debounceTimer,
           collectEntries, busy, steerSubmitting, steerPending, steerBlocked, latestPlatform, agentId,
           nextRejectionNoticeAt, rejectionNoticeScheduled, attached, batch, log)
    }

    ghost predicate Numbered()
      reads this
    {
      nextId == |log.arrivals| && nextBatch == log.batches
    }

    /** Runs every callback once; the departures are for the record. */
    method RunCleanups(cs: seq<Callback>, ghost ids: seq<nat>, ghost exit: Exit)
      modifies this`log
      ensures log == Leave(old(log), cs, ids, exit)
    {
      log := log.(departures := log.departures + Departures(ids, exit));
      ghost var ran := log.ran;
      for i := 0 to |cs|
        invariant log == Leave(old(log), cs[..i], ids, exit)
      {
        log := log.(ran := log.ran + [cs[i]]);
      }
      assert cs[..|cs|] == cs;
    }

    method TakePending()
      modifies this`pendingTexts, this`pendingImagePaths, this`pendingCleanups, this`pendingDropCleanups, this`debounceTimer
      ensures pendingTexts == [] && pendingImagePaths == [] && pendingCleanups == [] && pendingDropCleanups == []
      ensures !debounceTimer
    {
      pendingTexts, pendingImagePaths, pendingCleanups, pendingDropCleanups := [], [], [], [];
      debounceTimer := false;
    }

    method Arrive(e: Entry, platform: Platform)
      modifies this`latestPlatform, this`nextId, this`log
      ensures latestPlatform == Some(platform) && nextId == old(nextId) + 1
      ensures log == old(log).(arrivals := old(log).arrivals + [e])
    {
      latestPlatform := Some(platform);
      nextId := nextId + 1;
      log := log.(arrivals := log.arrivals + [e]);
    }

    method Collect(e: Entry)
      modifies this`collectEntries, this`log
      ensures collectEntries == old(collectEntries) + [e]
      ensures log == old(log).(collected := old(log).collected + [e])
    {
      collectEntries := collectEntries + [e];
      log := log.(collected := log.collected + [e]);
    }

    /** Restarts the debounce timer. */
    method Append(e: Entry)
      modifies this`pendingTexts, this`pendingImagePaths, this`pendingCleanups, this`pendingDropCleanups, this`debounceTimer
      ensures pendingTexts == old(pendingTexts) + [e.text] && pendingImagePaths == old(pendingImagePaths) + e.images
      ensures pendingCleanups == old(pendingCleanups) + [Cleanup(e.id)]
      ensures pendingDropCleanups == old(pendingDropCleanups) + [DropCleanup(e.id)] && debounceTimer
    {
      pendingTexts := pendingTexts + [e.text];
      pendingImagePaths := pendingImagePaths + e.images;
      pendingCleanups := pendingCleanups + [Cleanup(e.id)];
      pendingDropCleanups := pendingDropCleanups + [DropCleanup(e.id)];
      debounceTimer := true;
    }

    /** Cleanups, then drop cleanups unless the agent has taken the media. */
    method RunBatchCleanups(cs: seq<Callback>, live: Option<seq<Callback>>, ghost exit: Exit)
      modifies this`log
      ensures log == Leave(old(log), cs + live.GetOr([]), Ids(cs), exit)
    {
      LeaveInTwo(log, cs, live.GetOr([]), Ids(cs), exit);
      RunCleanups(cs, Ids(cs), exit);
      RunCleanups(live.GetOr([]), [], exit);
    }

    method BeginBusyGeneration()
      modifies this`busy, this`steerSubmitting, this`steerPending, this`steerBlocked, this`nextBatch, this`log
      ensures busy && steerSubmitting == None && steerPending == {} && !steerBlocked
      ensures nextBatch == old(nextBatch) + 1
      ensures log == old(log).(collected := [], offers := [], batches := old(log).batches + 1)
    {
      busy := true;
      steerSubmitting := None;
      steerPending := {};
      steerBlocked := false;
      nextBatch := nextBatch + 1;
      log := log.(collected := [], offers := [], batches := log.batches + 1);
    }

    method WithdrawSteer(entry: Entry)
      modifies this`steerPending, this`steerSubmitting
      ensures steerPending == old(steerPending) - {entry}
      ensures steerSubmitting == if old(steerSubmitting) == Some(entry) then None else old(steerSubmitting)
    {
      steerPending := steerPending - {entry};
      if steerSubmitting == Some(entry) {
        steerSubmitting := None;
      }
    }

    method SettleBusyGeneration()
      modifies this`steerSubmitting, this`steerPending, this`steerBlocked
      ensures steerSubmitting == None && steerPending == {} && steerBlocked
    {
      steerSubmitting := None;
      steerPending := {};
      steerBlocked := true;
    }
  }

  /** What is left to do once a batch's callbacks have run. */
  function Drained(t: Chat): Chat {
    if |t.collectEntries| == 0 then t.(busy := false)
    else
      var es := t.collectEntries;
      BeginBatch(t.(busy := false, collectEntries := []), BuildCollectPrompt(Texts(es)), Images(es), Cleanups(es), DropCleanups(es))
  }

  /** A generation that found no platform: begun and settled at once. */
  function Stillborn(s: Chat): Chat {
    Settle(s.(busy := true, log := s.log.(collected := [], offers := [], batches := s.log.batches + 1)))
  }

  lemma BeginWithoutPlatform(s: Chat, prompt: string, images: seq<string>, cs: seq<Callback>, drops: seq<Callback>)
    requires s.latestPlatform.None?
    ensures BeginBatch(s, prompt, images, cs, drops) == AfterBatch(Stillborn(s), cs, Some(drops), Unsent)
  {
    var t := s.(busy := true, steerSubmitting := None, steerPending := {}, steerBlocked := false,
                log := s.log.(collected := [], offers := [], batches := s.log.batches + 1));
    assert Settle(t) == Stillborn(s);
  }

  lemma EndAttached(s: Chat, cs: seq<Callback>, live: Option<seq<Callback>>, exit: Exit)
    ensures var t := s.(batch := None, log := Leave(s.log, cs + live.GetOr([]), Ids(cs), exit));
      AfterBatch(s, cs, live, exit) == if t.attached then Drained(t) else t
  {
  }

  /** What becomes of a message that has just been entered among the arrivals. */
  function Admitted(t: Chat, k: Settings, e: Entry, now: int): Chat {
    if !HasRoom(t, k) then Turned(t, e, now)
    else if t.busy then
      AttemptSteer(t.(collectEntries := t.collectEntries + [e], log := t.log.(collected := t.log.collected + [e])), k)
    else
      t.(pendingTexts := t.pendingTexts + [e.text], pendingImagePaths := t.pendingImagePaths + e.images,
         pendingCleanups := t.pendingCleanups + [Cleanup(e.id)],
         pendingDropCleanups := t.pendingDropCleanups + [DropCleanup(e.id)],
         debounceTimer := true)
  }

  lemma AdmittedIsEnqueued(s: Chat, k: Settings, e: Entry, agentId: string, platform: Platform, now: int)
    ensures Enqueued(s, k, e, agentId, platform, now)
      == Admitted(s.(agentId := agentId, latestPlatform := Some(platform), log := s.log.(arrivals := s.log.arrivals + [e])), k, e, now)
  {
  }

  lemma DropsOneMore(log: Log, es: seq<Entry>, i: nat)
    requires i < |es|
    ensures var e := es[i];
      Leave(Leave(log, InterleavedCleanups(es[..i]), EntryIds(es[..i]), Dropped), [Cleanup(e.id), DropCleanup(e.id)], [e.id], Dropped)
      == Leave(log, InterleavedCleanups(es[..i + 1]), EntryIds(es[..i + 1]), Dropped)
  {
    var before, after := es[..i], es[..i + 1];
    assert after[..i] == before;
    var ids := EntryIds(after);
    assert ids[..i] == EntryIds(before);
    assert Departures(ids, Dropped) == Departures(EntryIds(before), Dropped) + Departures([es[i].id], Dropped);
  }

  ghost function Views(queues: map<string, ChatState>): map<string, Chat>
    reads queues.Values
  {
    map c | c in queues :: queues[c].View()
  }

  /** A sweep over all chats, still to reach those in `todo`. */
  function Swept(before: map<string, Chat>, todo: set<string>, f: Chat -> Chat): map<string, Chat> {
    map c | c in before :: if c in todo then before[c] else f(before[c])
  }

  lemma SweepOne(before: map<string, Chat>, todo: set<string>, f: Chat -> Chat, c: string)
    requires c in todo && c in before
    ensures Swept(before, todo, f)[c := f(Swept(before, todo, f)[c])] == Swept(before, todo - {c}, f)
  {
  }

  function TimerCancelled(s: Chat): Chat {
    s.(debounceTimer := false)
  }

  class MessageQueue {
    const settings: Settings
    var queues: map<string, ChatState>
    var acceptingMessages: bool

    constructor (settings: Settings)
      ensures Valid() && this.settings == settings && queues == map[] && acceptingMessages
    {
      this.settings := settings;
      queues := map[];
      acceptingMessages := true;
    }

    ghost predicate Valid()
      reads this`queues, queues.Values
    {
      forall c | c in queues :: queues[c].chatId == c && queues[c].attached && queues[c].Numbered()
    }

    predicate Holds(state: ChatState)
      reads this
    {
      state.chatId in queues && queues[state.chatId] == state
    }

    /** A state that somebody may still act on, whether or not the queue remembers it. */
    ghost predicate Known(state: ChatState)
      reads this, state
    {
      (state.attached <==> Holds(state)) && state.Numbered()
    }

    // Steering

    method AttemptAcknowledgedSteer(state: ChatState)
      requires state.attached <==> Holds(state)
      modifies state`steerSubmitting, state`steerPending, state`log
      ensures state.View() == AttemptSteer(old(state.View()), settings)
      ensures state.log == old(state.log).(offers := state.log.offers)
    {
      if !settings.steers || !Holds(state) || !state.busy || state.steerBlocked || state.steerSubmitting.Some? {
        return;
      }
      var entry := FirstNotPending(state.collectEntries, state.steerPending);
      if entry.None? {
        return;
      }
      state.steerSubmitting := entry;
      state.steerPending := state.steerPending + {entry.value};
      state.log := state.log.(offers := state.log.offers + [entry.value]);
    }

    method FinishSteerEnqueue(state: ChatState, entry: Entry)
      requires state.attached <==> Holds(state)
      modifies state`steerSubmitting, state`steerPending, state`log
      ensures state.View() == ChatQueue.FinishSteerEnqueue(old(state.View()), settings, entry)
      ensures state.log == old(state.log).(offers := state.log.offers)
    {
      if !Holds(state) || !state.busy || state.steerBlocked || state.steerSubmitting != Some(entry)
         || entry !in state.steerPending || entry !in state.collectEntries {
        return;
      }
      state.steerSubmitting := None;
      AttemptAcknowledgedSteer(state);
    }

    method FinishAcknowledgedSteer(state: ChatState, entry: Entry, acknowledged: bool)
      requires state.Numbered() && (state.attached <==> Holds(state))
      modifies state`steerSubmitting, state`steerPending, state`steerBlocked, state`collectEntries, state`log
      ensures state.Numbered() && state.View() == FinishSteer(old(state.View()), settings, entry, acknowledged)
    {
      if !Holds(state) || !state.busy || entry !in state.steerPending {
        return;
      }
      state.WithdrawSteer(entry);
      if !acknowledged {
        state.steerBlocked := true;
      } else if entry in state.collectEntries {
        ConsumeSteered(state, entry);
      }
    }

    method ConsumeSteered(state: ChatState, entry: Entry)
      requires state.Numbered() && (state.attached <==> Holds(state)) && entry in state.collectEntries
      modifies state`steerSubmitting, state`steerPending, state`collectEntries, state`log
      ensures state.Numbered()
      ensures state.View()
        == AttemptSteer(old(state.View()).(collectEntries := Without(old(state.collectEntries), entry),
                                           log := Leave(old(state.log), [Cleanup(entry.id)], [entry.id], Consumed)), settings)
    {
      state.collectEntries := Without(state.collectEntries, entry);
      state.RunCleanups([Cleanup(entry.id)], [entry.id], Consumed);
      AttemptAcknowledgedSteer(state);
    }

    // Batches

    /** Takes the locals of a new flush; without a platform the turn is over at once. */
    method StartBatch(state: ChatState, prompt: string, images: seq<string>, cs: seq<Callback>, drops: seq<Callback>)
      returns (suspended: bool)
      requires state.Numbered()
      modifies state
      ensures suspended == state.latestPlatform.Some? && state.Numbered() && state.attached == old(state.attached)
      ensures suspended ==> state.View() == BeginBatch(old(state.View()), prompt, images, cs, drops)
      ensures !suspended ==> state.View() == Stillborn(old(state.View()))
    {
      var number := state.nextBatch;
      state.BeginBusyGeneration();
      match state.latestPlatform {
        case Some(platform) =>
          state.batch := Some(Batch(number, prompt, images, platform, cs, Some(drops), Preparing, false));
          suspended := true;
        case None =>
          state.SettleBusyGeneration();
          suspended := false;
      }
    }

    /** One turn of the drain: the buffer becomes a batch, or without a platform departs. */
    method DrainOnce(state: ChatState) returns (suspended: bool)
      requires state.Numbered() && state.attached && state.batch.None? && !state.busy && |state.collectEntries| > 0
      modifies state
      ensures state.Numbered() && state.attached
      ensures suspended ==> state.View() == Drained(old(state.View()))
      ensures !suspended ==>
        state.batch.None? && !state.busy && state.collectEntries == [] && state.View() == Drained(old(state.View()))
    {
      var es := state.collectEntries;
      state.collectEntries := [];
      var prompt := CollectPromptOf(Texts(es));
      ghost var s := state.View();
      suspended := StartBatch(state, prompt, Images(es), Cleanups(es), DropCleanups(es));
      if !suspended {
        BeginWithoutPlatform(s, prompt, Images(es), Cleanups(es), DropCleanups(es));
        EndAttached(state.View(), Cleanups(es), Some(DropCleanups(es)), Unsent);
        state.RunBatchCleanups(Cleanups(es), Some(DropCleanups(es)), Unsent);
        state.busy := false;
      }
    }

    /** The collect buffer becomes a batch, as often as it takes. */
    method DrainCollectBuffer(state: ChatState)
      requires state.Numbered() && state.attached && state.batch.None? && !state.busy
      modifies state
      ensures state.Numbered() && state.attached && state.View() == Drained(old(state.View()))
    {
      while |state.collectEntries| > 0
        invariant state.Numbered() && state.attached && state.batch.None? && !state.busy
        invariant Drained(state.View()) == Drained(old(state.View()))
        decreases |state.collectEntries|
      {
        var suspended := DrainOnce(state);
        if suspended {
          return;
        }
      }
    }

    /** Callbacks, then the buffer, unless the queue has forgotten the state. */
    method EndBatch(state: ChatState, cs: seq<Callback>, live: Option<seq<Callback>>, ghost exit: Exit)
      requires state.Numbered() && (state.attached <==> Holds(state))
      modifies state
      ensures state.Numbered() && state.attached == old(state.attached) && state.View() == AfterBatch(old(state.View()), cs, live, exit)
    {
      EndAttached(state.View(), cs, live, exit);
      state.batch := None;
      state.RunBatchCleanups(cs, live, exit);
      if !Holds(state) {
        return;
      }
      state.busy := false;
      DrainCollectBuffer(state);
    }

    method FinishFlush(state: ChatState)
      requires state.Numbered() && (state.attached <==> Holds(state)) && state.batch.Some?
      modifies state
      ensures state.Numbered() && state.attached == old(state.attached) && state.View() == FinishBatch(old(state.View()))
    {
      var b := state.batch.value;
      EndBatch(state, b.cleanups, b.liveDropCleanups, Finished(b.liveDropCleanups.None?));
    }

    method FailFlush(state: ChatState)
      requires state.Numbered() && (state.attached <==> Holds(state)) && state.batch.Some?
      modifies state
      ensures state.Numbered() && state.attached == old(state.attached) && state.View() == FailBatch(old(state.View()))
    {
      state.SettleBusyGeneration();
      if Holds(state) {
        state.batch := Some(state.batch.value.(phase := Replying));
      } else {
        FinishFlush(state);
      }
    }

    /** The pending messages become a batch. */
    method StartFlush(state: ChatState)
      requires Known(state)
      modifies state
      ensures Known(state) && state.attached == old(state.attached) && state.View() == Flushed(old(state.View()))
    {
      if !Holds(state) || |state.pendingTexts| == 0 {
        return;
      }
      var texts, imagePaths := state.pendingTexts, state.pendingImagePaths;
      var cs, drops := state.pendingCleanups, state.pendingDropCleanups;
      state.TakePending();
      ghost var s := state.View();
      var suspended := StartBatch(state, CombineTexts(texts), imagePaths, cs, drops);
      if !suspended {
        BeginWithoutPlatform(s, CombineTexts(texts), imagePaths, cs, drops);
        EndBatch(state, cs, Some(drops), Unsent);
      }
    }

    method FinishSettled(state: ChatState)
      requires Known(state) && state.batch.Some?
      modifies state
      ensures Known(state) && state.attached == old(state.attached) && state.View() == FinishBatch(Settle(old(state.View())))
    {
      state.SettleBusyGeneration();
      FinishFlush(state);
    }

    // A suspended flush goes on

    method AfterPrepareSettles(state: ChatState, ok: bool)
      requires Known(state)
      modifies state
      ensures Known(state) && state.attached == old(state.attached) && state.View() == AfterPrepare(old(state.View()), ok)
    {
      if state.batch.None? || state.batch.value.phase != Preparing {
        return;
      }
      if !ok {
        FailFlush(state);
      } else if Holds(state) {
        state.batch := Some(state.batch.value.(phase := Notifying));
      } else {
        FinishSettled(state);
      }
    }

    method AfterNoticeSettles(state: ChatState)
      requires Known(state)
      modifies state
      ensures Known(state) && state.attached == old(state.attached) && state.View() == AfterNotice(old(state.View()))
    {
      if state.batch.None? || state.batch.value.phase != Notifying {
        return;
      }
      if Holds(state) {
        var b := state.batch.value;
        state.batch := Some(b.(phase := Processing, handed := true));
        state.log := state.log.(prompts := state.log.prompts
                                           + [Prompt(Ids(b.cleanups), b.prompt, b.images, state.agentId, b.platform)]);
      } else {
        FinishSettled(state);
      }
    }

    /** The agent takes the prompt's media, unless the chat was cleared before. */
    method TransferOwnership(state: ChatState, number: nat)
      requires Known(state)
      modifies state`batch
      ensures Known(state) && state.View() == TakeOwnership(old(state.View()), number)
    {
      if Holds(state) && state.batch.Some? && state.batch.value.handed && state.batch.value.number == number {
        state.batch := Some(state.batch.value.(liveDropCleanups := None));
      }
    }

    method AfterProcessSettles(state: ChatState, ok: bool)
      requires Known(state)
      modifies state
      ensures Known(state) && state.attached == old(state.attached) && state.View() == AfterProcess(old(state.View()), ok)
    {
      if state.batch.None? || state.batch.value.phase != Processing {
        return;
      }
      if ok {
        FinishSettled(state);
      } else {
        FailFlush(state);
      }
    }

    method AfterReplySettles(state: ChatState)
      requires Known(state)
      modifies state
      ensures Known(state) && state.attached == old(state.attached) && state.View() == AfterReply(old(state.View()))
    {
      if state.batch.Some? && state.batch.value.phase == Replying {
        FinishFlush(state);
      }
    }

    /** A running flush goes on by one step of its state. */
    method ResumeFlush(state: ChatState, event: Event)
      requires Valid() && Known(state)
      requires event.Prepared? || event.Noticed? || event.Processed? || event.Replied?
      modifies state
      ensures Valid() && Known(state) && state.attached == old(state.attached)
      ensures state.View() == Step(old(state.View()), settings, event)
    {
      match event {
        case Prepared(ok) => AfterPrepareSettles(state, ok);
        case Noticed => AfterNoticeSettles(state);
        case Processed(ok) => AfterProcessSettles(state, ok);
        case Replied => AfterReplySettles(state);
      }
    }

    /** So does a state whose timer fires or is cancelled, or whose notice is due. */
    method TimerFires(state: ChatState, event: Event)
      requires Valid() && Known(state) && (event.Flush? || event.CancelTimer? || event.NoticeDispatched?)
      modifies state
      ensures Valid() && Known(state) && state.attached == old(state.attached)
      ensures state.View() == Step(old(state.View()), settings, event)
    {
      match event {
        case Flush => StartFlush(state);
        case CancelTimer => CancelDebounceTimer(state);
        case NoticeDispatched => NoticeDue(state);
      }
    }

    /** And a state about which the agent has something to say. */
    method AgentAnswers(state: ChatState, event: Event)
      requires Valid() && Known(state) && (event.SteerEnqueued? || event.SteerAnswered? || event.OwnershipTaken?)
      modifies state
      ensures Valid() && Known(state) && state.attached == old(state.attached)
      ensures state.View() == Step(old(state.View()), settings, event)
    {
      if event.OwnershipTaken? {
        TransferOwnership(state, event.number);
      } else {
        SteeringAnswers(state, event);
      }
    }

    method SteeringAnswers(state: ChatState, event: Event)
      requires Valid() && Known(state) && (event.SteerEnqueued? || event.SteerAnswered?)
      modifies state
      ensures Valid() && Known(state) && state.attached == old(state.attached)
      ensures state.View() == Step(old(state.View()), settings, event)
    {
      match event {
        case SteerEnqueued(e) => FinishSteerEnqueue(state, e);
        case SteerAnswered(e, acknowledged) => FinishAcknowledgedSteer(state, e, acknowledged);
      }
    }

    // Arrivals

    method GetState(chatId: string, agentId: string) returns (state: ChatState)
      requires Valid()
      modifies this`queues, (if chatId in queues then {queues[chatId]} else {})`agentId
      ensures Valid() && Known(state) && state.attached && state.chatId == chatId && state.agentId == agentId
      ensures queues == old(queues)[chatId := state]
      ensures chatId in old(queues) ==>
        state == old(queues[chatId]) && state.View() == old(queues[chatId].View()).(agentId := agentId)
      ensures chatId !in old(queues) ==> fresh(state) && state.View() == NewChat(agentId)
    {
      if chatId in queues {
        state := queues[chatId];
        state.agentId := agentId;
      } else {
        state := new ChatState(chatId, agentId);
        queues := queues[chatId := state];
      }
    }

    method RejectSaturatedInput(state: ChatState, e: Entry, now: int)
      requires state.Numbered()
      modifies state`log, state`rejectionNoticeScheduled, state`nextRejectionNoticeAt
      ensures state.Numbered() && state.View() == Turned(old(state.View()), e, now)
    {
      state.RunCleanups([Cleanup(e.id), DropCleanup(e.id)], [e.id], Rejected);
      if state.rejectionNoticeScheduled || now < state.nextRejectionNoticeAt {
        return;
      }
      state.rejectionNoticeScheduled := true;
      state.nextRejectionNoticeAt := now + NOTICE_COOLDOWN_MS;
    }

    method Admit(state: ChatState, e: Entry, now: int) returns (accepted: bool)
      requires state.Numbered() && (state.attached <==> Holds(state))
      modifies state
      ensures state.Numbered() && accepted == old(HasRoom(state.View(), settings))
      ensures state.View() == Admitted(old(state.View()), settings, e, now)
    {
      if state.busy {
        if |state.collectEntries| >= settings.queueCap {
          RejectSaturatedInput(state, e, now);
          return false;
        }
        state.Collect(e);
        AttemptAcknowledgedSteer(state);
        return true;
      }
      if |state.pendingTexts| >= settings.queueCap {
        RejectSaturatedInput(state, e, now);
        return false;
      }
      state.Append(e);
      return true;
    }

    method Receive(state: ChatState, text: string, images: seq<string>, platform: Platform, now: int) returns (accepted: bool)
      requires Known(state) && state.attached
      modifies state
      ensures Known(state) && state.attached
      ensures var e := Entry(old(state.nextId), text, images);
        && state.View() == Enqueued(old(state.View()), settings, e, old(state.agentId), platform, now)
        && accepted == old(HasRoom(state.View(), settings))
    {
      var e := Entry(state.nextId, text, images);
      AdmittedIsEnqueued(state.View(), settings, e, state.agentId, platform, now);
      state.Arrive(e, platform);
      accepted := Admit(state, e, now);
    }

    lemma SameRequest(s: Chat, e: Entry, agentId: string, platform: Platform, now: int)
      ensures Enqueued(s.(agentId := agentId), settings, e, agentId, platform, now)
        == Enqueued(s, settings, e, agentId, platform, now)
    {
    }

    /** Accepts a message, or turns it away when the chat is saturated or the queue closed;
        a message turned away at the door has both callbacks run at once. */
    method Enqueue(chatId: string, agentId: string, text: string, images: seq<string>, platform: Platform, now: int)
      returns (accepted: bool, ranAtTheDoor: bool)
      requires Valid()
      modifies this`queues, if chatId in queues then {queues[chatId]} else {}
      ensures Valid() && ranAtTheDoor == !acceptingMessages
      ensures !acceptingMessages ==> !accepted && queues == old(queues) && (chatId in queues ==> unchanged(queues[chatId]))
      ensures acceptingMessages ==>
        && chatId in queues && queues == old(queues)[chatId := queues[chatId]]
        && (chatId in old(queues) ==> queues[chatId] == old(queues[chatId]))
        && (chatId !in old(queues) ==> fresh(queues[chatId]))
        && var s := if chatId in old(queues) then old(queues[chatId].View()) else NewChat(agentId);
           && queues[chatId].View()
              == Enqueued(s, settings, Entry(|s.log.arrivals|, text, images), agentId, platform, now)
           && accepted == (if s.busy then |s.collectEntries| < settings.queueCap else |s.pendingTexts| < settings.queueCap)
    {
      if !acceptingMessages {
        return false, true;
      }
      var state := GetState(chatId, agentId);
      ghost var s := if chatId in old(queues) then old(queues[chatId].View()) else NewChat(agentId);
      SameRequest(s, Entry(state.nextId, text, images), agentId, platform, now);
      accepted := Receive(state, text, images, platform, now);
      ranAtTheDoor := false;
    }

    method NoticeDue(state: ChatState)
      requires Known(state)
      modifies state`rejectionNoticeScheduled
      ensures state.rejectionNoticeScheduled == (old(state.rejectionNoticeScheduled) && !state.attached)
    {
      if Holds(state) && state.rejectionNoticeScheduled {
        state.rejectionNoticeScheduled := false;
      }
    }

    method CancelDebounceTimer(state: ChatState)
      requires Known(state)
      modifies state`debounceTimer
      ensures state.debounceTimer == (old(state.debounceTimer) && !state.attached)
    {
      if Holds(state) {
        state.debounceTimer := false;
      }
    }

    // Forgetting

    method DropCollectEntries(state: ChatState)
      modifies state`steerSubmitting, state`steerPending, state`steerBlocked, state`collectEntries, state`log
      ensures state.steerSubmitting == None && state.steerPending == {} && state.steerBlocked && state.collectEntries == []
      ensures state.log == Leave(old(state.log), InterleavedCleanups(old(state.collectEntries)),
                                 EntryIds(old(state.collectEntries)), Dropped)
    {
      state.SettleBusyGeneration();
      var entries := state.collectEntries;
      state.collectEntries := [];
      for i := 0 to |entries|
        invariant state.collectEntries == []
        invariant state.steerSubmitting == None && state.steerPending == {} && state.steerBlocked
        invariant state.log == Leave(old(state.log), InterleavedCleanups(entries[..i]), EntryIds(entries[..i]), Dropped)
      {
        DropsOneMore(old(state.log), entries, i);
        state.RunCleanups([Cleanup(entries[i].id), DropCleanup(entries[i].id)], [entries[i].id], Dropped);
      }
      assert entries[..|entries|] == entries;
    }

    method DropState(state: ChatState)
      requires state.Numbered()
      modifies state
      ensures state.Numbered() && state.View() == Cleared(old(state.View()))
    {
      state.rejectionNoticeScheduled := false;
      LeaveInTwo(state.log, state.pendingCleanups, state.pendingDropCleanups, Ids(state.pendingCleanups), Dropped);
      state.RunCleanups(state.pendingCleanups, Ids(state.pendingCleanups), Dropped);
      state.RunCleanups(state.pendingDropCleanups, [], Dropped);
      DropCollectEntries(state);
      state.attached := false;
    }

    method Clear(chatId: string)
      requires Valid()
      modifies this`queues, if chatId in queues then {queues[chatId]} else {}
      ensures Valid() && queues == old(queues) - {chatId}
      ensures chatId in old(queues) ==>
        old(queues[chatId]).View() == Step(old(queues[chatId].View()), settings, Event.Clear)
    {
      if chatId in queues {
        var state := queues[chatId];
        DropState(state);
        queues := queues - {chatId};
      }
    }

    method EvictIdle(chatId: string, now: int)
      requires Valid()
      modifies this`queues, if chatId in queues then {queues[chatId]} else {}
      ensures Valid()
      ensures chatId !in old(queues) ==> queues == old(queues)
      ensures chatId in old(queues) ==>
        var state := old(queues[chatId]);
        && state.View() == Step(old(queues[chatId].View()), settings, EvictIfIdle(now))
        && queues == if state.attached then old(queues) else old(queues) - {chatId}
    {
      if chatId !in queues {
        return;
      }
      var state := queues[chatId];
      if !state.busy && |state.pendingTexts| == 0 && |state.collectEntries| == 0 && !state.debounceTimer {
        if state.nextRejectionNoticeAt - now <= 0 {
          queues := queues - {chatId};
          state.attached := false;
        } else {
          state.latestPlatform := None;
        }
      }
    }

    // Shutdown

    lemma OthersAreOther(c: string, d: string)
      requires Valid() && c in queues && d in queues && c != d
      ensures queues[c] != queues[d]
    {
    }

    twostate lemma OneViewChanged(c: string)
      requires queues == old(queues) && c in queues
      requires forall d | d in queues && d != c :: queues[d].View() == old(queues[d].View())
      ensures Views(queues) == old(Views(queues))[c := queues[c].View()]
    {
    }

    method CancelTimerOf(c: string)
      requires Valid() && c in queues
      modifies {queues[c]}`debounceTimer
      ensures Valid() && Views(queues) == old(Views(queues))[c := TimerCancelled(old(Views(queues))[c])]
    {
      forall d | d in queues && d != c
        ensures queues[d] != queues[c]
      {
        OthersAreOther(c, d);
      }
      queues[c].debounceTimer := false;
      OneViewChanged(c);
    }

    method CancelAllDebounceTimers()
      requires Valid()
      modifies queues.Values
      ensures Valid() && Views(queues) == Swept(old(Views(queues)), {}, TimerCancelled)
    {
      var todo := queues.Keys;
      ghost var before := Views(queues);
      while todo != {}
        invariant todo <= queues.Keys && Valid()
        invariant Views(queues) == Swept(before, todo, TimerCancelled)
        decreases |todo|
      {
        var c :| c in todo;
        SweepOne(before, todo, TimerCancelled, c);
        CancelTimerOf(c);
        todo := todo - {c};
      }
    }

    /** Stop accepting messages, and keep pending ones from starting on their own. */
    method BeginShutdown()
      requires Valid()
      modifies this`acceptingMessages, queues.Values
      ensures Valid() && !acceptingMessages
      ensures Views(queues) == Swept(old(Views(queues)), {}, TimerCancelled)
    {
      acceptingMessages := false;
      CancelAllDebounceTimers();
    }

    method FlushOf(c: string)
      requires Valid() && c in queues
      modifies queues[c]
      ensures Valid() && Views(queues) == old(Views(queues))[c := FlushedUnlessBusy(old(Views(queues))[c])]
    {
      forall d | d in queues && d != c
        ensures queues[d] != queues[c]
      {
        OthersAreOther(c, d);
      }
      if |queues[c].pendingTexts| > 0 && !queues[c].busy {
        StartFlush(queues[c]);
      }
      OneViewChanged(c);
    }

    /** Starts every pending batch at once. */
    method FlushPending()
      requires Valid()
      modifies queues.Values
      ensures Valid() && Views(queues) == Swept(old(Views(queues)), {}, FlushedUnlessBusy)
    {
      var todo := queues.Keys;
      ghost var before := Views(queues);
      while todo != {}
        invariant todo <= queues.Keys && Valid()
        invariant Views(queues) == Swept(before, todo, FlushedUnlessBusy)
        decreases |todo|
      {
        var c :| c in todo;
        SweepOne(before, todo, FlushedUnlessBusy, c);
        FlushOf(c);
        todo := todo - {c};
      }
    }

    ghost predicate Filed()
      reads this`queues, queues.Values
    {
      forall c | c in queues :: queues[c].chatId == c && queues[c].Numbered()
    }

    method DropStateOf(c: string)
      requires Filed() && c in queues
      modifies queues[c]
      ensures Filed() && Views(queues) == old(Views(queues))[c := Cleared(old(Views(queues))[c])]
    {
      forall d | d in queues && d != c
        ensures queues[d] != queues[c]
      {
        assert queues[d].chatId != queues[c].chatId;
      }
      DropState(queues[c]);
      OneViewChanged(c);
    }

    method DropAll()
      requires Filed()
      modifies queues.Values
      ensures Filed() && Views(queues) == Swept(old(Views(queues)), {}, Cleared)
    {
      var todo := queues.Keys;
      ghost var before := Views(queues);
      while todo != {}
        invariant todo <= queues.Keys && Filed()
        invariant Views(queues) == Swept(before, todo, Cleared)
        decreases |todo|
      {
        var c :| c in todo;
        SweepOne(before, todo, Cleared, c);
        DropStateOf(c);
        todo := todo - {c};
      }
    }

    method Forget()
      modifies this`queues
      ensures queues == map[]
    {
      queues := map[];
    }

    /** Every chat is cleared, and the queue remembers none. */
    method ClearAll()
      requires Valid()
      modifies this`queues, queues.Values
      ensures Valid() && queues == map[]
      ensures Views(old(queues)) == Swept(old(Views(queues)), {}, Cleared)
    {
      DropAll();
      ghost var dropped := Views(queues);
      Forget();
      assert Views(old(queues)) == dropped;
    }
  }
}
