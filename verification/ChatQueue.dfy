/** One chat's queue state and what each event does to it.  The async functions are cut
    at their awaits: an event is one segment, so acknowledgements, clears, timers and
    arrivals may fall between any two. */
module ChatQueue {
  import opened Common
  import opened CollectPrompt

  type Platform = nat

  datatype Settings = Settings(queueCap: nat, steers: bool)

  const NOTICE_COOLDOWN_MS := 30_000

  /** A message as the queue keeps it; the number is its place among the arrivals. */
  datatype Entry = Entry(id: nat, text: string, images: seq<string>)

  /** The two callbacks that come with a message; one that is absent does nothing. */
  datatype Callback = Cleanup(id: nat) | DropCleanup(id: nat)

  /** Where a running flush is suspended. */
  datatype Phase = Preparing | Notifying | Processing | Replying

  /** The locals of a running flush. */
  datatype Batch = Batch(
    number: nat, prompt: string, images: seq<string>, platform: Platform,
    cleanups: seq<Callback>, liveDropCleanups: Option<seq<Callback>>,
    phase: Phase, handed: bool)

  /** How a message leaves. */
  datatype Exit = Finished(owned: bool) | Unsent | Consumed | Dropped | Rejected

  datatype Departure = Departure(id: nat, exit: Exit)

  datatype Prompt = Prompt(ids: seq<nat>, text: string, images: seq<string>, agentId: string, platform: Platform)

  /** What has happened so far: arrivals, departures, callbacks run, prompts handed to the
      agent, and since the current generation began what was collected and what was offered. */
  datatype Log = Log(
    arrivals: seq<Entry>, departures: seq<Departure>, ran: seq<Callback>, prompts: seq<Prompt>,
    collected: seq<Entry>, offers: seq<Entry>, batches: nat)

  datatype Chat = Chat(
    pendingTexts: seq<string>, pendingImagePaths: seq<string>,
    pendingCleanups: seq<Callback>, pendingDropCleanups: seq<Callback>,
    debounceTimer: bool,
    collectEntries: seq<Entry>,
    busy: bool, steerSubmitting: Option<Entry>, steerPending: set<Entry>, steerBlocked: bool,
    latestPlatform: Option<Platform>, agentId: string,
    nextRejectionNoticeAt: int, rejectionNoticeScheduled: bool,
    attached: bool,
    batch: Option<Batch>,
    log: Log)

  datatype Event =
    | Enqueue(agentId: string, text: string, images: seq<string>, platform: Platform, now: int)
    | Flush
    | CancelTimer
    | Prepared(ok: bool)
    | Noticed
    | OwnershipTaken(number: nat)
    | Processed(ok: bool)
    | Replied
    | SteerEnqueued(entry: Entry)
    | SteerAnswered(entry: Entry, acknowledged: bool)
    | NoticeDispatched
    | EvictIfIdle(now: int)
    | Clear

  const NOTHING_YET := Log([], [], [], [], [], [], 0)

  function NewChat(agentId: string): Chat {
    Chat([], [], [], [], false, [], false, None, {}, false, None, agentId, 0, false, true, None, NOTHING_YET)
  }

  // Pieces

  function Ids(cs: seq<Callback>): (ids: seq<nat>)
    ensures |ids| == |cs| && forall i | 0 <= i < |cs| :: ids[i] == cs[i].id
    decreases |cs|
  {
    if |cs| == 0 then [] else Ids(cs[..|cs| - 1]) + [cs[|cs| - 1].id]
  }

  function EntryIds(es: seq<Entry>): (ids: seq<nat>)
    ensures |ids| == |es| && forall i | 0 <= i < |es| :: ids[i] == es[i].id
    decreases |es|
  {
    if |es| == 0 then [] else EntryIds(es[..|es| - 1]) + [es[|es| - 1].id]
  }

  function Texts(es: seq<Entry>): (ts: seq<string>)
    ensures |ts| == |es| && forall i | 0 <= i < |es| :: ts[i] == es[i].text
    decreases |es|
  {
    if |es| == 0 then [] else Texts(es[..|es| - 1]) + [es[|es| - 1].text]
  }

  function Images(es: seq<Entry>): seq<string>
    decreases |es|
  {
    if |es| == 0 then [] else Images(es[..|es| - 1]) + es[|es| - 1].images
  }

  function Cleanups(es: seq<Entry>): (cs: seq<Callback>)
    ensures |cs| == |es| && forall i | 0 <= i < |es| :: cs[i] == Cleanup(es[i].id)
    decreases |es|
  {
    if |es| == 0 then [] else Cleanups(es[..|es| - 1]) + [Cleanup(es[|es| - 1].id)]
  }

  function DropCleanups(es: seq<Entry>): (cs: seq<Callback>)
    ensures |cs| == |es| && forall i | 0 <= i < |es| :: cs[i] == DropCleanup(es[i].id)
    decreases |es|
  {
    if |es| == 0 then [] else DropCleanups(es[..|es| - 1]) + [DropCleanup(es[|es| - 1].id)]
  }

  function Departures(ids: seq<nat>, exit: Exit): (ds: seq<Departure>)
    ensures |ds| == |ids| && forall i | 0 <= i < |ids| :: ds[i] == Departure(ids[i], exit)
    decreases |ids|
  {
    if |ids| == 0 then [] else Departures(ids[..|ids| - 1], exit) + [Departure(ids[|ids| - 1], exit)]
  }

  /** Runs callbacks and records who left. */
  function Leave(log: Log, ran: seq<Callback>, ids: seq<nat>, exit: Exit): Log {
    log.(ran := log.ran + ran, departures := log.departures + Departures(ids, exit))
  }

  // Steering

  function FirstNotPending(es: seq<Entry>, pending: set<Entry>): Option<Entry> {
    if |es| == 0 then None
    else if es[0] !in pending then Some(es[0])
    else FirstNotPending(es[1..], pending)
  }

  function AttemptSteer(s: Chat, k: Settings): Chat {
    if !k.steers || !s.attached || !s.busy || s.steerBlocked || s.steerSubmitting.Some? then s
    else
      match FirstNotPending(s.collectEntries, s.steerPending)
      case None => s
      case Some(e) =>
        s.(steerSubmitting := Some(e), steerPending := s.steerPending + {e}, log := s.log.(offers := s.log.offers + [e]))
  }

  function FinishSteerEnqueue(s: Chat, k: Settings, e: Entry): Chat {
    if !s.attached || !s.busy || s.steerBlocked || s.steerSubmitting != Some(e) || e !in s.steerPending || e !in s.collectEntries
    then s
    else AttemptSteer(s.(steerSubmitting := None), k)
  }

  /** The first place of an entry from `from` on, or the end. */
  function IndexFrom(es: seq<Entry>, e: Entry, from: nat): (i: nat)
    requires from <= |es|
    ensures from <= i <= |es| && (i < |es| ==> es[i] == e) && forall k | from <= k < i :: es[k] != e
    decreases |es| - from
  {
    if from == |es| || es[from] == e then from else IndexFrom(es, e, from + 1)
  }

  function IndexOf(es: seq<Entry>, e: Entry): (i: nat)
    requires e in es
    ensures i < |es| && es[i] == e
  {
    IndexFrom(es, e, 0)
  }

  function Without(es: seq<Entry>, e: Entry): seq<Entry>
    requires e in es
  {
    var i := IndexOf(es, e);
    es[..i] + es[i + 1..]
  }

  function FinishSteer(s: Chat, k: Settings, e: Entry, acknowledged: bool): Chat {
    if !s.attached || !s.busy || e !in s.steerPending then s
    else
      var t := s.(steerPending := s.steerPending - {e},
                  steerSubmitting := if s.steerSubmitting == Some(e) then None else s.steerSubmitting);
      if !acknowledged then t.(steerBlocked := true)
      else if e !in t.collectEntries then t
      else AttemptSteer(t.(collectEntries := Without(t.collectEntries, e),
                           log := Leave(t.log, [Cleanup(e.id)], [e.id], Consumed)), k)
  }

  function Settle(s: Chat): Chat {
    s.(steerSubmitting := None, steerPending := {}, steerBlocked := true)
  }

  // Batches

  function BeginBatch(s: Chat, prompt: string, images: seq<string>, cleanups: seq<Callback>, drops: seq<Callback>): Chat
    decreases |s.collectEntries|, 1
  {
    var t := s.(busy := true, steerSubmitting := None, steerPending := {}, steerBlocked := false,
                log := s.log.(collected := [], offers := [], batches := s.log.batches + 1));
    match s.latestPlatform
    case None => AfterBatch(Settle(t), cleanups, Some(drops), Unsent)
    case Some(p) =>
      t.(batch := Some(Batch(s.log.batches, prompt, images, p, cleanups, Some(drops), Preparing, false)))
  }

  /** Cleanups, then drop cleanups unless the agent owns the media, then what was
      collected meanwhile; nothing more once the state is detached. */
  function AfterBatch(s: Chat, cleanups: seq<Callback>, live: Option<seq<Callback>>, exit: Exit): Chat
    decreases |s.collectEntries|, 0
  {
    var t := s.(batch := None, log := Leave(s.log, cleanups + live.GetOr([]), Ids(cleanups), exit));
    if !t.attached then t
    else if |t.collectEntries| == 0 then t.(busy := false)
    else
      var es := t.collectEntries;
      BeginBatch(t.(busy := false, collectEntries := []), BuildCollectPrompt(Texts(es)), Images(es), Cleanups(es), DropCleanups(es))
  }

  function FinishBatch(s: Chat): Chat
    requires s.batch.Some?
  {
    var b := s.batch.value;
    AfterBatch(s, b.cleanups, b.liveDropCleanups, Finished(b.liveDropCleanups.None?))
  }

  /** An error is reported, if there is still a chat to report it to. */
  function FailBatch(s: Chat): Chat
    requires s.batch.Some?
  {
    var t := Settle(s);
    if t.attached then t.(batch := Some(t.batch.value.(phase := Replying))) else FinishBatch(t)
  }

  function Flushed(s: Chat): Chat {
    if !s.attached || |s.pendingTexts| == 0 then s
    else
      BeginBatch(s.(pendingTexts := [], pendingImagePaths := [], pendingCleanups := [], pendingDropCleanups := [],
                    debounceTimer := false),
                 CombineTexts(s.pendingTexts), s.pendingImagePaths, s.pendingCleanups, s.pendingDropCleanups)
  }

  /** What flushing at shutdown does to one chat. */
  function FlushedUnlessBusy(s: Chat): Chat {
    if |s.pendingTexts| > 0 && !s.busy then Flushed(s) else s
  }

  predicate SuspendedIn(s: Chat, phase: Phase) {
    s.batch.Some? && s.batch.value.phase == phase
  }

  function AfterPrepare(s: Chat, ok: bool): Chat {
    if !SuspendedIn(s, Preparing) then s
    else if !ok then FailBatch(s)
    else if s.attached then s.(batch := Some(s.batch.value.(phase := Notifying)))
    else FinishBatch(Settle(s))
  }

  /** The prompt goes to the agent. */
  function AfterNotice(s: Chat): Chat {
    if !SuspendedIn(s, Notifying) then s
    else if s.attached then
      var b := s.batch.value;
      s.(batch := Some(b.(phase := Processing, handed := true)),
         log := s.log.(prompts := s.log.prompts + [Prompt(Ids(b.cleanups), b.prompt, b.images, s.agentId, b.platform)]))
    else FinishBatch(Settle(s))
  }

  function AfterProcess(s: Chat, ok: bool): Chat {
    if !SuspendedIn(s, Processing) then s
    else if ok then FinishBatch(Settle(s))
    else FailBatch(s)
  }

  function AfterReply(s: Chat): Chat {
    if !SuspendedIn(s, Replying) then s else FinishBatch(s)
  }

  function TakeOwnership(s: Chat, number: nat): Chat {
    if s.attached && s.batch.Some? && s.batch.value.handed && s.batch.value.number == number
    then s.(batch := Some(s.batch.value.(liveDropCleanups := None)))
    else s
  }

  // Arrivals and departures

  function Turned(s: Chat, e: Entry, now: int): Chat {
    var t := s.(log := Leave(s.log, [Cleanup(e.id), DropCleanup(e.id)], [e.id], Rejected));
    if t.rejectionNoticeScheduled || now < t.nextRejectionNoticeAt then t
    else t.(rejectionNoticeScheduled := true, nextRejectionNoticeAt := now + NOTICE_COOLDOWN_MS)
  }

  predicate HasRoom(s: Chat, k: Settings) {
    if s.busy then |s.collectEntries| < k.queueCap else |s.pendingTexts| < k.queueCap
  }

  function Enqueued(s: Chat, k: Settings, e: Entry, agentId: string, platform: Platform, now: int): Chat {
    var t := s.(agentId := agentId, latestPlatform := Some(platform), log := s.log.(arrivals := s.log.arrivals + [e]));
    if !HasRoom(t, k) then Turned(t, e, now)
    else if t.busy then
      AttemptSteer(t.(collectEntries := t.collectEntries + [e], log := t.log.(collected := t.log.collected + [e])), k)
    else
      t.(pendingTexts := t.pendingTexts + [e.text], pendingImagePaths := t.pendingImagePaths + e.images,
         pendingCleanups := t.pendingCleanups + [Cleanup(e.id)],
         pendingDropCleanups := t.pendingDropCleanups + [DropCleanup(e.id)],
         debounceTimer := true)
  }

  function InterleavedCleanups(es: seq<Entry>): seq<Callback>
    decreases |es|
  {
    if |es| == 0 then []
    else InterleavedCleanups(es[..|es| - 1]) + [Cleanup(es[|es| - 1].id), DropCleanup(es[|es| - 1].id)]
  }

  function Cleared(s: Chat): Chat {
    var l := Leave(s.log, s.pendingCleanups + s.pendingDropCleanups, Ids(s.pendingCleanups), Dropped);
    s.(rejectionNoticeScheduled := false, steerSubmitting := None, steerPending := {}, steerBlocked := true,
       collectEntries := [], attached := false,
       log := Leave(l, InterleavedCleanups(s.collectEntries), EntryIds(s.collectEntries), Dropped))
  }

  predicate Idle(s: Chat) {
    !s.busy && |s.pendingTexts| == 0 && |s.collectEntries| == 0 && !s.debounceTimer
  }

  function Evicted(s: Chat, now: int): Chat {
    if !Idle(s) then s
    else if s.nextRejectionNoticeAt - now <= 0 then s.(attached := false)
    else s.(latestPlatform := None)
  }

  /** What looks a chat up by its ID never reaches a detached state. */
  function Step(s: Chat, k: Settings, event: Event): Chat {
    match event
    case Prepared(ok) => AfterPrepare(s, ok)
    case Noticed => AfterNotice(s)
    case OwnershipTaken(number) => TakeOwnership(s, number)
    case Processed(ok) => AfterProcess(s, ok)
    case Replied => AfterReply(s)
    case SteerEnqueued(e) => FinishSteerEnqueue(s, k, e)
    case SteerAnswered(e, acknowledged) => FinishSteer(s, k, e, acknowledged)
    case Flush => Flushed(s)
    case Enqueue(agentId, text, images, platform, now) =>
      if s.attached then Enqueued(s, k, Entry(|s.log.arrivals|, text, images), agentId, platform, now) else s
    case CancelTimer => if s.attached then s.(debounceTimer := false) else s
    case NoticeDispatched => if s.attached then s.(rejectionNoticeScheduled := false) else s
    case EvictIfIdle(now) => if s.attached then Evicted(s, now) else s
    case Clear => if s.attached then Cleared(s) else s
  }

  /** Everything that has happened to one state since it was made. */
  datatype Story = Made(agentId: string) | Then(before: Story, event: Event)

  function After(k: Settings, story: Story): Chat {
    match story
    case Made(agentId) => NewChat(agentId)
    case Then(before, event) => Step(After(k, before), k, event)
  }
}
