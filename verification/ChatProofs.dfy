/** What holds of a chat's queue state after every story: every message is accounted for,
    callbacks run once, prompts keep the order of arrival, steering offers a prefix. */
module ChatProofs {
  import opened Common
  import opened CollectPrompt
  import opened ChatQueue

  // Conservation

  function Range(n: nat): (s: seq<nat>)
    ensures |s| == n
  {
    if n == 0 then [] else Range(n - 1) + [n - 1]
  }

  function DepartedIds(ds: seq<Departure>): (ids: seq<nat>)
    ensures |ids| == |ds| && forall i | 0 <= i < |ds| :: ids[i] == ds[i].id
    decreases |ds|
  {
    if |ds| == 0 then [] else DepartedIds(ds[..|ds| - 1]) + [ds[|ds| - 1].id]
  }

  /** What a clear would drop; a detached state has dropped it already. */
  function PendingIds(s: Chat): seq<nat> {
    if s.attached then Ids(s.pendingCleanups) else []
  }

  function BatchIds(s: Chat): seq<nat> {
    if s.batch.Some? then Ids(s.batch.value.cleanups) else []
  }

  ghost predicate Accounts(pending: seq<nat>, batch: seq<nat>, collected: seq<nat>, departed: seq<nat>, hand: seq<nat>, n: nat) {
    multiset(pending) + multiset(batch) + multiset(collected) + multiset(departed) + multiset(hand) == multiset(Range(n))
  }

  /** Every arrival is in exactly one place, counting those in hand. */
  ghost predicate Conserved(s: Chat, hand: seq<nat>) {
    Accounts(PendingIds(s), BatchIds(s), EntryIds(s.collectEntries), DepartedIds(s.log.departures), hand, |s.log.arrivals|)
  }

  // Callbacks

  predicate KeepsMedia(exit: Exit) {
    exit == Finished(true) || exit == Consumed
  }

  function Due(d: Departure): seq<Callback> {
    if KeepsMedia(d.exit) then [Cleanup(d.id)] else [Cleanup(d.id), DropCleanup(d.id)]
  }

  function AllDue(ds: seq<Departure>): seq<Callback>
    decreases |ds|
  {
    if |ds| == 0 then [] else AllDue(ds[..|ds| - 1]) + Due(ds[|ds| - 1])
  }

  /** The callbacks run so far are those due to the departed. */
  ghost predicate Paid(log: Log) {
    multiset(log.ran) == multiset(AllDue(log.departures))
  }

  ghost predicate AreCleanups(cs: seq<Callback>) {
    forall i | 0 <= i < |cs| :: cs[i].Cleanup?
  }

  ghost predicate AreDropsOf(drops: seq<Callback>, cs: seq<Callback>) {
    |drops| == |cs| && forall i | 0 <= i < |cs| :: drops[i] == DropCleanup(cs[i].id)
  }

  lemma {:induction false} AllDueConcat(a: seq<Departure>, b: seq<Departure>)
    ensures AllDue(a + b) == AllDue(a) + AllDue(b)
    decreases |b|
  {
    if |b| == 0 {
      assert a + b == a;
    } else {
      assert (a + b)[..|a + b| - 1] == a + b[..|b| - 1];
      AllDueConcat(a, b[..|b| - 1]);
    }
  }

  lemma {:induction false} KeptBatchDue(cs: seq<Callback>, exit: Exit)
    requires AreCleanups(cs) && KeepsMedia(exit)
    ensures cs == AllDue(Departures(Ids(cs), exit))
    decreases |cs|
  {
    if |cs| > 0 {
      var n := |cs| - 1;
      KeptBatchDue(cs[..n], exit);
      assert Departures(Ids(cs), exit)[..n] == Departures(Ids(cs[..n]), exit);
    }
  }

  lemma SplitLast(cs: seq<Callback>)
    requires |cs| > 0
    ensures multiset(cs) == multiset(cs[..|cs| - 1]) + multiset{cs[|cs| - 1]}
  {
    assert cs == cs[..|cs| - 1] + [cs[|cs| - 1]];
  }

  lemma {:induction false} DroppedBatchDue(cs: seq<Callback>, drops: seq<Callback>, exit: Exit)
    requires AreCleanups(cs) && AreDropsOf(drops, cs) && !KeepsMedia(exit)
    ensures multiset(cs) + multiset(drops) == multiset(AllDue(Departures(Ids(cs), exit)))
    decreases |cs|
  {
    if |cs| > 0 {
      var n := |cs| - 1;
      DroppedBatchDue(cs[..n], drops[..n], exit);
      var ds := Departures(Ids(cs), exit);
      assert ds[..n] == Departures(Ids(cs[..n]), exit);
      SplitLast(cs);
      SplitLast(drops);
    }
  }

  /** A whole batch's callbacks are what its departures are due. */
  lemma BatchDue(cs: seq<Callback>, live: Option<seq<Callback>>, exit: Exit)
    requires AreCleanups(cs) && (live.Some? ==> AreDropsOf(live.value, cs))
    requires KeepsMedia(exit) <==> live.None?
    ensures multiset(cs + live.GetOr([])) == multiset(AllDue(Departures(Ids(cs), exit)))
  {
    if live.None? {
      KeptBatchDue(cs, exit);
      assert cs + [] == cs;
    } else {
      DroppedBatchDue(cs, live.value, exit);
    }
  }

  lemma {:induction false} CollectedDue(es: seq<Entry>)
    ensures multiset(InterleavedCleanups(es)) == multiset(AllDue(Departures(EntryIds(es), Dropped)))
    decreases |es|
  {
    if |es| > 0 {
      var n := |es| - 1;
      CollectedDue(es[..n]);
      var ds := Departures(EntryIds(es), Dropped);
      assert ds[..n] == Departures(EntryIds(es[..n]), Dropped);
    }
  }

  lemma LeavePays(log: Log, ran: seq<Callback>, ids: seq<nat>, exit: Exit)
    requires Paid(log) && multiset(ran) == multiset(AllDue(Departures(ids, exit)))
    ensures Paid(Leave(log, ran, ids, exit))
  {
    AllDueConcat(log.departures, Departures(ids, exit));
  }

  lemma OneDeparture(id: nat, exit: Exit)
    ensures AllDue(Departures([id], exit)) == Due(Departure(id, exit))
  {
    var ds := Departures([id], exit);
    assert ds == [Departure(id, exit)] && ds[..0] == [];
  }

  lemma LeaveCounts(log: Log, ran: seq<Callback>, ids: seq<nat>, exit: Exit)
    ensures multiset(DepartedIds(Leave(log, ran, ids, exit).departures)) == multiset(DepartedIds(log.departures)) + multiset(ids)
  {
    DepartedIdsConcat(log.departures, Departures(ids, exit));
    IdsDepart(ids, exit);
    MultisetConcat(DepartedIds(log.departures), ids);
  }

  lemma DepartedIdsConcat(a: seq<Departure>, b: seq<Departure>)
    ensures DepartedIds(a + b) == DepartedIds(a) + DepartedIds(b)
  {
    var all, parts := DepartedIds(a + b), DepartedIds(a) + DepartedIds(b);
    assert |all| == |parts|;
    forall i | 0 <= i < |all|
      ensures all[i] == parts[i]
    {
      assert all[i] == (a + b)[i].id;
    }
  }

  lemma IdsDepart(ids: seq<nat>, exit: Exit)
    ensures DepartedIds(Departures(ids, exit)) == ids
  {
    var ds := Departures(ids, exit);
    forall i | 0 <= i < |ids|
      ensures DepartedIds(ds)[i] == ids[i]
    {
      assert ds[i].id == ids[i];
    }
  }

  lemma MultisetConcat(a: seq<nat>, b: seq<nat>)
    ensures multiset(a + b) == multiset(a) + multiset(b)
  {
  }

  // Order

  ghost predicate Ascending(ids: seq<nat>, bound: nat) {
    && (forall i, j | 0 <= i < j < |ids| :: ids[i] < ids[j])
    && (forall i | 0 <= i < |ids| :: ids[i] < bound)
  }

  function HandedIds(prompts: seq<Prompt>): seq<nat>
    decreases |prompts|
  {
    if |prompts| == 0 then [] else HandedIds(prompts[..|prompts| - 1]) + prompts[|prompts| - 1].ids
  }

  function WaitingBatchIds(s: Chat): seq<nat> {
    if s.batch.Some? && !s.batch.value.handed then Ids(s.batch.value.cleanups) else []
  }

  /** Messages already handed over, then those in line. */
  function Line(handed: seq<nat>, waiting: seq<nat>, hand: seq<nat>, collected: seq<nat>, pending: seq<nat>): seq<nat> {
    handed + (waiting + (hand + (collected + pending)))
  }

  ghost predicate InOrder(s: Chat, hand: seq<nat>) {
    Ascending(Line(HandedIds(s.log.prompts), WaitingBatchIds(s), hand, EntryIds(s.collectEntries), PendingIds(s)),
              |s.log.arrivals|)
  }

  /** The line does not change when its parts change hands. */
  lemma LineMoves(handed: seq<nat>, part: seq<nat>, pending: seq<nat>)
    ensures Line(handed, [], [], part, pending) == Line(handed, [], part, [], pending)
    ensures Line(handed, part, [], [], pending) == Line(handed, [], part, [], pending)
    ensures Line(handed, [], [], [], part) == Line(handed, [], part, [], [])
    ensures Line(handed + part, [], [], pending, []) == Line(handed, part, [], pending, [])
  {
  }

  lemma AscendingWithout(a: seq<nat>, b: seq<nat>, c: seq<nat>, bound: nat)
    requires Ascending(a + (b + c), bound)
    ensures Ascending(a + c, bound)
  {
    var s, t := a + (b + c), a + c;
    forall i | 0 <= i < |t|
      ensures t[i] == s[if i < |a| then i else i + |b|]
    {
    }
  }

  // Contents

  ghost predicate Known(ids: seq<nat>, arrivals: seq<Entry>) {
    forall i | 0 <= i < |ids| :: ids[i] < |arrivals|
  }

  function At(arrivals: seq<Entry>, ids: seq<nat>): (es: seq<Entry>)
    requires Known(ids, arrivals)
    ensures |es| == |ids| && forall i | 0 <= i < |ids| :: es[i] == arrivals[ids[i]]
    decreases |ids|
  {
    if |ids| == 0 then [] else At(arrivals, ids[..|ids| - 1]) + [arrivals[ids[|ids| - 1]]]
  }

  /** A prompt holds its messages whole and in order, and their images. */
  ghost predicate Holds(arrivals: seq<Entry>, ids: seq<nat>, prompt: string, images: seq<string>) {
    && Known(ids, arrivals) && |ids| > 0
    && var es := At(arrivals, ids);
       && (prompt == CombineTexts(Texts(es)) || prompt == BuildCollectPrompt(Texts(es)))
       && images == Images(es)
  }

  ghost predicate AreArrivals(es: seq<Entry>, arrivals: seq<Entry>) {
    forall i | 0 <= i < |es| :: es[i].id < |arrivals| && arrivals[es[i].id] == es[i]
  }

  ghost predicate Numbered(arrivals: seq<Entry>) {
    forall i | 0 <= i < |arrivals| :: arrivals[i].id == i
  }

  ghost predicate PendingHolds(arrivals: seq<Entry>, ids: seq<nat>, texts: seq<string>, images: seq<string>) {
    && Known(ids, arrivals)
    && var es := At(arrivals, ids);
       texts == Texts(es) && images == Images(es)
  }

  ghost predicate PromptsHold(arrivals: seq<Entry>, prompts: seq<Prompt>) {
    forall i | 0 <= i < |prompts| :: Holds(arrivals, prompts[i].ids, prompts[i].text, prompts[i].images)
  }

  ghost predicate Faithful(s: Chat) {
    && Numbered(s.log.arrivals)
    && AreArrivals(s.collectEntries, s.log.arrivals)
    && PendingHolds(s.log.arrivals, Ids(s.pendingCleanups), s.pendingTexts, s.pendingImagePaths)
    && (s.batch.Some? ==>
          var b := s.batch.value;
          Holds(s.log.arrivals, Ids(b.cleanups), b.prompt, b.images))
    && PromptsHold(s.log.arrivals, s.log.prompts)
  }

  // Shape

  ghost predicate Shape(s: Chat, k: Settings) {
    && |s.pendingTexts| == |s.pendingCleanups|
    && AreCleanups(s.pendingCleanups) && AreDropsOf(s.pendingDropCleanups, s.pendingCleanups)
    && |s.pendingTexts| <= k.queueCap && |s.collectEntries| <= k.queueCap
    && (s.batch.Some? ==>
          && s.busy && AreCleanups(s.batch.value.cleanups)
          && (s.batch.value.liveDropCleanups.Some? ==>
                AreDropsOf(s.batch.value.liveDropCleanups.value, s.batch.value.cleanups))
          && (s.batch.value.phase == Processing ==> s.batch.value.handed)
          && (s.batch.value.phase in {Preparing, Notifying} ==> !s.batch.value.handed))
    && (if s.attached then
          && (s.busy <==> s.batch.Some?)
          && (s.busy ==> s.pendingCleanups == [])
          && (!s.busy ==> s.collectEntries == [])
          && (s.busy || |s.pendingTexts| > 0 ==> s.latestPlatform.Some?)
        else s.collectEntries == [])
  }

  /** No batch ever met a missing platform. */
  ghost predicate AllSent(ds: seq<Departure>) {
    forall i | 0 <= i < |ds| :: ds[i].exit != Unsent
  }

  // Steering

  ghost predicate Increasing(es: seq<Entry>) {
    forall i, j | 0 <= i < j < |es| :: es[i].id < es[j].id
  }

  function Elements(es: seq<Entry>): set<Entry> {
    set e | e in es
  }

  /** How many collected entries have been offered and not yet consumed. */
  function Awaiting(s: Chat): int {
    |s.collectEntries| - (|s.log.collected| - |s.log.offers|)
  }

  /** In one busy generation the offers are a prefix of what was collected; the buffer is
      what remains of the offered, then all that was not offered, in order of arrival. */
  ghost predicate Offered(buffer: seq<Entry>, offers: seq<Entry>, collected: seq<Entry>, w: int) {
    && offers <= collected
    && Increasing(collected) && Increasing(buffer)
    && 0 <= w == |buffer| - (|collected| - |offers|)
    && buffer[w..] == collected[|offers|..]
    && forall i | 0 <= i < w :: buffer[i] in offers
  }

  /** What was offered but not consumed is pending until a failure. */
  ghost predicate Awaited(waiting: seq<Entry>, pending: set<Entry>, blocked: bool, submitting: Option<Entry>) {
    && pending <= Elements(waiting)
    && (!blocked ==> pending == Elements(waiting))
    && (submitting.Some? ==> submitting.value in pending)
  }

  ghost predicate Steering(s: Chat) {
    && AreArrivals(s.log.collected, s.log.arrivals)
    && Offered(s.collectEntries, s.log.offers, s.log.collected, Awaiting(s))
    && Awaited(s.collectEntries[..Awaiting(s)], s.steerPending, s.steerBlocked, s.steerSubmitting)
  }

  ghost predicate Inv(s: Chat, k: Settings) {
    && Shape(s, k) && Conserved(s, []) && Paid(s.log) && InOrder(s, []) && Faithful(s)
    && AllSent(s.log.departures) && (s.attached ==> Steering(s))
  }

  // Steering steps

  lemma {:induction false} FirstNotPendingIs(es: seq<Entry>, w: nat)
    requires w <= |es| && Increasing(es)
    ensures FirstNotPending(es, Elements(es[..w])) == if w < |es| then Some(es[w]) else None
  {
    FirstNotPendingFrom(es, w, 0);
    assert es[0..] == es;
  }

  lemma {:induction false} FirstNotPendingFrom(es: seq<Entry>, w: nat, i: nat)
    requires i <= w <= |es| && Increasing(es)
    ensures FirstNotPending(es[i..], Elements(es[..w])) == if w < |es| then Some(es[w]) else None
    decreases w - i
  {
    if i < w {
      assert es[..w][i] == es[i];
      assert es[i..][1..] == es[i + 1..];
      FirstNotPendingFrom(es, w, i + 1);
    } else if w < |es| {
      forall e | e in es[..w]
        ensures e != es[w]
      {
      }
    }
  }

  lemma OfferNext(buffer: seq<Entry>, offers: seq<Entry>, collected: seq<Entry>, w: nat)
    requires Offered(buffer, offers, collected, w) && w < |buffer|
    ensures Offered(buffer, offers + [buffer[w]], collected, w + 1)
    ensures Elements(buffer[..w + 1]) == Elements(buffer[..w]) + {buffer[w]}
  {
    var n := |offers|;
    assert buffer[w..][0] == buffer[w] && collected[n..][0] == buffer[w];
    assert collected[n + 1..] == collected[n..][1..];
    assert buffer[w + 1..] == buffer[w..][1..];
    assert buffer[..w + 1] == buffer[..w] + [buffer[w]];
  }

  /** Offering the next entry keeps every property and touches nothing else. */
  lemma AttemptKeeps(s: Chat, k: Settings)
    requires Steering(s)
    ensures var t := AttemptSteer(s, k);
      && Steering(t)
      && t == s.(steerSubmitting := t.steerSubmitting, steerPending := t.steerPending, log := s.log.(offers := t.log.offers))
  {
    if AttemptSteer(s, k) != s {
      FirstNotPendingIs(s.collectEntries, Awaiting(s));
      OfferNext(s.collectEntries, s.log.offers, s.log.collected, Awaiting(s));
    }
  }

  // Batches

  /** The state a batch may begin in. */
  ghost predicate Ready(s: Chat) {
    && s.attached && !s.busy && s.batch.None? && s.latestPlatform.Some?
    && s.collectEntries == [] && s.pendingTexts == [] && s.pendingImagePaths == []
    && s.pendingCleanups == [] && s.pendingDropCleanups == []
  }

  lemma BatchTakesHand(s: Chat, prompt: string, images: seq<string>, cs: seq<Callback>, drops: seq<Callback>)
    requires Ready(s)
    requires Conserved(s, Ids(cs))
    ensures Conserved(BeginBatch(s, prompt, images, cs, drops), [])
  {
  }

  lemma BatchKeepsLine(s: Chat, prompt: string, images: seq<string>, cs: seq<Callback>, drops: seq<Callback>)
    requires Ready(s)
    requires InOrder(s, Ids(cs))
    ensures InOrder(BeginBatch(s, prompt, images, cs, drops), [])
  {
    LineMoves(HandedIds(s.log.prompts), Ids(cs), []);
  }

  lemma BatchShape(s: Chat, k: Settings, prompt: string, images: seq<string>, cs: seq<Callback>, drops: seq<Callback>)
    requires Ready(s) && AreCleanups(cs) && AreDropsOf(drops, cs)
    ensures Shape(BeginBatch(s, prompt, images, cs, drops), k)
  {
  }

  lemma FreshSteering(s: Chat, prompt: string, images: seq<string>, cs: seq<Callback>, drops: seq<Callback>)
    requires Ready(s)
    ensures Steering(BeginBatch(s, prompt, images, cs, drops))
  {
  }

  lemma FaithfulBatch(s: Chat, prompt: string, images: seq<string>, cs: seq<Callback>, drops: seq<Callback>)
    requires Ready(s) && Faithful(s) && Holds(s.log.arrivals, Ids(cs), prompt, images)
    ensures Faithful(BeginBatch(s, prompt, images, cs, drops))
  {
  }

  /** A batch begins with what was in hand. */
  lemma BatchBegins(s: Chat, k: Settings, prompt: string, images: seq<string>, cs: seq<Callback>, drops: seq<Callback>)
    requires Ready(s) && AreCleanups(cs) && AreDropsOf(drops, cs)
    requires Conserved(s, Ids(cs)) && Paid(s.log) && InOrder(s, Ids(cs)) && AllSent(s.log.departures)
    requires Faithful(s) && Holds(s.log.arrivals, Ids(cs), prompt, images)
    ensures Inv(BeginBatch(s, prompt, images, cs, drops), k)
  {
    BatchTakesHand(s, prompt, images, cs, drops);
    BatchKeepsLine(s, prompt, images, cs, drops);
    BatchShape(s, k, prompt, images, cs, drops);
    FreshSteering(s, prompt, images, cs, drops);
    FaithfulBatch(s, prompt, images, cs, drops);
  }

  /** A batch about to end: its callbacks and messages are in hand. */
  ghost predicate Ending(s: Chat, k: Settings, cs: seq<Callback>, live: Option<seq<Callback>>, exit: Exit) {
    && s.busy && s.batch.None? && exit == Finished(live.None?)
    && AreCleanups(cs) && (live.Some? ==> AreDropsOf(live.value, cs))
    && Conserved(s, Ids(cs)) && Paid(s.log) && InOrder(s, []) && Faithful(s) && AllSent(s.log.departures)
    && (s.attached ==> Steering(s) && s.pendingCleanups == [] && s.latestPlatform.Some?)
    && (!s.attached ==> s.collectEntries == [])
    && Shape(s.(attached := false, collectEntries := []), k) && |s.collectEntries| <= k.queueCap
  }

  function Left(s: Chat, cs: seq<Callback>, live: Option<seq<Callback>>, exit: Exit): Chat {
    s.(log := Leave(s.log, cs + live.GetOr([]), Ids(cs), exit))
  }

  lemma DepartureConserves(s: Chat, cs: seq<Callback>, live: Option<seq<Callback>>, exit: Exit)
    requires s.batch.None? && Conserved(s, Ids(cs))
    ensures Conserved(Left(s, cs, live, exit), [])
  {
    LeaveCounts(s.log, cs + live.GetOr([]), Ids(cs), exit);
  }

  lemma DeparturePays(s: Chat, cs: seq<Callback>, live: Option<seq<Callback>>)
    requires Paid(s.log) && AreCleanups(cs) && (live.Some? ==> AreDropsOf(live.value, cs))
    ensures Paid(Left(s, cs, live, Finished(live.None?)).log)
  {
    BatchDue(cs, live, Finished(live.None?));
    LeavePays(s.log, cs + live.GetOr([]), Ids(cs), Finished(live.None?));
  }

  lemma DepartureSent(s: Chat, cs: seq<Callback>, live: Option<seq<Callback>>, exit: Exit)
    requires AllSent(s.log.departures) && exit != Unsent
    ensures AllSent(Left(s, cs, live, exit).log.departures)
  {
  }

  /** The whole buffer, taken in hand for the next batch. */
  function InHand(t: Chat): Chat {
    t.(busy := false, collectEntries := [])
  }

  lemma BufferConserved(t: Chat)
    requires t.attached && t.batch.None? && Conserved(t, [])
    ensures Conserved(InHand(t), EntryIds(t.collectEntries))
  {
  }

  lemma BufferInOrder(t: Chat)
    requires t.attached && t.batch.None? && t.pendingCleanups == [] && InOrder(t, [])
    ensures InOrder(InHand(t), EntryIds(t.collectEntries))
  {
    LineMoves(HandedIds(t.log.prompts), EntryIds(t.collectEntries), []);
  }

  lemma SameIds(es: seq<Entry>)
    ensures Ids(Cleanups(es)) == EntryIds(es)
    ensures AreCleanups(Cleanups(es)) && AreDropsOf(DropCleanups(es), Cleanups(es))
  {
  }

  lemma BufferBegins(t: Chat, k: Settings)
    requires t.attached && t.batch.None? && t.latestPlatform.Some? && |t.collectEntries| > 0
    requires t.pendingCleanups == [] && Shape(t.(attached := false, collectEntries := []), k)
    requires Conserved(t, []) && Paid(t.log) && InOrder(t, []) && Faithful(t) && AllSent(t.log.departures)
    ensures var es := t.collectEntries;
      Inv(BeginBatch(InHand(t), BuildCollectPrompt(Texts(es)), Images(es), Cleanups(es), DropCleanups(es)), k)
  {
    var es := t.collectEntries;
    BufferConserved(t);
    BufferInOrder(t);
    CollectedHolds(es, t.log.arrivals);
    SameIds(es);
    BatchBegins(InHand(t), k, BuildCollectPrompt(Texts(es)), Images(es), Cleanups(es), DropCleanups(es));
  }

  /** What is left once a batch has departed. */
  ghost predicate Departed(t: Chat, k: Settings) {
    && t.busy && t.batch.None?
    && Conserved(t, []) && Paid(t.log) && InOrder(t, []) && Faithful(t) && AllSent(t.log.departures)
    && (t.attached ==> Steering(t) && t.pendingCleanups == [] && t.latestPlatform.Some?)
    && (!t.attached ==> t.collectEntries == [])
    && Shape(t.(attached := false, collectEntries := []), k) && |t.collectEntries| <= k.queueCap
  }

  lemma BatchDeparts(s: Chat, k: Settings, cs: seq<Callback>, live: Option<seq<Callback>>, exit: Exit)
    requires Ending(s, k, cs, live, exit)
    ensures Departed(Left(s, cs, live, exit), k)
  {
    DepartureConserves(s, cs, live, exit);
    DeparturePays(s, cs, live);
    DepartureSent(s, cs, live, exit);
    DepartureLeavesRest(s, k, cs, live, exit);
  }

  /** Who leaves takes nothing else along. */
  lemma DepartureLeavesRest(s: Chat, k: Settings, cs: seq<Callback>, live: Option<seq<Callback>>, exit: Exit)
    requires InOrder(s, []) && Faithful(s) && (s.attached ==> Steering(s))
    requires Shape(s.(attached := false, collectEntries := []), k)
    ensures var t := Left(s, cs, live, exit);
      && InOrder(t, []) && Faithful(t) && (t.attached ==> Steering(t))
      && Shape(t.(attached := false, collectEntries := []), k)
  {
  }

  lemma IdleSteering(t: Chat)
    requires Steering(t)
    ensures Steering(t.(busy := false))
  {
  }

  lemma FallsIdle(t: Chat, k: Settings)
    requires Departed(t, k) && t.attached && t.collectEntries == []
    ensures Inv(t.(busy := false), k)
  {
    IdleSteering(t);
  }

  lemma StaysDetached(t: Chat, k: Settings)
    requires Departed(t, k) && !t.attached
    ensures Inv(t, k)
  {
  }

  lemma AfterBatchIs(s: Chat, cs: seq<Callback>, live: Option<seq<Callback>>, exit: Exit)
    requires s.batch.None?
    ensures var t := Left(s, cs, live, exit);
      var es := t.collectEntries;
      AfterBatch(s, cs, live, exit)
      == if !t.attached then t
         else if |es| == 0 then t.(busy := false)
         else BeginBatch(InHand(t), BuildCollectPrompt(Texts(es)), Images(es), Cleanups(es), DropCleanups(es))
  {
  }

  /** The buffer becomes the next batch, or the state falls idle. */
  lemma Drains(s: Chat, k: Settings, cs: seq<Callback>, live: Option<seq<Callback>>, exit: Exit)
    requires Ending(s, k, cs, live, exit)
    ensures Inv(AfterBatch(s, cs, live, exit), k)
  {
    var t := Left(s, cs, live, exit);
    BatchDeparts(s, k, cs, live, exit);
    AfterBatchIs(s, cs, live, exit);
    if !t.attached {
      StaysDetached(t, k);
    } else if |t.collectEntries| > 0 {
      BufferBegins(t, k);
    } else {
      FallsIdle(t, k);
    }
  }

  lemma CollectedHolds(es: seq<Entry>, arrivals: seq<Entry>)
    requires |es| > 0 && AreArrivals(es, arrivals)
    ensures Holds(arrivals, EntryIds(es), BuildCollectPrompt(Texts(es)), Images(es))
  {
    ArrivalsAt(es, arrivals);
  }

  lemma ArrivalsAt(es: seq<Entry>, arrivals: seq<Entry>)
    requires AreArrivals(es, arrivals)
    ensures Known(EntryIds(es), arrivals) && At(arrivals, EntryIds(es)) == es
  {
    forall i | 0 <= i < |es|
      ensures EntryIds(es)[i] < |arrivals| && arrivals[EntryIds(es)[i]] == es[i]
    {
    }
    assert Known(EntryIds(es), arrivals);
  }

  lemma BatchLeavesLine(s: Chat)
    requires InOrder(s, [])
    ensures InOrder(s.(batch := None), [])
  {
    var rest := EntryIds(s.collectEntries) + PendingIds(s);
    AscendingWithout(HandedIds(s.log.prompts), WaitingBatchIds(s), [] + rest, |s.log.arrivals|);
    assert [] + ([] + rest) == [] + rest;
  }

  lemma BatchLeavesCensus(s: Chat)
    requires s.batch.Some? && Conserved(s, [])
    ensures Conserved(s.(batch := None), Ids(s.batch.value.cleanups))
  {
  }

  lemma BatchInHand(s: Chat, k: Settings)
    requires Inv(s, k) && s.batch.Some?
    ensures var b := s.batch.value;
      Ending(s.(batch := None), k, b.cleanups, b.liveDropCleanups, Finished(b.liveDropCleanups.None?))
  {
    BatchLeavesLine(s);
    BatchLeavesCensus(s);
  }

  lemma FinishKeeps(s: Chat, k: Settings)
    requires Inv(s, k) && s.batch.Some?
    ensures Inv(FinishBatch(s), k)
  {
    var b := s.batch.value;
    BatchInHand(s, k);
    Drains(s.(batch := None), k, b.cleanups, b.liveDropCleanups, Finished(b.liveDropCleanups.None?));
  }

  lemma SettleKeeps(s: Chat, k: Settings)
    requires Inv(s, k)
    ensures Inv(Settle(s), k)
  {
  }

  // Events

  lemma AttemptInv(s: Chat, k: Settings)
    requires Inv(s, k)
    ensures Inv(AttemptSteer(s, k), k)
  {
    if s.attached {
      AttemptKeeps(s, k);
    }
  }

  lemma ReleaseKeeps(s: Chat, k: Settings)
    requires Inv(s, k)
    ensures Inv(s.(steerSubmitting := None), k)
  {
  }

  lemma FinishSteerEnqueueKeeps(s: Chat, k: Settings, e: Entry)
    requires Inv(s, k)
    ensures Inv(FinishSteerEnqueue(s, k, e), k)
  {
    ReleaseKeeps(s, k);
    AttemptInv(s.(steerSubmitting := None), k);
  }

  lemma FlushKeeps(s: Chat, k: Settings)
    requires Inv(s, k)
    ensures Inv(Flushed(s), k)
  {
    if s.attached && |s.pendingTexts| > 0 {
      var t := s.(pendingTexts := [], pendingImagePaths := [], pendingCleanups := [], pendingDropCleanups := [],
                  debounceTimer := false);
      PendingInHand(s, t);
      BatchBegins(t, k, CombineTexts(s.pendingTexts), s.pendingImagePaths, s.pendingCleanups, s.pendingDropCleanups);
    }
  }

  lemma PendingInHand(s: Chat, t: Chat)
    requires s.attached && s.batch.None? && s.collectEntries == []
    requires t == s.(pendingTexts := [], pendingImagePaths := [], pendingCleanups := [], pendingDropCleanups := [],
                     debounceTimer := false)
    requires Conserved(s, []) && InOrder(s, [])
    ensures Conserved(t, Ids(s.pendingCleanups)) && InOrder(t, Ids(s.pendingCleanups))
  {
    LineMoves(HandedIds(s.log.prompts), Ids(s.pendingCleanups), []);
  }

  lemma FailKeeps(s: Chat, k: Settings)
    requires Inv(s, k) && s.batch.Some?
    ensures Inv(FailBatch(s), k)
  {
    SettleKeeps(s, k);
    if !s.attached {
      FinishKeeps(Settle(s), k);
    }
  }

  lemma SettledFinishKeeps(s: Chat, k: Settings)
    requires Inv(s, k) && s.batch.Some?
    ensures Inv(FinishBatch(Settle(s)), k)
  {
    SettleKeeps(s, k);
    FinishKeeps(Settle(s), k);
  }

  lemma PrepareKeeps(s: Chat, k: Settings, ok: bool)
    requires Inv(s, k)
    ensures Inv(AfterPrepare(s, ok), k)
  {
    if !SuspendedIn(s, Preparing) {
      assert AfterPrepare(s, ok) == s;
    } else if !ok {
      FailKeeps(s, k);
      assert AfterPrepare(s, ok) == FailBatch(s);
    } else if s.attached {
      NotifyingKeeps(s, k);
      assert AfterPrepare(s, ok) == InNotice(s);
    } else {
      SettledFinishKeeps(s, k);
      assert AfterPrepare(s, ok) == FinishBatch(Settle(s));
    }
  }

  /** The batch goes on to its notice. */
  function InNotice(s: Chat): Chat
    requires s.batch.Some?
  {
    s.(batch := Some(s.batch.value.(phase := Notifying)))
  }

  lemma NotifyingKeeps(s: Chat, k: Settings)
    requires Inv(s, k) && SuspendedIn(s, Preparing)
    ensures Inv(InNotice(s), k)
  {
    var t := InNotice(s);
    assert BatchIds(t) == BatchIds(s) && WaitingBatchIds(t) == WaitingBatchIds(s) && PendingIds(t) == PendingIds(s);
    assert Shape(t, k) && Faithful(t);
    assert Conserved(t, []) && InOrder(t, []);
    assert s.attached ==> Steering(t);
  }

  lemma NoticeKeeps(s: Chat, k: Settings)
    requires Inv(s, k)
    ensures Inv(AfterNotice(s), k)
  {
    if SuspendedIn(s, Notifying) {
      SettledFinishKeeps(s, k);
      if s.attached {
        HandingKeepsOrder(s);
        HandingIsFaithful(s);
        HandingShape(s, k);
      }
    }
  }

  lemma HandingIsFaithful(s: Chat)
    requires SuspendedIn(s, Notifying) && s.attached && Faithful(s)
    ensures Faithful(AfterNotice(s))
  {
    HandedPromptHolds(s.log.arrivals, s.log.prompts, AfterNotice(s).log.prompts[|s.log.prompts|]);
  }

  lemma HandingShape(s: Chat, k: Settings)
    requires SuspendedIn(s, Notifying) && s.attached && Shape(s, k)
    ensures Shape(AfterNotice(s), k)
  {
  }

  lemma HandingKeepsOrder(s: Chat)
    requires SuspendedIn(s, Notifying) && s.attached && !s.batch.value.handed && s.pendingCleanups == [] && InOrder(s, [])
    ensures InOrder(AfterNotice(s), [])
  {
    var b := s.batch.value;
    var p := Prompt(Ids(b.cleanups), b.prompt, b.images, s.agentId, b.platform);
    assert (s.log.prompts + [p])[..|s.log.prompts|] == s.log.prompts;
    LineMoves(HandedIds(s.log.prompts), Ids(b.cleanups), EntryIds(s.collectEntries));
  }

  lemma HandedPromptHolds(arrivals: seq<Entry>, prompts: seq<Prompt>, p: Prompt)
    requires PromptsHold(arrivals, prompts) && Holds(arrivals, p.ids, p.text, p.images)
    ensures PromptsHold(arrivals, prompts + [p])
  {
  }

  lemma ProcessKeeps(s: Chat, k: Settings, ok: bool)
    requires Inv(s, k)
    ensures Inv(AfterProcess(s, ok), k)
  {
    if SuspendedIn(s, Processing) {
      FailKeeps(s, k);
      SettledFinishKeeps(s, k);
    }
  }

  lemma OwnershipKeeps(s: Chat, k: Settings, number: nat)
    requires Inv(s, k)
    ensures Inv(TakeOwnership(s, number), k)
  {
  }

  // A steered entry is consumed

  lemma {:induction false} IndexOfIs(es: seq<Entry>, e: Entry, i: nat)
    requires i < |es| && es[i] == e && Increasing(es)
    ensures IndexOf(es, e) == i
  {
  }

  lemma RemovedIncreasing(es: seq<Entry>, i: nat)
    requires i < |es| && Increasing(es)
    ensures Increasing(es[..i] + es[i + 1..])
  {
    var rest := es[..i] + es[i + 1..];
    assert forall j | 0 <= j < |rest| :: rest[j] == es[if j < i then j else j + 1];
  }

  lemma RemovedElements(es: seq<Entry>, i: nat)
    requires i < |es| && Increasing(es)
    ensures Elements(es[..i] + es[i + 1..]) == Elements(es) - {es[i]}
  {
    var rest := es[..i] + es[i + 1..];
    assert forall j | 0 <= j < |rest| :: rest[j] == es[if j < i then j else j + 1];
    forall e | e in es && e != es[i]
      ensures e in rest
    {
      var j :| 0 <= j < |es| && es[j] == e;
      assert rest[if j < i then j else j - 1] == e;
    }
  }

  function Removed(es: seq<Entry>, i: nat): (rest: seq<Entry>)
    requires i < |es|
    ensures |rest| == |es| - 1 && forall j | 0 <= j < |rest| :: rest[j] == es[if j < i then j else j + 1]
  {
    es[..i] + es[i + 1..]
  }

  lemma RemovedTail(es: seq<Entry>, i: nat, w: nat)
    requires i < w <= |es|
    ensures Removed(es, i)[w - 1..] == es[w..]
  {
  }

  lemma RemovedFront(es: seq<Entry>, i: nat, w: nat)
    requires i < w <= |es|
    ensures Removed(es, i)[..w - 1] == Removed(es[..w], i)
  {
  }

  lemma ConsumedAt(buffer: seq<Entry>, offers: seq<Entry>, collected: seq<Entry>, w: nat, i: nat)
    requires Offered(buffer, offers, collected, w) && i < w
    ensures Offered(Removed(buffer, i), offers, collected, w - 1)
  {
    RemovedIncreasing(buffer, i);
    RemovedTail(buffer, i, w);
  }

  lemma ConsumedOffered(buffer: seq<Entry>, offers: seq<Entry>, collected: seq<Entry>, w: nat, e: Entry)
    requires Offered(buffer, offers, collected, w) && e in buffer[..w]
    ensures Offered(Without(buffer, e), offers, collected, w - 1)
    ensures Elements(Without(buffer, e)[..w - 1]) == Elements(buffer[..w]) - {e}
  {
    var i: nat :| i < w && buffer[..w][i] == e;
    IndexOfIs(buffer, e, i);
    ConsumedAt(buffer, offers, collected, w, i);
    RemovedFront(buffer, i, w);
    RemovedElements(buffer[..w], i);
  }

  lemma {:induction false} EntryIdsConcat(a: seq<Entry>, b: seq<Entry>)
    ensures EntryIds(a + b) == EntryIds(a) + EntryIds(b)
  {
    var ids := EntryIds(a + b);
    forall i | 0 <= i < |ids|
      ensures ids[i] == (EntryIds(a) + EntryIds(b))[i]
    {
    }
  }

  lemma IdsAround(a: seq<Entry>, e: Entry, b: seq<Entry>)
    ensures EntryIds(a + ([e] + b)) == EntryIds(a) + ([e.id] + EntryIds(b))
  {
    EntryIdsConcat(a, [e] + b);
    EntryIdsConcat([e], b);
    assert EntryIds([e]) == [e.id];
  }

  lemma ConsumedIdsAt(buffer: seq<Entry>, i: nat)
    requires i < |buffer|
    ensures EntryIds(buffer) == EntryIds(buffer[..i]) + ([buffer[i].id] + EntryIds(buffer[i + 1..]))
    ensures EntryIds(buffer[..i] + buffer[i + 1..]) == EntryIds(buffer[..i]) + EntryIds(buffer[i + 1..])
  {
    Split(buffer, i);
    IdsAround(buffer[..i], buffer[i], buffer[i + 1..]);
    EntryIdsConcat(buffer[..i], buffer[i + 1..]);
  }

  lemma Split(es: seq<Entry>, i: nat)
    requires i < |es|
    ensures es == es[..i] + ([es[i]] + es[i + 1..])
  {
  }

  lemma ConsumedIds(buffer: seq<Entry>, e: Entry)
    requires e in buffer
    ensures var i := IndexOf(buffer, e);
      && EntryIds(buffer) == EntryIds(buffer[..i]) + ([e.id] + EntryIds(buffer[i + 1..]))
      && EntryIds(Without(buffer, e)) == EntryIds(buffer[..i]) + EntryIds(buffer[i + 1..])
  {
    ConsumedIdsAt(buffer, IndexOf(buffer, e));
  }

  /** What is left when an acknowledged entry goes. */
  function Steered(s: Chat, e: Entry): Chat
    requires e in s.collectEntries
  {
    s.(collectEntries := Without(s.collectEntries, e),
       steerPending := s.steerPending - {e},
       steerSubmitting := if s.steerSubmitting == Some(e) then None else s.steerSubmitting,
       log := Leave(s.log, [Cleanup(e.id)], [e.id], Consumed))
  }

  lemma SteeredConserves(s: Chat, e: Entry)
    requires e in s.collectEntries && Conserved(s, [])
    ensures Conserved(Steered(s, e), [])
  {
    ConsumedIds(s.collectEntries, e);
    LeaveCounts(s.log, [Cleanup(e.id)], [e.id], Consumed);
  }

  lemma Regroup(a: seq<nat>, b: seq<nat>, c: seq<nat>, d: seq<nat>)
    ensures a + ((b + c) + d) == (a + b) + (c + d)
  {
  }

  lemma LineWithout(front: seq<nat>, a: seq<nat>, id: nat, b: seq<nat>, pending: seq<nat>, bound: nat)
    requires Ascending(front + ((a + ([id] + b)) + pending), bound)
    ensures Ascending(front + ((a + b) + pending), bound)
  {
    Regroup(front, a, [id] + b, pending);
    assert ([id] + b) + pending == [id] + (b + pending);
    AscendingWithout(front + a, [id], b + pending, bound);
    Regroup(front, a, b, pending);
  }

  lemma LineFront(handed: seq<nat>, waiting: seq<nat>, collected: seq<nat>, pending: seq<nat>)
    ensures Line(handed, waiting, [], collected, pending) == (handed + waiting) + (collected + pending)
  {
    assert [] + (collected + pending) == collected + pending;
  }

  lemma SteeredInOrder(s: Chat, e: Entry)
    requires e in s.collectEntries && InOrder(s, [])
    ensures InOrder(Steered(s, e), [])
  {
    ConsumedIds(s.collectEntries, e);
    var i := IndexOf(s.collectEntries, e);
    var h, w := HandedIds(s.log.prompts), WaitingBatchIds(s);
    var a, b := EntryIds(s.collectEntries[..i]), EntryIds(s.collectEntries[i + 1..]);
    LineFront(h, w, EntryIds(s.collectEntries), PendingIds(s));
    LineWithout(h + w, a, e.id, b, PendingIds(s), |s.log.arrivals|);
    LineFront(h, w, a + b, PendingIds(s));
  }

  lemma SteeredPays(s: Chat, e: Entry)
    requires e in s.collectEntries && Paid(s.log) && AllSent(s.log.departures)
    ensures Paid(Steered(s, e).log) && AllSent(Steered(s, e).log.departures)
  {
    OneDeparture(e.id, Consumed);
    LeavePays(s.log, [Cleanup(e.id)], [e.id], Consumed);
  }

  lemma SteeredSteering(s: Chat, e: Entry)
    requires Steering(s) && e in s.steerPending
    ensures e in s.collectEntries && Steering(Steered(s, e))
  {
    var w := Awaiting(s);
    assert e in s.collectEntries[..w];
    ConsumedOffered(s.collectEntries, s.log.offers, s.log.collected, w, e);
  }

  lemma SteeredFaithful(s: Chat, k: Settings, e: Entry)
    requires e in s.collectEntries && Faithful(s) && Shape(s, k)
    ensures Faithful(Steered(s, e)) && Shape(Steered(s, e), k)
  {
    var i, rest := IndexOf(s.collectEntries, e), Without(s.collectEntries, e);
    assert forall j | 0 <= j < |rest| :: rest[j] == s.collectEntries[if j < i then j else j + 1];
  }

  lemma SteeredKeeps(s: Chat, k: Settings, e: Entry)
    requires Inv(s, k) && s.attached && e in s.steerPending
    ensures e in s.collectEntries && Inv(Steered(s, e), k)
  {
    SteeredSteering(s, e);
    SteeredConserves(s, e);
    SteeredInOrder(s, e);
    SteeredPays(s, e);
    SteeredFaithful(s, k, e);
  }

  lemma BlockedAwaits(s: Chat, e: Entry)
    requires Steering(s)
    ensures Steering(s.(steerPending := s.steerPending - {e}, steerBlocked := true,
                        steerSubmitting := if s.steerSubmitting == Some(e) then None else s.steerSubmitting))
  {
  }

  lemma BlockedKeeps(s: Chat, k: Settings, e: Entry)
    requires Inv(s, k) && s.attached
    ensures Inv(s.(steerPending := s.steerPending - {e}, steerBlocked := true,
                   steerSubmitting := if s.steerSubmitting == Some(e) then None else s.steerSubmitting), k)
  {
    BlockedAwaits(s, e);
  }

  lemma FinishSteerKeeps(s: Chat, k: Settings, e: Entry, acknowledged: bool)
    requires Inv(s, k)
    ensures Inv(FinishSteer(s, k, e, acknowledged), k)
  {
    if s.attached && s.busy && e in s.steerPending {
      if acknowledged {
        SteeredKeeps(s, k, e);
        AttemptInv(Steered(s, e), k);
      } else {
        BlockedKeeps(s, k, e);
      }
    }
  }

  // Arrivals

  lemma {:induction false} AtGrows(arrivals: seq<Entry>, e: Entry, ids: seq<nat>)
    requires Known(ids, arrivals)
    ensures Known(ids, arrivals + [e]) && At(arrivals + [e], ids) == At(arrivals, ids)
  {
    assert Known(ids, arrivals + [e]);
    var a, b := At(arrivals, ids), At(arrivals + [e], ids);
    forall i | 0 <= i < |a|
      ensures a[i] == b[i]
    {
    }
  }

  lemma HoldsGrows(arrivals: seq<Entry>, e: Entry, ids: seq<nat>, prompt: string, images: seq<string>)
    requires Holds(arrivals, ids, prompt, images)
    ensures Holds(arrivals + [e], ids, prompt, images)
  {
    AtGrows(arrivals, e, ids);
  }

  lemma PromptsGrow(arrivals: seq<Entry>, e: Entry, prompts: seq<Prompt>)
    requires PromptsHold(arrivals, prompts)
    ensures PromptsHold(arrivals + [e], prompts)
  {
    forall i | 0 <= i < |prompts|
      ensures Holds(arrivals + [e], prompts[i].ids, prompts[i].text, prompts[i].images)
    {
      HoldsGrows(arrivals, e, prompts[i].ids, prompts[i].text, prompts[i].images);
    }
  }

  lemma ArrivalsGrow(arrivals: seq<Entry>, e: Entry, es: seq<Entry>)
    requires AreArrivals(es, arrivals)
    ensures AreArrivals(es, arrivals + [e])
  {
  }

  /** The message has arrived and is in hand. */
  function Arrived(s: Chat, e: Entry, agentId: string, platform: Platform): Chat {
    s.(agentId := agentId, latestPlatform := Some(platform), log := s.log.(arrivals := s.log.arrivals + [e]))
  }

  /** Everything in line arrived before the last arrival. */
  ghost predicate LastInLine(s: Chat) {
    && |s.log.arrivals| > 0
    && Ascending(Line(HandedIds(s.log.prompts), WaitingBatchIds(s), [], EntryIds(s.collectEntries), PendingIds(s)),
                 |s.log.arrivals| - 1)
  }

  ghost predicate CollectedBefore(s: Chat) {
    |s.log.arrivals| > 0 && AreArrivals(s.log.collected, s.log.arrivals[..|s.log.arrivals| - 1])
  }

  /** The invariant while one message is in hand, last in line. */
  ghost predicate Holding(s: Chat, k: Settings, e: Entry) {
    && Shape(s, k) && Paid(s.log) && Faithful(s) && AllSent(s.log.departures)
    && s.attached && Steering(s) && s.latestPlatform.Some?
    && Conserved(s, [e.id]) && InOrder(s, []) && LastInLine(s) && CollectedBefore(s)
    && s.log.arrivals[|s.log.arrivals| - 1] == e
  }

  lemma ArrivesFaithful(s: Chat, e: Entry, agentId: string, platform: Platform)
    requires Faithful(s) && e.id == |s.log.arrivals|
    ensures Faithful(Arrived(s, e, agentId, platform))
  {
    PromptsGrow(s.log.arrivals, e, s.log.prompts);
    ArrivalsGrow(s.log.arrivals, e, s.collectEntries);
    AtGrows(s.log.arrivals, e, Ids(s.pendingCleanups));
    if s.batch.Some? {
      var b := s.batch.value;
      HoldsGrows(s.log.arrivals, e, Ids(b.cleanups), b.prompt, b.images);
    }
  }

  lemma ArrivesConserved(s: Chat, e: Entry, agentId: string, platform: Platform)
    requires Conserved(s, []) && e.id == |s.log.arrivals|
    ensures Conserved(Arrived(s, e, agentId, platform), [e.id])
  {
  }

  lemma ArrivesSteering(s: Chat, e: Entry, agentId: string, platform: Platform)
    requires Steering(s)
    ensures Steering(Arrived(s, e, agentId, platform))
  {
    ArrivalsGrow(s.log.arrivals, e, s.log.collected);
  }

  lemma ArrivesInOrder(s: Chat, e: Entry, agentId: string, platform: Platform)
    requires InOrder(s, [])
    ensures InOrder(Arrived(s, e, agentId, platform), []) && LastInLine(Arrived(s, e, agentId, platform))
  {
  }

  lemma ArrivesLast(s: Chat, e: Entry, agentId: string, platform: Platform)
    requires AreArrivals(s.log.collected, s.log.arrivals)
    ensures CollectedBefore(Arrived(s, e, agentId, platform))
  {
    var t := Arrived(s, e, agentId, platform);
    assert t.log.arrivals[..|t.log.arrivals| - 1] == s.log.arrivals;
  }

  lemma ArrivesShape(s: Chat, k: Settings, e: Entry, agentId: string, platform: Platform)
    requires Shape(s, k)
    ensures Shape(Arrived(s, e, agentId, platform), k)
  {
  }

  lemma Arrives(s: Chat, k: Settings, e: Entry, agentId: string, platform: Platform)
    requires Inv(s, k) && s.attached && e.id == |s.log.arrivals|
    ensures Holding(Arrived(s, e, agentId, platform), k, e)
  {
    ArrivesFaithful(s, e, agentId, platform);
    ArrivesConserved(s, e, agentId, platform);
    ArrivesSteering(s, e, agentId, platform);
    ArrivesInOrder(s, e, agentId, platform);
    ArrivesLast(s, e, agentId, platform);
    ArrivesShape(s, k, e, agentId, platform);
  }

  // Turned away

  function Refused(s: Chat, e: Entry): Chat {
    s.(log := Leave(s.log, [Cleanup(e.id), DropCleanup(e.id)], [e.id], Rejected))
  }

  lemma RefusedConserves(s: Chat, e: Entry)
    requires Conserved(s, [e.id])
    ensures Conserved(Refused(s, e), [])
  {
    LeaveCounts(s.log, [Cleanup(e.id), DropCleanup(e.id)], [e.id], Rejected);
  }

  lemma RefusedPays(s: Chat, e: Entry)
    requires Paid(s.log)
    ensures Paid(Refused(s, e).log)
  {
    OneDeparture(e.id, Rejected);
    LeavePays(s.log, [Cleanup(e.id), DropCleanup(e.id)], [e.id], Rejected);
  }

  lemma RefusedSent(s: Chat, e: Entry)
    requires AllSent(s.log.departures)
    ensures AllSent(Refused(s, e).log.departures)
  {
  }

  lemma RefusedKeeps(s: Chat, k: Settings, e: Entry)
    requires Holding(s, k, e)
    ensures Inv(Refused(s, e), k)
  {
    RefusedConserves(s, e);
    RefusedPays(s, e);
    RefusedSent(s, e);
  }

  lemma NoticeFieldsKeep(s: Chat, k: Settings, scheduled: bool, nextAt: int)
    requires Inv(s, k)
    ensures Inv(s.(rejectionNoticeScheduled := scheduled, nextRejectionNoticeAt := nextAt), k)
  {
  }

  lemma TurnedKeeps(s: Chat, k: Settings, e: Entry, now: int)
    requires Holding(s, k, e)
    ensures Inv(Turned(s, e, now), k)
  {
    RefusedKeeps(s, k, e);
    NoticeFieldsKeep(Refused(s, e), k, true, now + NOTICE_COOLDOWN_MS);
  }

  // Collected mid-turn

  function Collected(s: Chat, e: Entry): Chat {
    s.(collectEntries := s.collectEntries + [e], log := s.log.(collected := s.log.collected + [e]))
  }

  lemma CollectedConserves(s: Chat, e: Entry)
    requires Conserved(s, [e.id])
    ensures Conserved(Collected(s, e), [])
  {
    EntryIdsConcat(s.collectEntries, [e]);
    assert EntryIds([e]) == [e.id];
  }

  lemma AscendingLast(ids: seq<nat>, n: nat)
    requires Ascending(ids, n)
    ensures Ascending(ids + [n], n + 1)
  {
  }

  lemma LineEnds(handed: seq<nat>, waiting: seq<nat>, part: seq<nat>, id: nat)
    ensures Line(handed, waiting, [], part + [id], []) == Line(handed, waiting, [], part, []) + [id]
    ensures Line(handed, waiting, [], [], part + [id]) == Line(handed, waiting, [], [], part) + [id]
  {
    Regroup(handed, waiting, part, [id]);
    LineFront(handed, waiting, part, []);
    LineFront(handed, waiting, part + [id], []);
    LineFront(handed, waiting, [], part);
    LineFront(handed, waiting, [], part + [id]);
  }

  lemma CollectedInOrder(s: Chat, e: Entry)
    requires LastInLine(s) && PendingIds(s) == [] && e.id == |s.log.arrivals| - 1
    ensures InOrder(Collected(s, e), [])
  {
    EntryIdsConcat(s.collectEntries, [e]);
    assert EntryIds([e]) == [e.id];
    LineEnds(HandedIds(s.log.prompts), WaitingBatchIds(s), EntryIds(s.collectEntries), e.id);
    AscendingLast(Line(HandedIds(s.log.prompts), WaitingBatchIds(s), [], EntryIds(s.collectEntries), []), e.id);
  }

  lemma OfferedGrows(buffer: seq<Entry>, offers: seq<Entry>, collected: seq<Entry>, w: nat, e: Entry)
    requires Offered(buffer, offers, collected, w)
    requires Increasing(collected + [e]) && Increasing(buffer + [e])
    ensures Offered(buffer + [e], offers, collected + [e], w)
    ensures (buffer + [e])[..w] == buffer[..w]
  {
    var n := |offers|;
    assert (buffer + [e])[w..] == buffer[w..] + [e];
    assert (collected + [e])[n..] == collected[n..] + [e];
  }

  lemma IncreasingGrows(es: seq<Entry>, e: Entry, before: seq<Entry>)
    requires Increasing(es) && AreArrivals(es, before) && e.id == |before|
    ensures Increasing(es + [e])
  {
  }

  lemma CollectedSteering(s: Chat, e: Entry)
    requires Steering(s) && CollectedBefore(s) && AreArrivals(s.collectEntries, s.log.arrivals)
    requires |s.log.arrivals| > 0 && e == s.log.arrivals[|s.log.arrivals| - 1] && e.id == |s.log.arrivals| - 1
    requires e !in s.collectEntries
    ensures Steering(Collected(s, e))
  {
    var before := s.log.arrivals[..|s.log.arrivals| - 1];
    IncreasingGrows(s.log.collected, e, before);
    forall i | 0 <= i < |s.collectEntries|
      ensures s.collectEntries[i].id < e.id
    {
    }
    assert Increasing(s.collectEntries + [e]);
    OfferedGrows(s.collectEntries, s.log.offers, s.log.collected, Awaiting(s), e);
  }

  lemma InLineBefore(s: Chat, e: Entry)
    requires LastInLine(s) && e.id == |s.log.arrivals| - 1
    ensures e !in s.collectEntries
  {
    var h, w := HandedIds(s.log.prompts), WaitingBatchIds(s);
    LineFront(h, w, EntryIds(s.collectEntries), PendingIds(s));
    var line := (h + w) + (EntryIds(s.collectEntries) + PendingIds(s));
    forall i | 0 <= i < |s.collectEntries|
      ensures s.collectEntries[i].id < e.id
    {
      assert line[|h + w| + i] == s.collectEntries[i].id;
    }
  }

  lemma CollectedFaithful(s: Chat, e: Entry)
    requires Faithful(s) && |s.log.arrivals| > 0 && e == s.log.arrivals[|s.log.arrivals| - 1]
    ensures Faithful(Collected(s, e))
  {
  }

  lemma CollectedKeeps(s: Chat, k: Settings, e: Entry)
    requires Holding(s, k, e) && s.busy && |s.collectEntries| < k.queueCap
    ensures Inv(Collected(s, e), k)
  {
    InLineBefore(s, e);
    CollectedConserves(s, e);
    CollectedInOrder(s, e);
    CollectedSteering(s, e);
    CollectedFaithful(s, e);
  }

  // Pending

  function Appended(s: Chat, e: Entry): Chat {
    s.(pendingTexts := s.pendingTexts + [e.text], pendingImagePaths := s.pendingImagePaths + e.images,
       pendingCleanups := s.pendingCleanups + [Cleanup(e.id)],
       pendingDropCleanups := s.pendingDropCleanups + [DropCleanup(e.id)],
       debounceTimer := true)
  }

  lemma IdsGrow(cs: seq<Callback>, id: nat)
    ensures Ids(cs + [Cleanup(id)]) == Ids(cs) + [id]
  {
  }

  lemma AppendedConserves(s: Chat, e: Entry)
    requires s.attached && Conserved(s, [e.id])
    ensures Conserved(Appended(s, e), [])
  {
    IdsGrow(s.pendingCleanups, e.id);
  }

  lemma AppendedInOrder(s: Chat, e: Entry)
    requires s.attached && LastInLine(s) && s.collectEntries == [] && e.id == |s.log.arrivals| - 1
    ensures InOrder(Appended(s, e), [])
  {
    IdsGrow(s.pendingCleanups, e.id);
    LineEnds(HandedIds(s.log.prompts), WaitingBatchIds(s), Ids(s.pendingCleanups), e.id);
    AscendingLast(Line(HandedIds(s.log.prompts), WaitingBatchIds(s), [], [], Ids(s.pendingCleanups)), e.id);
  }

  lemma PendingGrows(arrivals: seq<Entry>, ids: seq<nat>, texts: seq<string>, images: seq<string>, e: Entry)
    requires PendingHolds(arrivals, ids, texts, images) && e.id < |arrivals| && arrivals[e.id] == e
    ensures PendingHolds(arrivals, ids + [e.id], texts + [e.text], images + e.images)
  {
    assert Known(ids + [e.id], arrivals);
    assert (ids + [e.id])[..|ids|] == ids;
    var es := At(arrivals, ids);
    assert At(arrivals, ids + [e.id]) == es + [e];
    assert (es + [e])[..|es|] == es;
  }

  lemma AppendedFaithful(s: Chat, e: Entry)
    requires Faithful(s) && |s.log.arrivals| > 0 && e == s.log.arrivals[|s.log.arrivals| - 1]
    ensures Faithful(Appended(s, e))
  {
    IdsGrow(s.pendingCleanups, e.id);
    PendingGrows(s.log.arrivals, Ids(s.pendingCleanups), s.pendingTexts, s.pendingImagePaths, e);
  }

  lemma AppendedShape(s: Chat, k: Settings, e: Entry)
    requires Shape(s, k) && s.attached && !s.busy && s.latestPlatform.Some? && |s.pendingTexts| < k.queueCap
    ensures Shape(Appended(s, e), k)
  {
  }

  lemma AppendedKeeps(s: Chat, k: Settings, e: Entry)
    requires Holding(s, k, e) && !s.busy && |s.pendingTexts| < k.queueCap
    ensures Inv(Appended(s, e), k)
  {
    AppendedConserves(s, e);
    AppendedInOrder(s, e);
    AppendedFaithful(s, e);
    AppendedShape(s, k, e);
  }

  /** A message with room joins the buffer of a busy chat, or else waits for the timer. */
  lemma AcceptedKeeps(t: Chat, k: Settings, e: Entry)
    requires Holding(t, k, e) && HasRoom(t, k)
    ensures Inv(if t.busy then AttemptSteer(Collected(t, e), k) else Appended(t, e), k)
  {
    if t.busy {
      CollectedKeeps(t, k, e);
      AttemptInv(Collected(t, e), k);
    } else {
      AppendedKeeps(t, k, e);
    }
  }

  lemma EnqueuedIs(s: Chat, k: Settings, e: Entry, agentId: string, platform: Platform, now: int)
    ensures var t := Arrived(s, e, agentId, platform);
      Enqueued(s, k, e, agentId, platform, now)
      == if !HasRoom(t, k) then Turned(t, e, now)
         else if t.busy then AttemptSteer(Collected(t, e), k)
         else Appended(t, e)
  {
  }

  lemma EnqueueKeeps(s: Chat, k: Settings, e: Entry, agentId: string, platform: Platform, now: int)
    requires Inv(s, k) && s.attached && e.id == |s.log.arrivals|
    ensures Inv(Enqueued(s, k, e, agentId, platform, now), k)
  {
    var t := Arrived(s, e, agentId, platform);
    Arrives(s, k, e, agentId, platform);
    EnqueuedIs(s, k, e, agentId, platform, now);
    if HasRoom(t, k) {
      AcceptedKeeps(t, k, e);
    } else {
      TurnedKeeps(t, k, e, now);
    }
  }

  // Clearing and evicting

  /** The pending messages leave by the door of a clear; their list stays behind. */
  function PendingDropped(s: Chat): Chat {
    s.(attached := false, rejectionNoticeScheduled := false, steerSubmitting := None, steerPending := {}, steerBlocked := true,
       log := Leave(s.log, s.pendingCleanups + s.pendingDropCleanups, Ids(s.pendingCleanups), Dropped))
  }

  function BufferDropped(s: Chat): Chat {
    s.(collectEntries := [],
       log := Leave(s.log, InterleavedCleanups(s.collectEntries), EntryIds(s.collectEntries), Dropped))
  }

  lemma ClearedInTwo(s: Chat)
    ensures Cleared(s) == BufferDropped(PendingDropped(s))
  {
  }

  lemma PendingDropConserves(s: Chat)
    requires s.attached && Conserved(s, [])
    ensures Conserved(PendingDropped(s), [])
  {
    LeaveCounts(s.log, s.pendingCleanups + s.pendingDropCleanups, Ids(s.pendingCleanups), Dropped);
  }

  lemma BufferDropConserves(s: Chat)
    requires Conserved(s, [])
    ensures Conserved(BufferDropped(s), [])
  {
    LeaveCounts(s.log, InterleavedCleanups(s.collectEntries), EntryIds(s.collectEntries), Dropped);
  }

  lemma DroppedConserves(s: Chat)
    requires s.attached && Conserved(s, [])
    ensures Conserved(Cleared(s), [])
  {
    ClearedInTwo(s);
    PendingDropConserves(s);
    BufferDropConserves(PendingDropped(s));
  }

  lemma DroppedPays(s: Chat)
    requires Paid(s.log) && AreCleanups(s.pendingCleanups) && AreDropsOf(s.pendingDropCleanups, s.pendingCleanups)
    ensures Paid(Cleared(s).log)
  {
    BatchDue(s.pendingCleanups, Some(s.pendingDropCleanups), Dropped);
    LeavePays(s.log, s.pendingCleanups + s.pendingDropCleanups, Ids(s.pendingCleanups), Dropped);
    CollectedDue(s.collectEntries);
    LeavePays(PendingDropped(s).log, InterleavedCleanups(s.collectEntries), EntryIds(s.collectEntries), Dropped);
  }

  lemma DroppedSent(s: Chat)
    requires AllSent(s.log.departures)
    ensures AllSent(Cleared(s).log.departures)
  {
  }

  lemma {:induction false} AscendingFront(a: seq<nat>, b: seq<nat>, bound: nat)
    requires Ascending(a + b, bound)
    ensures Ascending(a, bound)
  {
    assert forall i | 0 <= i < |a| :: a[i] == (a + b)[i];
  }

  lemma DroppedInOrder(s: Chat)
    requires InOrder(s, [])
    ensures InOrder(Cleared(s), [])
  {
    var h, w := HandedIds(s.log.prompts), WaitingBatchIds(s);
    LineFront(h, w, EntryIds(s.collectEntries), PendingIds(s));
    AscendingFront(h + w, EntryIds(s.collectEntries) + PendingIds(s), |s.log.arrivals|);
    LineFront(h, w, [], []);
    assert (h + w) + ([] + []) == h + w;
  }

  lemma ClearedShape(s: Chat, k: Settings)
    requires Shape(s, k)
    ensures Shape(Cleared(s), k)
  {
  }

  lemma ClearKeeps(s: Chat, k: Settings)
    requires Inv(s, k) && s.attached
    ensures Inv(Cleared(s), k)
  {
    DroppedConserves(s);
    DroppedPays(s);
    DroppedSent(s);
    DroppedInOrder(s);
    ClearedShape(s, k);
  }

  lemma DetachIdleKeeps(s: Chat, k: Settings)
    requires Inv(s, k) && s.attached && Idle(s)
    ensures Inv(s.(attached := false), k)
  {
    assert PendingIds(s) == PendingIds(s.(attached := false));
  }

  lemma ForgetPlatformKeeps(s: Chat, k: Settings)
    requires Inv(s, k) && s.attached && Idle(s)
    ensures Inv(s.(latestPlatform := None), k)
  {
  }

  lemma EvictKeeps(s: Chat, k: Settings, now: int)
    requires Inv(s, k) && s.attached
    ensures Inv(Evicted(s, now), k)
  {
    if Idle(s) {
      DetachIdleKeeps(s, k);
      ForgetPlatformKeeps(s, k);
    }
  }

  lemma TimerKeeps(s: Chat, k: Settings)
    requires Inv(s, k)
    ensures Inv(s.(debounceTimer := false), k)
  {
  }

  lemma ReplyKeeps(s: Chat, k: Settings)
    requires Inv(s, k)
    ensures Inv(AfterReply(s), k)
  {
    if SuspendedIn(s, Replying) {
      FinishKeeps(s, k);
    }
  }

  lemma FlowKeeps(s: Chat, k: Settings, event: Event)
    requires Inv(s, k)
    requires event.Prepared? || event.Noticed? || event.Processed? || event.Replied?
    ensures Inv(Step(s, k, event), k)
  {
    var t := Step(s, k, event);
    match event {
      case Prepared(ok) =>
        assert t == AfterPrepare(s, ok);
        PrepareKeeps(s, k, ok);
      case Noticed =>
        assert t == AfterNotice(s);
        NoticeKeeps(s, k);
      case Processed(ok) =>
        assert t == AfterProcess(s, ok);
        ProcessKeeps(s, k, ok);
      case Replied =>
        assert t == AfterReply(s);
        ReplyKeeps(s, k);
    }
  }

  lemma LookupKeeps(s: Chat, k: Settings, event: Event)
    requires Inv(s, k) && s.attached
    requires event.Enqueue? || event.EvictIfIdle? || event.Clear?
    ensures Inv(Step(s, k, event), k)
  {
    var t := Step(s, k, event);
    match event {
      case Enqueue(agentId, text, images, platform, now) =>
        var e := Entry(|s.log.arrivals|, text, images);
        assert t == Enqueued(s, k, e, agentId, platform, now);
        EnqueueKeeps(s, k, e, agentId, platform, now);
      case EvictIfIdle(now) =>
        assert t == Evicted(s, now);
        EvictKeeps(s, k, now);
      case Clear =>
        assert t == Cleared(s);
        ClearKeeps(s, k);
    }
  }

  /** Every event keeps the invariant. */
  lemma StepKeeps(s: Chat, k: Settings, event: Event)
    requires Inv(s, k)
    ensures Inv(Step(s, k, event), k)
  {
    match event {
      case Enqueue(_, _, _, _, _) | EvictIfIdle(_) | Clear =>
        if s.attached {
          LookupKeeps(s, k, event);
        }
      case CancelTimer => TimerKeeps(s, k);
      case OwnershipTaken(number) => OwnershipKeeps(s, k, number);
      case SteerEnqueued(e) => FinishSteerEnqueueKeeps(s, k, e);
      case SteerAnswered(e, acknowledged) => FinishSteerKeeps(s, k, e, acknowledged);
      case NoticeDispatched => NoticeFieldsKeep(s, k, false, s.nextRejectionNoticeAt);
      case Flush => FlushKeeps(s, k);
      case Prepared(_) | Noticed | Processed(_) | Replied => FlowKeeps(s, k, event);
    }
  }

  lemma NewChatInv(agentId: string, k: Settings)
    ensures Inv(NewChat(agentId), k)
  {
  }

  /** The invariant holds after every story. */
  lemma {:induction false} StoryKeeps(k: Settings, story: Story)
    ensures Inv(After(k, story), k)
  {
    match story
    case Made(agentId) => NewChatInv(agentId, k);
    case Then(before, event) =>
      StoryKeeps(k, before);
      StepKeeps(After(k, before), k, event);
  }
}
