/** What shutdown promises of the whole queue: of every chat state there has ever been,
    those that have been forgotten with a flush still running included. */
module QueueTheorems {
  import opened Common
  import opened ChatQueue
  import opened ChatProofs
  import opened ChatTheorems

  /** Something that happens to one of the states; they are told apart by number. */
  datatype Happening = At(state: nat, event: Event)

  function Happens(states: seq<Chat>, k: Settings, h: Happening): (after: seq<Chat>)
    ensures |after| == |states|
  {
    if h.state < |states| then states[h.state := Step(states[h.state], k, h.event)] else states
  }

  function AfterHappenings(states: seq<Chat>, k: Settings, hs: seq<Happening>): (after: seq<Chat>)
    ensures |after| == |states|
    decreases |hs|
  {
    if |hs| == 0 then states else Happens(AfterHappenings(states, k, hs[..|hs| - 1]), k, hs[|hs| - 1])
  }

  /** What happens to one state. */
  function EventsOf(hs: seq<Happening>, i: nat): seq<Event>
    decreases |hs|
  {
    if |hs| == 0 then []
    else
      var last := hs[|hs| - 1];
      EventsOf(hs[..|hs| - 1], i) + if last.state == i then [last.event] else []
  }

  /** No state has anything to do with another one. */
  lemma {:induction false} StatesAreApart(states: seq<Chat>, k: Settings, hs: seq<Happening>, i: nat)
    requires i < |states|
    ensures AfterHappenings(states, k, hs)[i] == AfterAll(states[i], k, EventsOf(hs, i))
    decreases |hs|
  {
    if |hs| > 0 {
      var before, last := hs[..|hs| - 1], hs[|hs| - 1];
      StatesAreApart(states, k, before, i);
      if last.state == i {
        assert EventsOf(hs, i)[..|EventsOf(before, i)|] == EventsOf(before, i);
      } else {
        assert EventsOf(hs, i) == EventsOf(before, i);
      }
    }
  }

  /** Admission is closed: nothing arrives any more. */
  ghost predicate Closed(hs: seq<Happening>) {
    forall j | 0 <= j < |hs| :: !hs[j].event.Enqueue?
  }

  lemma {:induction false} ClosedForEach(hs: seq<Happening>, i: nat)
    requires Closed(hs)
    ensures forall j | 0 <= j < |EventsOf(hs, i)| :: !EventsOf(hs, i)[j].Enqueue?
    decreases |hs|
  {
    if |hs| > 0 {
      ClosedForEach(hs[..|hs| - 1], i);
    }
  }

  /** Each state has a story of its own. */
  ghost predicate Told(k: Settings, states: seq<Chat>, stories: seq<Story>) {
    |stories| == |states| && forall i | 0 <= i < |states| :: states[i] == After(k, stories[i])
  }

  function AllFlushed(states: seq<Chat>, k: Settings): (flushed: seq<Chat>)
    ensures |flushed| == |states| && forall i | 0 <= i < |states| :: flushed[i] == Step(states[i], k, Flush)
    decreases |states|
  {
    if |states| == 0 then []
    else AllFlushed(states[..|states| - 1], k) + [Step(states[|states| - 1], k, Flush)]
  }

  predicate NoFlushRuns(states: seq<Chat>) {
    forall i | 0 <= i < |states| :: states[i].batch.None?
  }

  /** After admission has closed and everything pending has been flushed, as soon as no flush
      is running anywhere every message of every chat has departed. */
  lemma QueueDrains(k: Settings, states: seq<Chat>, stories: seq<Story>, hs: seq<Happening>)
    requires Told(k, states, stories) && Closed(hs)
    ensures var after := AfterHappenings(AllFlushed(states, k), k, hs);
      NoFlushRuns(after) ==> forall i | 0 <= i < |states| ::
        && multiset(DepartedIds(after[i].log.departures)) == multiset(Range(|states[i].log.arrivals|))
        && after[i].collectEntries == []
  {
    var after := AfterHappenings(AllFlushed(states, k), k, hs);
    if NoFlushRuns(after) {
      forall i | 0 <= i < |states|
        ensures multiset(DepartedIds(after[i].log.departures)) == multiset(Range(|states[i].log.arrivals|))
        ensures after[i].collectEntries == []
      {
        StatesAreApart(AllFlushed(states, k), k, hs, i);
        ClosedForEach(hs, i);
        ShutdownDrains(k, stories[i], EventsOf(hs, i));
      }
    }
  }

  // How long that takes

  function AllToCome(states: seq<Chat>): nat
    decreases |states|
  {
    if |states| == 0 then 0 else AllToCome(states[..|states| - 1]) + StillToCome(states[|states| - 1])
  }

  lemma {:induction false} OneStateChanged(states: seq<Chat>, i: nat, s: Chat)
    requires i < |states|
    ensures AllToCome(states[i := s]) + StillToCome(states[i]) == AllToCome(states) + StillToCome(s)
    decreases |states|
  {
    var n := |states| - 1;
    var changed := states[i := s];
    if i < n {
      OneStateChanged(states[..n], i, s);
      assert changed[..n] == states[..n][i := s];
    } else {
      assert changed[..n] == states[..n];
    }
  }

  /** How many of the happenings were answers that were waited for when they came. */
  function AllAnswered(states: seq<Chat>, k: Settings, hs: seq<Happening>): nat
    decreases |hs|
  {
    if |hs| == 0 then 0
    else
      var before, last := hs[..|hs| - 1], hs[|hs| - 1];
      var now := AfterHappenings(states, k, before);
      AllAnswered(states, k, before) + if last.state < |now| && Answers(now[last.state], last.event) then 1 else 0
  }

  /** Nothing is pending in any state, and each is one that a story leads to. */
  ghost predicate Flushed(k: Settings, states: seq<Chat>) {
    forall i | 0 <= i < |states| :: FlushedState(k, states[i])
  }

  ghost predicate FlushedState(k: Settings, s: Chat) {
    Inv(s, k) && PendingIds(s) == [] && |s.pendingTexts| == |s.pendingCleanups|
  }

  /** One answer less to come, if this is one. */
  ghost predicate Nearer(s: Chat, t: Chat, answer: bool) {
    StillToCome(t) + (if answer then 1 else 0) <= StillToCome(s)
  }

  lemma StateNearer(k: Settings, s: Chat, event: Event)
    requires FlushedState(k, s) && !event.Enqueue?
    ensures Nearer(s, Step(s, k, event), Answers(s, event))
  {
    OneEventNearer(s, k, event);
  }

  lemma OneStateNearer(states: seq<Chat>, i: nat, t: Chat, answer: bool)
    requires i < |states| && Nearer(states[i], t, answer)
    ensures AllToCome(states[i := t]) + (if answer then 1 else 0) <= AllToCome(states)
  {
    OneStateChanged(states, i, t);
  }

  lemma OneHappeningNearer(states: seq<Chat>, k: Settings, h: Happening)
    requires Flushed(k, states) && !h.event.Enqueue?
    ensures AllToCome(Happens(states, k, h))
         + (if h.state < |states| && Answers(states[h.state], h.event) then 1 else 0) <= AllToCome(states)
  {
    if h.state < |states| {
      StateNearer(k, states[h.state], h.event);
      OneStateNearer(states, h.state, Step(states[h.state], k, h.event), Answers(states[h.state], h.event));
    }
  }

  lemma StaysFlushed(states: seq<Chat>, k: Settings, h: Happening)
    requires Flushed(k, states) && !h.event.Enqueue?
    ensures Flushed(k, Happens(states, k, h))
  {
    var after := Happens(states, k, h);
    forall i | 0 <= i < |after|
      ensures FlushedState(k, after[i])
    {
      assert FlushedState(k, states[i]);
      if i == h.state {
        StateStaysFlushed(states[i], k, h.event);
      }
    }
  }

  lemma StateStaysFlushed(s: Chat, k: Settings, event: Event)
    requires FlushedState(k, s) && !event.Enqueue?
    ensures FlushedState(k, Step(s, k, event))
  {
    StepKeeps(s, k, event);
    NothingNewPends(s, k, event);
    SameLengths(Step(s, k, event), k);
  }

  lemma {:induction false} HappeningsBringNearer(states: seq<Chat>, k: Settings, hs: seq<Happening>)
    requires Flushed(k, states) && Closed(hs)
    ensures var after := AfterHappenings(states, k, hs);
      Flushed(k, after) && AllAnswered(states, k, hs) + AllToCome(after) <= AllToCome(states)
    decreases |hs|
  {
    if |hs| > 0 {
      var before, last := hs[..|hs| - 1], hs[|hs| - 1];
      HappeningsBringNearer(states, k, before);
      OneHappeningNearer(AfterHappenings(states, k, before), k, last);
      StaysFlushed(AfterHappenings(states, k, before), k, last);
    }
  }

  lemma {:induction false} FewToCome(states: seq<Chat>)
    ensures AllToCome(states) <= 8 * |states|
    ensures AllToCome(states) == 0 ==> NoFlushRuns(states)
    decreases |states|
  {
    if |states| > 0 {
      var n := |states| - 1;
      FewToCome(states[..n]);
      FewAnswers(states[n]);
      assert forall i | 0 <= i < n :: states[..n][i] == states[i];
    }
  }

  lemma FlushingFlushes(k: Settings, states: seq<Chat>, stories: seq<Story>)
    requires Told(k, states, stories)
    ensures Flushed(k, AllFlushed(states, k))
  {
    forall i | 0 <= i < |states|
      ensures FlushedState(k, AllFlushed(states, k)[i])
    {
      StoryKeeps(k, stories[i]);
      StepKeeps(states[i], k, Flush);
      FlushClears(states[i], k);
      SameLengths(Step(states[i], k, Flush), k);
    }
  }

  /** Eight answers for each state at most, in any order, and no flush is running any more. */
  lemma QueueEnds(k: Settings, states: seq<Chat>, stories: seq<Story>, hs: seq<Happening>)
    requires Told(k, states, stories) && Closed(hs)
    ensures var flushed := AllFlushed(states, k);
      && AllAnswered(flushed, k, hs) <= 8 * |states|
      && (AllAnswered(flushed, k, hs) == 8 * |states| ==> NoFlushRuns(AfterHappenings(flushed, k, hs)))
  {
    FlushingFlushes(k, states, stories);
    HappeningsBringNearer(AllFlushed(states, k), k, hs);
    FewToCome(AllFlushed(states, k));
    FewToCome(AfterHappenings(AllFlushed(states, k), k, hs));
  }
}
