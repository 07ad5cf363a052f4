/** The slot commands as they run: each writes the store step by step, and may be cut
    by a crash before any write. */
module BotSlots {
  import opened Common
  import opened SlotStore
  import opened SlotProofs

  datatype Outcome = Finished(answer: Answer) | Crashed

  /** Cut or finished: what a command with this plan leaves of the disk and of the
      writes that the crash allows. */
  ghost predicate Carries(d: Disk, left0: nat, p: Plan, e: Disk, left1: nat, r: Outcome) {
    && e == PutAll(d, Cut(p.writes, left0))
    && r == (if |p.writes| <= left0 then Finished(p.answer) else Crashed)
    && left1 == (if |p.writes| <= left0 then left0 - |p.writes| else 0)
  }

  /** One plan after another, the second only if the first was not cut. */
  lemma OneAfterAnother(d: Disk, n: nat, p: Plan, d1: Disk, n1: nat, r1: Outcome,
                        q: Plan, e: Disk, n2: nat, r: Outcome)
    requires Carries(d, n, p, d1, n1, r1)
    requires if r1.Crashed? then e == d1 && n2 == n1 && r == r1 else Carries(d1, n1, q, e, n2, r)
    ensures Carries(d, n, Plan(p.writes + q.writes, q.answer), e, n2, r)
  {
    CutConcat(p.writes, q.writes, n);
    if r1.Finished? {
      PutAllConcat(d, p.writes, Cut(q.writes, n1));
      assert Cut(p.writes, |p.writes|) == p.writes;
    }
  }

  /** What the scan has planned so far is the beginning of its whole plan. */
  lemma {:induction false} ScanGrows(d: Disk, listing: seq<string>, i: nat)
    requires i <= |listing|
    ensures ScanPlan(d, listing[..i]).writes <= ScanPlan(d, listing).writes
    ensures ScanPlan(d, listing[..i]).answer.Refused? ==> ScanPlan(d, listing) == ScanPlan(d, listing[..i])
    decreases |listing|
  {
    if i == |listing| {
      assert listing[..i] == listing;
    } else {
      var before := listing[..|listing| - 1];
      assert before[..i] == listing[..i];
      ScanGrows(d, before, i);
    }
  }

  predicate Deleted(d: Disk, name: string) {
    IsTemporary(name) || (IsSafeId(name) && name !in Referenced(d))
  }

  /** One more name, as seen in the whole plan. */
  lemma ScanStep(d: Disk, listing: seq<string>, i: nat)
    requires i < |listing| && ScanPlan(d, listing[..i]).answer.Pruned?
    ensures var before, after, whole := ScanPlan(d, listing[..i]), ScanPlan(d, listing[..i + 1]), ScanPlan(d, listing);
      var name := listing[i];
      && |before.writes| <= |whole.writes|
      && (!IsTemporary(name) && !IsSafeId(name) ==> whole == Plan(before.writes, Refused))
      && (Deleted(d, name) ==>
            && |whole.writes| >= |before.writes| + 2
            && whole.writes[|before.writes|..][..2] == DeleteTree(name)
            && |after.writes| == |before.writes| + 2
            && after.answer == PrunedMore(before.answer, if IsTemporary(name) then [] else [name], if IsTemporary(name) then [name] else []))
      && (IsSafeId(name) && !Deleted(d, name) ==> after == before)
  {
    ScanGrows(d, listing, i);
    ScanGrows(d, listing, i + 1);
    assert listing[..i + 1][..i] == listing[..i];
    var before, after := ScanPlan(d, listing[..i]).writes, ScanPlan(d, listing[..i + 1]).writes;
    if Deleted(d, listing[i]) {
      assert after == before + DeleteTree(listing[i]);
    }
  }

  class Slots {
    var releases: map<string, Health>
    var current: Option<string>
    var previous: Option<string>
    var active: Option<Active>
    var transition: Option<Transition>

    /** Durable writes left before the crash. */
    var left: nat

    // The plan being followed, where it began, and what of it is still to be written.
    ghost var plan: Plan
    ghost var begun: Disk
    ghost var allowed: nat
    ghost var todo: seq<Write>

    constructor (left: nat)
      ensures State() == EMPTY && this.left == left
    {
      releases, current, previous, active, transition := map[], None, None, None, None;
      this.left := left;
      plan, begun, allowed, todo := Plan([], Settled), EMPTY, left, [];
    }

    function State(): Disk
      reads this
    {
      Disk(releases, current, previous, active, transition)
    }

    ghost predicate Following()
      reads this
    {
      && |todo| <= |plan.writes|
      && var done := |plan.writes| - |todo|;
         && todo == plan.writes[done..]
         && State() == PutAll(begun, plan.writes[..done])
         && allowed == left + done
    }

    ghost predicate SamePlan(p: Plan, d: Disk, n: nat)
      reads this
    {
      plan == p && begun == d && allowed == n
    }

    ghost predicate Carried(d: Disk, left0: nat, p: Plan, r: Outcome)
      reads this
    {
      Carries(d, left0, p, State(), left, r)
    }

    ghost method Follow(p: Plan)
      modifies this`plan, this`begun, this`allowed, this`todo
      ensures Following() && SamePlan(p, old(State()), left) && todo == p.writes
    {
      plan, begun, allowed, todo := p, State(), left, p.writes;
    }

    /** The next durable write of the plan, or the crash. */
    method Durably(w: Write) returns (alive: bool)
      requires Following() && |todo| > 0 && todo[0] == w
      modifies this
      ensures Following() && SamePlan(old(plan), old(begun), old(allowed))
      ensures alive == (old(left) > 0)
      ensures alive ==> todo == old(todo)[1..] && State() == Put(old(State()), w)
      ensures !alive ==> Carried(begun, allowed, plan, Crashed)
    {
      if left == 0 {
        return false;
      }
      left := left - 1;
      match w {
        case SetCurrent(id) => current := id;
        case SetPrevious(id) => previous := id;
        case SetActive(state) => active := state;
        case SetTransition(pending) => transition := pending;
        case BeginCopy(name) => releases := releases[name := Damaged];
        case Damage(name) => releases := releases[name := Damaged];
        case Drop(name) => releases := releases - {name};
        case Rename(name, release) => releases := (releases - {name})[release := Intact];
      }
      ghost var done := |plan.writes| - |todo|;
      assert plan.writes[..done + 1][..done] == plan.writes[..done];
      todo := todo[1..];
      return true;
    }

    lemma AllDoneIsCarried()
      requires Following() && todo == []
      ensures Carried(begun, allowed, plan, Finished(plan.answer))
    {
      assert plan.writes[..|plan.writes|] == plan.writes;
    }

    // Recovery

    method SetPreviousSelector(id: Option<string>, ghost rest: seq<Write>) returns (alive: bool)
      requires Following() && todo == SelectorWrites(SetPrevious(id), previous.Some?) + rest
      modifies this
      ensures Following() && SamePlan(old(plan), old(begun), old(allowed))
      ensures alive ==> todo == rest && State() == Put(old(State()), SetPrevious(id))
      ensures !alive ==> Carried(begun, allowed, plan, Crashed)
    {
      if id.None? && previous.None? {
        return true;
      }
      alive := Durably(SetPrevious(id));
    }

    method SetCurrentSelector(id: Option<string>, ghost rest: seq<Write>) returns (alive: bool)
      requires Following() && todo == SelectorWrites(SetCurrent(id), current.Some?) + rest
      modifies this
      ensures Following() && SamePlan(old(plan), old(begun), old(allowed))
      ensures alive ==> todo == rest && State() == Put(old(State()), SetCurrent(id))
      ensures !alive ==> Carried(begun, allowed, plan, Crashed)
    {
      if id.None? && current.None? {
        return true;
      }
      alive := Durably(SetCurrent(id));
    }

    /** The active file follows the selectors, and goes when there is no selection. */
    method SettleActive(newCurrent: Option<string>, newPrevious: Option<string>, ghost rest: seq<Write>)
      returns (alive: bool)
      requires Following()
      requires todo == SettleActiveWrites(State(), newCurrent, newPrevious) + rest
      modifies this
      ensures Following() && SamePlan(old(plan), old(begun), old(allowed))
      ensures alive ==> todo == rest
      ensures !alive ==> Carried(begun, allowed, plan, Crashed)
    {
      if newCurrent.Some? {
        alive := Durably(SetActive(Some(Active(newCurrent, newPrevious))));
        return;
      }
      if active.None? {
        return true;
      }
      alive := Durably(SetActive(None));
    }

    method Settle(newCurrent: Option<string>, newPrevious: Option<string>, answer: Answer) returns (r: Outcome)
      requires Following() && plan.answer == answer && todo == SettleWrites(State(), newCurrent, newPrevious)
      modifies this
      ensures Carried(old(begun), old(allowed), old(plan), r)
    {
      ghost var b := SelectorWrites(SetCurrent(newCurrent), current.Some?);
      ghost var c := SettleActiveWrites(State(), newCurrent, newPrevious);
      ghost var f := [SetTransition(None)];
      var alive := SetPreviousSelector(newPrevious, b + (c + f));
      if !alive {
        return Crashed;
      }
      alive := SetCurrentSelector(newCurrent, c + f);
      if !alive {
        return Crashed;
      }
      alive := SettleActive(newCurrent, newPrevious, f);
      if !alive {
        return Crashed;
      }
      alive := Durably(SetTransition(None));
      if !alive {
        return Crashed;
      }
      AllDoneIsCarried();
      r := Finished(answer);
    }

    /** Finishes or undoes a pending transition. */
    method Reconcile() returns (r: Outcome)
      modifies this
      ensures Carried(old(State()), old(left), Plan(ReconcilePlan(old(State())), Settled), r)
    {
      Follow(Plan(ReconcilePlan(State()), Settled));
      if transition.None? {
        AllDoneIsCarried();
        return Finished(Settled);
      }
      var t := transition.value;
      var committed := active.Some? && active.value.release == t.toCurrent && active.value.previous == t.toPrevious;
      var newCurrent := if committed then t.toCurrent else t.fromCurrent;
      var newPrevious := if committed then t.toPrevious else t.fromPrevious;
      r := Settle(newCurrent, newPrevious, Settled);
    }

    // Commands

    /** The switch itself: transition, selectors, active state, end of the transition. */
    method Switch(target: string, answer: Answer) returns (r: Outcome)
      requires Following() && plan.answer == answer && todo == SwitchWrites(State(), target)
      modifies this
      ensures Carried(old(begun), old(allowed), old(plan), r)
    {
      var from := current;
      var alive := Durably(SetTransition(Some(Transition(from, previous, Some(target), from))));
      if !alive {
        return Crashed;
      }
      if from.Some? {
        alive := Durably(SetPrevious(from));
        if !alive {
          return Crashed;
        }
      }
      alive := Durably(SetCurrent(Some(target)));
      if !alive {
        return Crashed;
      }
      r := FinishTransition(Some(target), from, answer);
    }

    /** Replacing the active state commits the switch. */
    method FinishTransition(newCurrent: Option<string>, newPrevious: Option<string>, answer: Answer)
      returns (r: Outcome)
      requires Following() && plan.answer == answer
      requires todo == [SetActive(Some(Active(newCurrent, newPrevious))), SetTransition(None)]
      modifies this
      ensures Carried(old(begun), old(allowed), old(plan), r)
    {
      var alive := Durably(SetActive(Some(Active(newCurrent, newPrevious))));
      if !alive {
        return Crashed;
      }
      alive := Durably(SetTransition(None));
      if !alive {
        return Crashed;
      }
      AllDoneIsCarried();
      r := Finished(answer);
    }

    method SwitchTo(id: string) returns (r: Outcome)
      modifies this
      ensures Carried(old(State()), old(left), SettledActivatePlan(old(State()), id), r)
    {
      Follow(SettledActivatePlan(State(), id));
      if !IntactAt(State(), id) || Dangles(State(), current) || Dangles(State(), previous) {
        AllDoneIsCarried();
        return Finished(Refused);
      }
      if current == Some(id) {
        if active.None? || active.value.release != current || active.value.previous != previous {
          var alive := Durably(SetActive(Some(Active(current, previous))));
          if !alive {
            return Crashed;
          }
        }
        AllDoneIsCarried();
        return Finished(Selected(current, previous, true));
      }
      if current.None? && previous.Some? {
        AllDoneIsCarried();
        return Finished(Refused);
      }
      if current.Some? && !IntactAt(State(), current.value) {
        AllDoneIsCarried();
        return Finished(Refused);
      }
      r := Switch(id, Selected(Some(id), current, false));
    }

    method Activate(id: string) returns (r: Outcome)
      modifies this
      ensures Carried(old(State()), old(left), ActivatePlan(old(State()), id), r)
    {
      if !IsSafeId(id) {
        return Finished(Usage);
      }
      r := Reconcile();
      ghost var d1, n1, r1 := State(), left, r;
      if r.Finished? {
        r := SwitchTo(id);
      }
      OneAfterAnother(old(State()), old(left), Plan(ReconcilePlan(old(State())), Settled), d1, n1, r1,
                      SettledActivatePlan(Reconciled(old(State())), id), State(), left, r);
    }

    method SwitchBack() returns (r: Outcome)
      modifies this
      ensures Carried(old(State()), old(left), SettledRollbackPlan(old(State())), r)
    {
      Follow(SettledRollbackPlan(State()));
      if Dangles(State(), current) || Dangles(State(), previous) || current.None? || previous.None? {
        AllDoneIsCarried();
        return Finished(Refused);
      }
      if !IntactAt(State(), previous.value) {
        AllDoneIsCarried();
        return Finished(Refused);
      }
      r := Switch(previous.value, Selected(previous, current, false));
    }

    method Rollback() returns (r: Outcome)
      modifies this
      ensures Carried(old(State()), old(left), RollbackPlan(old(State())), r)
    {
      r := Reconcile();
      ghost var d1, n1, r1 := State(), left, r;
      if r.Finished? {
        r := SwitchBack();
      }
      OneAfterAnother(old(State()), old(left), Plan(ReconcilePlan(old(State())), Settled), d1, n1, r1,
                      SettledRollbackPlan(Reconciled(old(State()))), State(), left, r);
    }

    method RemoveTree(name: string) returns (alive: bool)
      requires Following() && |todo| >= 2 && todo[..2] == DeleteTree(name)
      modifies this
      ensures Following() && SamePlan(old(plan), old(begun), old(allowed))
      ensures alive ==> todo == old(todo)[2..]
      ensures alive ==> Referenced(State()) == old(Referenced(State()))
      ensures !alive ==> Carried(begun, allowed, plan, Crashed)
    {
      assert todo[..2][0] == todo[0] && todo[..2][1] == todo[1];
      alive := Durably(Damage(name));
      if alive {
        alive := Durably(Drop(name));
      }
    }

    /** Deletes what nothing refers to, in the order of the listing. */
    method Scan(listing: seq<string>) returns (r: Outcome)
      modifies this
      ensures Carried(old(State()), old(left), SettledPrunePlan(old(State()), listing), r)
    {
      ghost var d := State();
      Follow(SettledPrunePlan(State(), listing));
      if Dangles(State(), current) || Dangles(State(), previous) {
        AllDoneIsCarried();
        return Finished(Refused);
      }
      var referenced := Referenced(State());
      var removed: seq<string>, removedTemporary: seq<string> := [], [];
      for i := 0 to |listing|
        invariant Following() && SamePlan(ScanPlan(d, listing), d, old(left))
        invariant |plan.writes| - |todo| == |ScanPlan(d, listing[..i]).writes|
        invariant ScanPlan(d, listing[..i]).answer == Pruned(removed, removedTemporary)
      {
        var name := listing[i];
        ScanStep(d, listing, i);
        var temporary := IsTemporary(name);
        if !temporary && !IsSafeId(name) {
          AllDoneIsCarried();
          return Finished(Refused);
        }
        if temporary || name !in referenced {
          var alive := RemoveTree(name);
          if !alive {
            return Crashed;
          }
          if temporary {
            removedTemporary := removedTemporary + [name];
          } else {
            removed := removed + [name];
          }
        }
      }
      assert listing[..|listing|] == listing;
      AllDoneIsCarried();
      r := Finished(Pruned(removed, removedTemporary));
    }

    method Prune(listing: seq<string>) returns (r: Outcome)
      modifies this
      ensures Carried(old(State()), old(left), PrunePlan(old(State()), listing), r)
    {
      r := Reconcile();
      ghost var d1, n1, r1 := State(), left, r;
      if r.Finished? {
        r := Scan(listing);
      }
      OneAfterAnother(old(State()), old(left), Plan(ReconcilePlan(old(State())), Settled), d1, n1, r1,
                      SettledPrunePlan(Reconciled(old(State())), listing), State(), left, r);
    }

    /** Copies beside the releases, and publishes by one rename. */
    method Stage(id: string, pid: nat, source: Source) returns (r: Outcome)
      modifies this
      ensures Carried(old(State()), old(left), StagePlan(old(State()), id, pid, source), r)
    {
      Follow(StagePlan(State(), id, pid, source));
      if !IsSafeId(id) {
        AllDoneIsCarried();
        return Finished(Usage);
      }
      if id in releases {
        AllDoneIsCarried();
        return Finished(if releases[id].Intact? then Staged(id, true) else Refused);
      }
      var temporary := TemporaryName(id, pid);
      var published, alive := false, true;
      var there := temporary in releases;
      if source != Unreadable && !there {
        there := true;
        alive := Durably(BeginCopy(temporary));
        if alive && source == Good {
          alive := Durably(Rename(temporary, id));
          published := true;
        }
      }
      if alive && !published && there {
        alive := RemoveTree(temporary);
      }
      if !alive {
        return Crashed;
      }
      AllDoneIsCarried();
      r := Finished(if published then Staged(id, false) else Refused);
    }
  }
}
