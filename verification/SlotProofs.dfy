/** What the slot commands keep: crash atomicity, and references that never dangle. */
module SlotProofs {
  import opened Common
  import opened Text
  import opened SlotStore

  // Invariant

  ghost predicate Referable(d: Disk, id: Option<string>) {
    id.Some? ==> IntactAt(d, id.value) && IsSafeId(id.value) && !IsTemporary(id.value)
  }

  /** The active state says what the selectors say. */
  predicate Consistent(active: Option<Active>, current: Option<string>, previous: Option<string>) {
    if current.None? then previous.None? && active.None?
    else active == Some(Active(current, previous))
  }

  predicate Distinct(current: Option<string>, previous: Option<string>) {
    current.Some? ==> current != previous
  }

  ghost predicate PendingInv(d: Disk, t: Transition) {
    && Referable(d, t.fromCurrent) && Referable(d, t.fromPrevious)
    && Referable(d, t.toCurrent) && Referable(d, t.toPrevious)
    && t.toCurrent.Some? && t.toPrevious == t.fromCurrent
    && Distinct(t.fromCurrent, t.fromPrevious) && Distinct(t.toCurrent, t.toPrevious)
    && (d.current == t.fromCurrent || d.current == t.toCurrent)
    && (d.previous == t.fromPrevious || d.previous == t.toPrevious)
    && (t.fromCurrent.None? ==> t.fromPrevious.None?)
    && (if Committed(d, t) then d.current == t.toCurrent && d.previous == t.toPrevious
        else Consistent(d.active, t.fromCurrent, t.fromPrevious))
  }

  ghost predicate Inv(d: Disk) {
    && Referable(d, d.current) && Referable(d, d.previous)
    && match d.transition
       case None => Consistent(d.active, d.current, d.previous) && Distinct(d.current, d.previous)
       case Some(t) => PendingInv(d, t)
  }

  const EMPTY := Disk(map[], None, None, None, None)

  /** Recovery would end in this pair. */
  ghost predicate SettlesAt(d: Disk, current: Option<string>, previous: Option<string>) {
    SettledCurrent(d) == current && SettledPrevious(d) == previous
  }

  // Sequences of writes

  lemma {:induction false} PutAllConcat(d: Disk, a: seq<Write>, b: seq<Write>)
    ensures PutAll(d, a + b) == PutAll(PutAll(d, a), b)
    decreases |b|
  {
    if |b| == 0 {
      assert a + b == a;
    } else {
      var n := |b| - 1;
      assert (a + b)[..|a + b| - 1] == a + b[..n];
      PutAllConcat(d, a, b[..n]);
    }
  }

  lemma CutConcat(a: seq<Write>, b: seq<Write>, cut: nat)
    ensures Cut(a + b, cut) == if cut <= |a| then Cut(a, cut) else a + Cut(b, cut - |a|)
  {
  }

  lemma TwoWrites(d: Disk, a: Write, b: Write)
    ensures PutAll(d, [a, b]) == Put(Put(d, a), b)
  {
    assert [a, b][..1] == [a] && [a][..0] == [];
    assert PutAll(d, [a]) == Put(d, a);
  }

  // Recovery

  ghost predicate RecoveryWrite(d: Disk, w: Write) {
    || w == SetPrevious(SettledPrevious(d))
    || w == SetCurrent(SettledCurrent(d))
    || w == SetActive(if SettledCurrent(d).None? then None else Some(Active(SettledCurrent(d), SettledPrevious(d))))
  }

  lemma RecoveryWriteKeeps(d: Disk, w: Write)
    requires Inv(d) && d.transition.Some? && RecoveryWrite(d, w)
    ensures var e := Put(d, w);
      && Inv(e) && e.transition == d.transition && e.releases == d.releases
      && SettlesAt(e, SettledCurrent(d), SettledPrevious(d))
      && (SettledCurrent(d).Some? ==> e.current.Some?)
  {
  }

  lemma {:induction false} RecoveryPrefixKeeps(d: Disk, ws: seq<Write>)
    requires Inv(d) && d.transition.Some?
    requires forall i | 0 <= i < |ws| :: RecoveryWrite(d, ws[i])
    ensures var e := PutAll(d, ws);
      && Inv(e) && e.transition == d.transition && e.releases == d.releases
      && SettlesAt(e, SettledCurrent(d), SettledPrevious(d))
      && (SettledCurrent(d).Some? ==> e.current.Some?)
    decreases |ws|
  {
    if |ws| > 0 {
      var n := |ws| - 1;
      RecoveryPrefixKeeps(d, ws[..n]);
      var e := PutAll(d, ws[..n]);
      assert RecoveryWrite(d, ws[n]);
      RecoveryWriteKeeps(e, ws[n]);
    }
  }

  /** Cut anywhere, recovery comes to the same end when it is run again. */
  lemma RecoveryCutKeeps(d: Disk, cut: nat)
    requires Inv(d)
    ensures var e := PutAll(d, Cut(ReconcilePlan(d), cut));
      && Inv(e) && e.releases == d.releases
      && SettlesAt(e, SettledCurrent(d), SettledPrevious(d))
      && (SettledCurrent(d).Some? ==> e.current.Some?)
  {
    if d.transition.Some? {
      var plan := ReconcilePlan(d);
      var n := |plan| - 1;
      assert forall i | 0 <= i < n :: RecoveryWrite(d, plan[i]);
      if cut <= n {
        RecoveryPrefixKeeps(d, plan[..cut]);
      } else {
        RecoveryCompletes(d);
      }
    }
  }

  /** What recovery leaves of any store, whatever has become of it. */
  function Recovered(d: Disk): Disk {
    if d.transition.None? then d
    else
      var current, previous := SettledCurrent(d), SettledPrevious(d);
      d.(current := current, previous := previous, transition := None,
         active := if current.None? then None else Some(Active(current, previous)))
  }

  lemma RecoveryLeaves(d: Disk)
    ensures Reconciled(d) == Recovered(d)
  {
    if d.transition.Some? {
      var previous, current := SettledPrevious(d), SettledCurrent(d);
      var a := SelectorWrites(SetPrevious(previous), d.previous.Some?);
      var b := SelectorWrites(SetCurrent(current), d.current.Some?);
      var c := SettleActiveWrites(d, current, previous);
      FourParts(d, a, b, c, [SetTransition(None)]);
      SkippedWhenVoid(d, a, SetPrevious(previous));
      var d1 := d.(previous := previous);
      SkippedWhenVoid(d1, b, SetCurrent(current));
      var d2 := d1.(current := current);
      var state := if current.None? then None else Some(Active(current, previous));
      SkippedWhenVoid(d2, c, SetActive(state));
      var d3 := d2.(active := state);
      SkippedWhenVoid(d3, [SetTransition(None)], SetTransition(None));
    }
  }

  /** Uncut, it leaves the settled pair, an active state that agrees, and no transition. */
  lemma RecoveryCompletes(d: Disk)
    requires Inv(d)
    ensures var e := Reconciled(d);
      && Inv(e) && e.releases == d.releases && e.transition.None?
      && e.current == SettledCurrent(d) && e.previous == SettledPrevious(d)
  {
    RecoveryLeaves(d);
  }

  lemma FourParts(d: Disk, a: seq<Write>, b: seq<Write>, c: seq<Write>, f: seq<Write>)
    ensures PutAll(d, a + (b + (c + f))) == PutAll(PutAll(PutAll(PutAll(d, a), b), c), f)
  {
    PutAllConcat(d, a, b + (c + f));
    PutAllConcat(PutAll(d, a), b, c + f);
    PutAllConcat(PutAll(PutAll(d, a), b), c, f);
  }

  /** A write that would change nothing may be left out. */
  lemma SkippedWhenVoid(d: Disk, ws: seq<Write>, w: Write)
    requires ws == [w] || (ws == [] && Put(d, w) == d)
    ensures PutAll(d, ws) == Put(d, w)
  {
    if ws == [w] {
      assert ws[..0] == [];
    }
  }

  function RecoverRepeatedly(d: Disk, cuts: seq<nat>): Disk
    decreases |cuts|
  {
    if |cuts| == 0 then d
    else
      var e := RecoverRepeatedly(d, cuts[..|cuts| - 1]);
      PutAll(e, Cut(ReconcilePlan(e), cuts[|cuts| - 1]))
  }

  lemma {:induction false} RepeatedRecoveryKeeps(d: Disk, cuts: seq<nat>)
    requires Inv(d)
    ensures var e := RecoverRepeatedly(d, cuts);
      Inv(e) && SettlesAt(e, SettledCurrent(d), SettledPrevious(d))
    decreases |cuts|
  {
    if |cuts| > 0 {
      RepeatedRecoveryKeeps(d, cuts[..|cuts| - 1]);
      RecoveryCutKeeps(RecoverRepeatedly(d, cuts[..|cuts| - 1]), cuts[|cuts| - 1]);
    }
  }

  // Switching

  /** Before the active state is replaced a switch settles at the old pair, from
      then on at the new one. */
  lemma SwitchCutKeeps(d: Disk, target: string, cut: nat)
    requires Inv(d) && d.transition.None? && Referable(d, Some(target))
    requires d.current != Some(target) && (d.current.None? ==> d.previous.None?)
    ensures var ws := SwitchWrites(d, target);
      var e := PutAll(d, Cut(ws, cut));
      && Inv(e) && e.releases == d.releases
      && (if cut >= |ws| - 1 then SettlesAt(e, Some(target), d.current) else SettlesAt(e, d.current, d.previous))
      && (d.current.Some? ==> e.current.Some?)
      && (cut >= |ws| ==> e.transition.None?)
  {
    var ws := SwitchWrites(d, target);
    var t := Transition(d.current, d.previous, Some(target), d.current);
    var e0 := d.(transition := Some(t));
    var e1 := if d.current.Some? then e0.(previous := d.current) else e0;
    var e2 := e1.(current := Some(target));
    var e3 := e2.(active := Some(Active(Some(target), d.current)));
    assert Inv(e0) && Inv(e1) && Inv(e2) && Inv(e3);
    var n := |ws|;
    assert ws[..0] == [];
    assert ws[..1][..0] == [] && PutAll(d, ws[..1]) == e0;
    assert ws[..2][..1] == ws[..1];
    assert ws[..3][..2] == ws[..2];
    assert ws[..4][..3] == ws[..3];
    if d.current.Some? {
      assert PutAll(d, ws[..2]) == e1;
      assert PutAll(d, ws[..3]) == e2;
      assert PutAll(d, ws[..4]) == e3;
      assert ws[..5][..4] == ws[..4] && ws[..5] == ws;
    } else {
      assert PutAll(d, ws[..2]) == e2;
      assert PutAll(d, ws[..3]) == e3;
      assert ws[..4] == ws;
    }
  }

  // Crash atomicity

  predicate Switches(a: Answer) {
    a.Selected? && !a.idempotent
  }

  /** The two commands that change the selection, by their plan once settled. */
  function SettledSwitchPlan(d: Disk, c: Command): Plan
    requires c.Activate? || c.Rollback?
  {
    if c.Activate? then (if IsSafeId(c.id) then SettledActivatePlan(d, c.id) else Plan([], Usage))
    else SettledRollbackPlan(d)
  }

  /** The release a switching command selects. */
  function Target(d: Disk, c: Command): Option<string>
    requires c.Activate? || c.Rollback?
  {
    if c.Activate? then Some(c.id) else d.previous
  }

  /** The caller's side of the bargain: no activated ID looks like abandoned staging. */
  predicate Sound(c: Command) {
    c.Activate? ==> !IsTemporary(c.id)
  }

  lemma SettledSwitchCut(d: Disk, c: Command, cut: nat)
    requires Inv(d) && d.transition.None? && (c.Activate? || c.Rollback?) && Sound(c)
    ensures var p := SettledSwitchPlan(d, c);
      var e := PutAll(d, Cut(p.writes, cut));
      && Inv(e) && e.releases == d.releases
      && (if Switches(p.answer) && cut >= |p.writes| - 1 then SettlesAt(e, Target(d, c), d.current)
          else SettlesAt(e, d.current, d.previous))
      && (d.current.Some? ==> e.current.Some?)
      && (cut >= |p.writes| ==> e.transition.None?)
      && (p.answer.Selected? && cut >= |p.writes| ==> e.current == p.answer.current && e.previous == p.answer.previous)
  {
    var p := SettledSwitchPlan(d, c);
    if Switches(p.answer) {
      SwitchCutKeeps(d, Target(d, c).value, cut);
    }
  }

  /** A switching command cut anywhere settles at the old pair, or, exactly from the
      replacement of the active state on, at the new one. */
  lemma SwitchCommandCut(d: Disk, c: Command, cut: nat)
    requires Inv(d) && (c.Activate? || c.Rollback?) && Sound(c)
    ensures var p := PlanOf(d, c);
      var e := Ran(d, c, cut);
      && Inv(e) && e.releases == d.releases
      && (if Switches(p.answer) && cut >= |p.writes| - 1
          then SettlesAt(e, Target(Reconciled(d), c), SettledCurrent(d))
          else SettlesAt(e, SettledCurrent(d), SettledPrevious(d)))
      && (SettledCurrent(d).Some? ==> e.current.Some?)
      && (p.answer.Selected? && cut >= |p.writes| ==>
            e.transition.None? && e.current == p.answer.current && e.previous == p.answer.previous)
  {
    if !(c.Activate? && !IsSafeId(c.id)) {
      if cut <= |ReconcilePlan(d)| {
        CutInRecovery(d, c, cut);
      } else {
        CutAfterRecovery(d, c, cut);
      }
    }
  }

  lemma CutInRecovery(d: Disk, c: Command, cut: nat)
    requires Inv(d) && (c.Activate? || c.Rollback?) && !(c.Activate? && !IsSafeId(c.id)) && cut <= |ReconcilePlan(d)|
    ensures var p := PlanOf(d, c);
      var e := Ran(d, c, cut);
      && Inv(e) && e.releases == d.releases && SettlesAt(e, SettledCurrent(d), SettledPrevious(d))
      && !(Switches(p.answer) && cut >= |p.writes| - 1)
      && (SettledCurrent(d).Some? ==> e.current.Some?)
      && (p.answer.Selected? && cut >= |p.writes| ==>
            e.transition.None? && e.current == p.answer.current && e.previous == p.answer.previous)
  {
    RecoveryCompletes(d);
    RecoveryCutKeeps(d, cut);
    var first, second := ReconcilePlan(d), SettledSwitchPlan(Reconciled(d), c).writes;
    CutConcat(first, second, cut);
    if Switches(PlanOf(d, c).answer) {
      assert |second| >= 3;
    }
  }

  lemma CutAfterRecovery(d: Disk, c: Command, cut: nat)
    requires Inv(d) && (c.Activate? || c.Rollback?) && !(c.Activate? && !IsSafeId(c.id)) && Sound(c)
    requires cut > |ReconcilePlan(d)|
    ensures var p := PlanOf(d, c);
      var e := Ran(d, c, cut);
      && Inv(e) && e.releases == d.releases
      && (if Switches(p.answer) && cut >= |p.writes| - 1
          then SettlesAt(e, Target(Reconciled(d), c), SettledCurrent(d))
          else SettlesAt(e, SettledCurrent(d), SettledPrevious(d)))
      && (SettledCurrent(d).Some? ==> e.current.Some?)
      && (p.answer.Selected? && cut >= |p.writes| ==>
            e.transition.None? && e.current == p.answer.current && e.previous == p.answer.previous)
  {
    RecoveryCompletes(d);
    var r := Reconciled(d);
    var first, second := ReconcilePlan(d), SettledSwitchPlan(r, c).writes;
    CutConcat(first, second, cut);
    PutAllConcat(d, first, Cut(second, cut - |first|));
    SettledSwitchCut(r, c, cut - |first|);
  }

  /** Crash atomicity: after a switch cut anywhere, and any number of recoveries cut
      anywhere, a finished recovery leaves exactly the old pair or exactly the new
      pair, with an active state that agrees and no transition. */
  lemma CrashAtomicity(d: Disk, c: Command, cut: nat, recoveries: seq<nat>)
    requires Inv(d) && (c.Activate? || c.Rollback?) && Sound(c)
    ensures var p := PlanOf(d, c);
      var end := Reconciled(RecoverRepeatedly(Ran(d, c, cut), recoveries));
      && end.transition.None? && Consistent(end.active, end.current, end.previous)
      && (if Switches(p.answer) && cut >= |p.writes| - 1
          then end.current == Target(Reconciled(d), c) && end.previous == SettledCurrent(d)
          else end.current == SettledCurrent(d) && end.previous == SettledPrevious(d))
  {
    SwitchCommandCut(d, c, cut);
    var e := Ran(d, c, cut);
    RepeatedRecoveryKeeps(e, recoveries);
    RecoveryCompletes(RecoverRepeatedly(e, recoveries));
  }

  // When commands select

  lemma SettledHasNoPreviousAlone(d: Disk)
    requires Inv(d)
    ensures SettledCurrent(d).None? ==> SettledPrevious(d).None?
    ensures SettledCurrent(d).Some? ==> SettledCurrent(d) != SettledPrevious(d) && IntactAt(d, SettledCurrent(d).value)
    ensures SettledPrevious(d).Some? ==> IntactAt(d, SettledPrevious(d).value)
    ensures Ids(SettledCurrent(d), SettledPrevious(d)) == Referenced(Reconciled(d))
  {
    RecoveryCompletes(d);
  }

  /** An activation is refused only for an ID that is not safe or not intact, whatever was
      selected before; it changes nothing exactly if it selects what is selected. */
  lemma ActivateAnswers(d: Disk, id: string)
    requires Inv(d)
    ensures PlanOf(d, Activate(id)).answer
      == if !IsSafeId(id) then Usage
         else if !IntactAt(d, id) then Refused
         else if SettledCurrent(d) == Some(id) then Selected(Some(id), SettledPrevious(d), true)
         else Selected(Some(id), SettledCurrent(d), false)
  {
    RecoveryCompletes(d);
    SettledHasNoPreviousAlone(d);
  }

  /** A rollback is refused only if there is nothing to go back to. */
  lemma RollbackAnswers(d: Disk)
    requires Inv(d)
    ensures PlanOf(d, Rollback).answer
      == if SettledCurrent(d).Some? && SettledPrevious(d).Some? then Selected(SettledPrevious(d), SettledCurrent(d), false)
         else Refused
  {
    RecoveryCompletes(d);
    SettledHasNoPreviousAlone(d);
  }

  /** So a finished activation selects its release, and remembers the one before. */
  lemma ActivationSelects(d: Disk, id: string)
    requires Inv(d) && IsSafeId(id) && IntactAt(d, id) && !IsTemporary(id)
    ensures var e := Ran(d, Activate(id), |PlanOf(d, Activate(id)).writes|);
      && Inv(e) && e.transition.None? && e.current == Some(id)
      && e.previous == if SettledCurrent(d) == Some(id) then SettledPrevious(d) else SettledCurrent(d)
  {
    ActivateAnswers(d, id);
    SwitchCommandCut(d, Activate(id), |PlanOf(d, Activate(id)).writes|);
  }

  // On any store, whatever has been deleted or damaged by hand

  lemma SwitchLeaves(d: Disk, target: string)
    ensures PutAll(d, SwitchWrites(d, target))
      == d.(transition := None, previous := if d.current.Some? then d.current else d.previous, current := Some(target),
            active := Some(Active(Some(target), d.current)))
  {
    var t := Transition(d.current, d.previous, Some(target), d.current);
    var begin, keep := [SetTransition(Some(t))], if d.current.Some? then [SetPrevious(d.current)] else [];
    var state := SetActive(Some(Active(Some(target), d.current)));
    var commit, end := [SetCurrent(Some(target))], [state, SetTransition(None)];
    assert [SetCurrent(Some(target)), state, SetTransition(None)] == commit + end;
    assert SwitchWrites(d, target) == begin + (keep + (commit + end));
    FourParts(d, begin, keep, commit, end);
    SkippedWhenVoid(d, begin, begin[0]);
    var d1 := d.(transition := Some(t));
    SkippedWhenVoid(d1, keep, if d.current.Some? then SetPrevious(d.current) else SetPrevious(d.previous));
    var d2 := d1.(previous := if d.current.Some? then d.current else d.previous);
    SkippedWhenVoid(d2, commit, commit[0]);
    var d3 := d2.(current := Some(target));
    TwoWrites(d3, state, SetTransition(None));
  }

  lemma SettledSelects(r: Disk, c: Command)
    requires (c.Activate? || c.Rollback?) && SettledSwitchPlan(r, c).answer.Selected? && r.transition.None?
    ensures var a, e := SettledSwitchPlan(r, c).answer, PutAll(r, SettledSwitchPlan(r, c).writes);
      && a.current.Some? && IntactAt(r, a.current.value)
      && a.current == (if c.Activate? then Some(c.id) else r.previous)
      && a.previous == (if a.idempotent then r.previous else r.current)
      && (a.idempotent <==> c.Activate? && r.current == Some(c.id))
      && e == Disk(r.releases, a.current, a.previous, Some(Active(a.current, a.previous)), None)
  {
    var p := SettledSwitchPlan(r, c);
    if !p.answer.idempotent {
      SwitchLeaves(r, p.answer.current.value);
    } else if |p.writes| > 0 {
      assert p.writes[..0] == [];
    }
  }

  /** A finished activation or rollback has selected an intact release, kept the selected one as
      the previous, and left selectors and active state that say so and no transition. */
  lemma SelectsWhatItSays(d: Disk, c: Command)
    requires (c.Activate? || c.Rollback?) && PlanOf(d, c).answer.Selected?
    ensures var a, e := PlanOf(d, c).answer, Ran(d, c, |PlanOf(d, c).writes|);
      && a.current.Some? && IntactAt(d, a.current.value)
      && (c.Activate? ==> a.current == Some(c.id)) && (c.Rollback? ==> a.current == SettledPrevious(d))
      && a.previous == (if a.idempotent then SettledPrevious(d) else SettledCurrent(d))
      && (a.idempotent <==> c.Activate? && SettledCurrent(d) == Some(c.id))
      && e == Disk(d.releases, a.current, a.previous, Some(Active(a.current, a.previous)), None)
  {
    RecoveryLeaves(d);
    var r := Reconciled(d);
    PutAllConcat(d, ReconcilePlan(d), SettledSwitchPlan(r, c).writes);
    SettledSelects(r, c);
  }

  /** Rolling back twice comes back to the same pair, if there is one to roll back to. */
  lemma RollbackTwice(d: Disk)
    requires Inv(d) && SettledCurrent(d).Some? && SettledPrevious(d).Some?
    ensures var once := Ran(d, Rollback, |RollbackPlan(d).writes|);
      var twice := Ran(once, Rollback, |RollbackPlan(once).writes|);
      && RollbackPlan(d).answer.Selected? && RollbackPlan(once).answer.Selected?
      && once.current == SettledPrevious(d) && once.previous == SettledCurrent(d)
      && twice.current == SettledCurrent(d) && twice.previous == SettledPrevious(d)
  {
    RollbackAnswers(d);
    SwitchCommandCut(d, Rollback, |RollbackPlan(d).writes|);
    var once := Ran(d, Rollback, |RollbackPlan(d).writes|);
    RollbackAnswers(once);
    SwitchCommandCut(once, Rollback, |RollbackPlan(once).writes|);
  }

  /** Staging accepts exactly a safe ID that is intact already, or one that is new with a good
      source and no leftover of the same name and process. */
  lemma StageAnswers(d: Disk, id: string, pid: nat, source: Source)
    ensures var a := PlanOf(d, Stage(id, pid, source)).answer;
      && (a == Staged(id, true) <==> IsSafeId(id) && IntactAt(d, id))
      && (a == Staged(id, false) <==> IsSafeId(id) && id !in d.releases && source.Good? && TemporaryName(id, pid) !in d.releases)
      && (a == Usage <==> !IsSafeId(id))
      && (a == Refused || a == Usage || a == Staged(id, true) || a == Staged(id, false))
  {
  }

  // When prune answers

  /** The names that no selection refers to, but for those that look temporary. */
  function Unselected(names: seq<string>, selected: set<string>): seq<string>
    decreases |names|
  {
    if |names| == 0 then []
    else
      var before, name := Unselected(names[..|names| - 1], selected), names[|names| - 1];
      if !IsTemporary(name) && name !in selected then before + [name] else before
  }

  function Temporaries(names: seq<string>): seq<string>
    decreases |names|
  {
    if |names| == 0 then []
    else
      var before, name := Temporaries(names[..|names| - 1]), names[|names| - 1];
      if IsTemporary(name) then before + [name] else before
  }

  ghost predicate AllNamed(listing: seq<string>) {
    forall i | 0 <= i < |listing| :: IsTemporary(listing[i]) || IsSafeId(listing[i])
  }

  lemma AllNamedButLast(listing: seq<string>)
    requires |listing| > 0
    ensures var n := |listing| - 1;
      AllNamed(listing) <==> AllNamed(listing[..n]) && (IsTemporary(listing[n]) || IsSafeId(listing[n]))
  {
    assert forall i | 0 <= i < |listing| - 1 :: listing[..|listing| - 1][i] == listing[i];
  }

  lemma {:induction false} ScanAnswers(d: Disk, listing: seq<string>)
    ensures ScanPlan(d, listing).answer
      == if AllNamed(listing) then Pruned(Unselected(listing, Referenced(d)), Temporaries(listing)) else Refused
    decreases |listing|
  {
    if |listing| > 0 {
      ScanAnswers(d, listing[..|listing| - 1]);
      AllNamedButLast(listing);
    }
  }

  /** Prune is refused only for a name that no release and no staging has; otherwise it reports
      as removed exactly the names that are not selected, in the order of the listing, and
      apart from them those that look temporary. */
  lemma PruneAnswers(d: Disk, listing: seq<string>)
    requires Inv(d)
    ensures PlanOf(d, Prune(listing)).answer
      == if AllNamed(listing)
         then Pruned(Unselected(listing, Ids(SettledCurrent(d), SettledPrevious(d))), Temporaries(listing))
         else Refused
  {
    RecoveryCompletes(d);
    SettledHasNoPreviousAlone(d);
    ScanAnswers(Reconciled(d), listing);
  }

  // Pruning

  ghost predicate Deletes(w: Write, spared: set<string>) {
    (w.Damage? || w.Drop?) && w.name !in spared
  }

  ghost predicate AllDelete(ws: seq<Write>, spared: set<string>) {
    forall i | 0 <= i < |ws| :: Deletes(ws[i], spared)
  }

  lemma {:induction false} DeletionsSpare(d: Disk, ws: seq<Write>, spared: set<string>)
    requires AllDelete(ws, spared)
    ensures var e := PutAll(d, ws);
      && e.(releases := d.releases) == d
      && forall n | n in spared :: (n in d.releases <==> n in e.releases) && (n in d.releases ==> e.releases[n] == d.releases[n])
    decreases |ws|
  {
    if |ws| > 0 {
      DeletionsSpare(d, ws[..|ws| - 1], spared);
      assert Deletes(ws[|ws| - 1], spared);
    }
  }

  ghost function SparedBy(d: Disk): set<string> {
    set n | n in Referenced(d) && !IsTemporary(n)
  }

  lemma {:induction false} ScanDeletesOnlyStrays(d: Disk, listing: seq<string>)
    ensures AllDelete(ScanPlan(d, listing).writes, SparedBy(d))
    ensures ScanPlan(d, listing).answer.Pruned? || ScanPlan(d, listing).answer.Refused?
    decreases |listing|
  {
    if |listing| > 0 {
      ScanDeletesOnlyStrays(d, listing[..|listing| - 1]);
    }
  }

  predicate Selecting(w: Write) {
    w.SetCurrent? || w.SetPrevious? || w.SetActive? || w.SetTransition?
  }

  lemma {:induction false} SelectingSparesReleases(d: Disk, ws: seq<Write>)
    requires forall i | 0 <= i < |ws| :: Selecting(ws[i])
    ensures PutAll(d, ws).releases == d.releases
    decreases |ws|
  {
    if |ws| > 0 {
      SelectingSparesReleases(d, ws[..|ws| - 1]);
    }
  }

  lemma RecoveryOnlySelects(d: Disk)
    ensures forall i | 0 <= i < |ReconcilePlan(d)| :: Selecting(ReconcilePlan(d)[i])
  {
  }

  lemma ScanSparesTheNamed(d: Disk, listing: seq<string>, cut: nat, id: string)
    requires Names(d, id) && !IsTemporary(id) && id in d.releases
    ensures var e := PutAll(d, Cut(SettledPrunePlan(d, listing).writes, cut));
      id in e.releases && e.releases[id] == d.releases[id]
  {
    DeletesOnlyStrays(d, listing);
    assert id in SparedBy(d);
    DeletionsSpare(d, Cut(SettledPrunePlan(d, listing).writes, cut), SparedBy(d));
  }

  predicate Names(d: Disk, id: string) {
    || d.current == Some(id) || d.previous == Some(id)
    || (d.active.Some? && (d.active.value.release == Some(id) || d.active.value.previous == Some(id)))
  }

  /** Prune is cut in its recovery, or after it. */
  lemma PruneRan(d: Disk, listing: seq<string>, cut: nat)
    ensures var first := ReconcilePlan(d);
      Ran(d, Prune(listing), cut)
      == if cut <= |first| then PutAll(d, Cut(first, cut))
         else PutAll(Reconciled(d), Cut(SettledPrunePlan(Reconciled(d), listing).writes, cut - |first|))
  {
    var first, second := ReconcilePlan(d), SettledPrunePlan(Reconciled(d), listing).writes;
    CutConcat(first, second, cut);
    if cut > |first| {
      PutAllConcat(d, first, Cut(second, cut - |first|));
    }
  }

  /** Prune, cut anywhere, leaves alone what the selectors or the active state name after
      recovery, unless it looks temporary. */
  lemma PruneSparesTheNamed(d: Disk, listing: seq<string>, cut: nat, id: string)
    requires Names(Recovered(d), id) && !IsTemporary(id) && id in d.releases
    ensures var e := Ran(d, Prune(listing), cut);
      id in e.releases && e.releases[id] == d.releases[id]
  {
    PruneRan(d, listing, cut);
    if cut <= |ReconcilePlan(d)| {
      RecoveryOnlySelects(d);
      SelectingSparesReleases(d, Cut(ReconcilePlan(d), cut));
    } else {
      RecoveryLeaves(d);
      ScanSparesTheNamed(Reconciled(d), listing, cut - |ReconcilePlan(d)|, id);
    }
  }

  lemma DeletesOnlyStrays(d: Disk, listing: seq<string>)
    ensures AllDelete(SettledPrunePlan(d, listing).writes, SparedBy(d))
  {
    ScanDeletesOnlyStrays(d, listing);
  }

  /** What a finished scan leaves: everything spared, and everything not listed. */
  lemma {:induction false} ScanLeaves(d: Disk, listing: seq<string>)
    requires ScanPlan(d, listing).answer.Pruned?
    ensures var e := PutAll(d, ScanPlan(d, listing).writes);
      e.releases.Keys == set n | n in d.releases && (n !in listing || Spared(d, n))
    decreases |listing|
  {
    if |listing| > 0 {
      var before, name := listing[..|listing| - 1], listing[|listing| - 1];
      assert listing == before + [name];
      ScanLeaves(d, before);
      var b := ScanPlan(d, before).writes;
      var e := PutAll(d, b);
      if !Spared(d, name) {
        PutAllConcat(d, b, DeleteTree(name));
        TwoWrites(e, Damage(name), Drop(name));
        assert PutAll(e, DeleteTree(name)).releases.Keys == e.releases.Keys - {name};
      }
    }
  }

  lemma SparingKeepsInv(d: Disk, e: Disk)
    requires Inv(d) && d.transition.None? && e.(releases := d.releases) == d
    requires forall n | n in SparedBy(d) && n in d.releases :: n in e.releases && e.releases[n] == d.releases[n]
    ensures Inv(e)
  {
    assert d.current.Some? ==> d.current.value in SparedBy(d);
    assert d.previous.Some? ==> d.previous.value in SparedBy(d);
  }

  lemma ScanCut(d: Disk, listing: seq<string>, cut: nat)
    requires Inv(d) && d.transition.None?
    ensures var e := PutAll(d, Cut(SettledPrunePlan(d, listing).writes, cut));
      Inv(e) && e.(releases := d.releases) == d
  {
    var ws := SettledPrunePlan(d, listing).writes;
    DeletesOnlyStrays(d, listing);
    DeletionsSpare(d, Cut(ws, cut), SparedBy(d));
    SparingKeepsInv(d, PutAll(d, Cut(ws, cut)));
  }

  lemma PruneCut(d: Disk, listing: seq<string>, cut: nat)
    requires Inv(d)
    ensures var e := Ran(d, Prune(listing), cut);
      && Inv(e) && SettlesAt(e, SettledCurrent(d), SettledPrevious(d))
      && (SettledCurrent(d).Some? ==> e.current.Some?)
  {
    RecoveryCompletes(d);
    PruneRan(d, listing, cut);
    if cut <= |ReconcilePlan(d)| {
      RecoveryCutKeeps(d, cut);
    } else {
      ScanCut(Reconciled(d), listing, cut - |ReconcilePlan(d)|);
    }
  }

  /** A finished prune keeps exactly the referenced releases that do not look like
      abandoned staging: a reference survives if and only if its name does not. */
  lemma PruneKeepsExactly(d: Disk, listing: seq<string>)
    requires PrunePlan(d, listing).answer.Pruned?
    requires forall n | n in Reconciled(d).releases :: n in listing
    ensures var e := Ran(d, Prune(listing), |PrunePlan(d, listing).writes|);
      e.releases.Keys == set n | n in Reconciled(d).releases && n in Referenced(Reconciled(d)) && !IsTemporary(n)
  {
    var r := Reconciled(d);
    PutAllConcat(d, ReconcilePlan(d), ScanPlan(r, listing).writes);
    ScanLeaves(r, listing);
  }

  /** So a finished prune leaves current naming nothing exactly when the current ID
      looks like abandoned staging. */
  lemma PruneDanglesExactly(d: Disk, listing: seq<string>)
    requires PrunePlan(d, listing).answer.Pruned? && Reconciled(d).current.Some?
    requires forall n | n in Reconciled(d).releases :: n in listing
    ensures var e := Ran(d, Prune(listing), |PrunePlan(d, listing).writes|);
      e.current == Reconciled(d).current && (Dangles(e, e.current) <==> IsTemporary(e.current.value))
  {
    var r := Reconciled(d);
    PutAllConcat(d, ReconcilePlan(d), ScanPlan(r, listing).writes);
    ScanDeletesOnlyStrays(r, listing);
    DeletionsSpare(r, ScanPlan(r, listing).writes, SparedBy(r));
    PruneKeepsExactly(d, listing);
  }

  /** From the empty store, any safe ID can be staged and activated. */
  lemma StageAndActivate(id: string)
    requires IsSafeId(id)
    ensures var staged := Ran(EMPTY, Stage(id, 7, Good), 2);
      && staged == EMPTY.(releases := map[id := Intact])
      && Ran(staged, Activate(id), 4) == staged.(current := Some(id), active := Some(Active(Some(id), None)))
  {
    var temporary := TemporaryName(id, 7);
    TwoWrites(EMPTY, BeginCopy(temporary), Rename(temporary, id));
    var staged := EMPTY.(releases := map[id := Intact]);
    var t := SetTransition(Some(Transition(None, None, Some(id), None)));
    var active := SetActive(Some(Active(Some(id), None)));
    var ws := [t, SetCurrent(Some(id))] + [active, SetTransition(None)];
    assert ReconcilePlan(staged) == [] && [] + ws == ws;
    assert SwitchWrites(staged, id) == ws;
    PutAllConcat(staged, [t, SetCurrent(Some(id))], [active, SetTransition(None)]);
    TwoWrites(staged, t, SetCurrent(Some(id)));
    TwoWrites(Put(Put(staged, t), SetCurrent(Some(id))), active, SetTransition(None));
  }

  /** Such IDs are accepted: from the empty store each can be staged and activated, and
      the next prune deletes it. */
  lemma TemporaryLookingReleaseDangles(id: string)
    requires IsSafeId(id) && IsTemporary(id)
    ensures var activated := Ran(Ran(EMPTY, Stage(id, 7, Good), 2), Activate(id), 4);
      var pruned := Ran(activated, Prune([id]), |PrunePlan(activated, [id]).writes|);
      activated.current == Some(id) && IntactAt(activated, id) && Dangles(pruned, pruned.current)
  {
    StageAndActivate(id);
    var activated := EMPTY.(releases := map[id := Intact], current := Some(id), active := Some(Active(Some(id), None)));
    assert [id][..0] == [] && [id][0] == id;
    assert ScanPlan(activated, []).answer == Pruned([], []);
    assert ScanPlan(activated, [id]).answer == Pruned([], [id]);
    assert ReconcilePlan(activated) == [] && Reconciled(activated) == activated;
    PruneDanglesExactly(activated, [id]);
  }

  const STRAY := "a.tmp.1"

  lemma StrayLooksTemporary()
    ensures IsSafeId(STRAY) && IsTemporary(STRAY)
  {
    assert STRAY[1..6] == TEMPORARY && STRAY[6..] == "1";
    assert TemporaryAt(STRAY, 1);
  }

  /** One of them, with the run that makes it dangle. */
  lemma StrayDangles()
    ensures var activated := Ran(Ran(EMPTY, Stage(STRAY, 7, Good), 2), Activate(STRAY), 4);
      var pruned := Ran(activated, Prune([STRAY]), |PrunePlan(activated, [STRAY]).writes|);
      activated.current == Some(STRAY) && IntactAt(activated, STRAY) && Dangles(pruned, pruned.current)
  {
    StrayLooksTemporary();
    TemporaryLookingReleaseDangles(STRAY);
  }

  // Staging and whole runs

  ghost predicate StagingWrite(w: Write, temporary: string, id: string) {
    || w == BeginCopy(temporary) || w == Damage(temporary) || w == Drop(temporary)
    || w == Rename(temporary, id)
  }

  lemma {:induction false} StagingTouchesOnly(d: Disk, ws: seq<Write>, temporary: string, id: string)
    requires forall i | 0 <= i < |ws| :: StagingWrite(ws[i], temporary, id)
    ensures var e := PutAll(d, ws);
      && e.(releases := d.releases) == d
      && forall n | n != temporary && n != id && n in d.releases :: n in e.releases && e.releases[n] == d.releases[n]
    decreases |ws|
  {
    if |ws| > 0 {
      StagingTouchesOnly(d, ws[..|ws| - 1], temporary, id);
      assert StagingWrite(ws[|ws| - 1], temporary, id);
    }
  }

  lemma StageCut(d: Disk, id: string, pid: nat, source: Source, cut: nat)
    requires Inv(d)
    ensures var e := Ran(d, Stage(id, pid, source), cut);
      && Inv(e) && SettlesAt(e, SettledCurrent(d), SettledPrevious(d))
      && e.(releases := d.releases) == d
  {
    var ws := StagePlan(d, id, pid, source).writes;
    if |ws| > 0 {
      TemporaryNamesLookTemporary(id, pid);
      var temporary := TemporaryName(id, pid);
      assert forall i | 0 <= i < |ws| :: StagingWrite(ws[i], temporary, id);
      StagingTouchesOnly(d, Cut(ws, cut), temporary, id);
    }
  }

  /** A completed stage of a new ID makes exactly that release, intact. */
  lemma StagePublishes(d: Disk, id: string, pid: nat)
    requires IsSafeId(id) && id !in d.releases && TemporaryName(id, pid) !in d.releases
    ensures Ran(d, Stage(id, pid, Good), 2).releases == d.releases[id := Intact]
    ensures Ran(d, Stage(id, pid, Good), 1).releases == d.releases[TemporaryName(id, pid) := Damaged]
  {
    var temporary := TemporaryName(id, pid);
    TwoWrites(d, BeginCopy(temporary), Rename(temporary, id));
    SkippedWhenVoid(d, [BeginCopy(temporary)], BeginCopy(temporary));
    assert StagePlan(d, id, pid, Good).writes[..1] == [BeginCopy(temporary)];
  }

  lemma CommandKeepsInv(d: Disk, c: Command, cut: nat)
    requires Inv(d) && Sound(c)
    ensures Inv(Ran(d, c, cut))
    ensures SettledCurrent(d).Some? ==> Ran(d, c, cut).current.Some? && SettledCurrent(Ran(d, c, cut)).Some?
  {
    match c
    case Stage(id, pid, source) => StageCut(d, id, pid, source, cut);
    case Activate(_) => SwitchCommandCut(d, c, cut);
    case Rollback => SwitchCommandCut(d, c, cut); RecoveryCompletes(d);
    case Prune(listing) => PruneCut(d, listing, cut);
    case Recover => RecoveryCutKeeps(d, cut);
  }

  /** A history of commands, each cut somewhere or not at all. */
  function RunAll(d: Disk, history: seq<(Command, nat)>): Disk
    decreases |history|
  {
    if |history| == 0 then d
    else
      var last := history[|history| - 1];
      Ran(RunAll(d, history[..|history| - 1]), last.0, last.1)
  }

  /** References never dangle: after any history of cut or finished commands, current,
      previous and both sides of a pending transition name intact releases. */
  lemma {:induction false} ReferencesNeverDangle(history: seq<(Command, nat)>)
    requires forall i | 0 <= i < |history| :: Sound(history[i].0)
    ensures var d := RunAll(EMPTY, history);
      && Inv(d)
      && (forall id | id in Ids(d.current, d.previous) :: IntactAt(d, id))
      && (d.transition.Some? ==>
            var t := d.transition.value;
            forall id | id in Ids(t.fromCurrent, t.fromPrevious) + Ids(t.toCurrent, t.toPrevious) :: IntactAt(d, id))
    decreases |history|
  {
    if |history| > 0 {
      var n := |history| - 1;
      ReferencesNeverDangle(history[..n]);
      CommandKeepsInv(RunAll(EMPTY, history[..n]), history[n].0, history[n].1);
    }
  }

  /** Once a selection has settled, current is never absent again. */
  lemma {:induction false} CurrentStays(d: Disk, history: seq<(Command, nat)>)
    requires Inv(d) && SettledCurrent(d).Some?
    requires forall i | 0 <= i < |history| :: Sound(history[i].0)
    ensures var e := RunAll(d, history);
      Inv(e) && SettledCurrent(e).Some? && (|history| > 0 || d.current.Some? ==> e.current.Some?)
    decreases |history|
  {
    if |history| > 0 {
      var n := |history| - 1;
      CurrentStays(d, history[..n]);
      CommandKeepsInv(RunAll(d, history[..n]), history[n].0, history[n].1);
    }
  }

  ghost predicate AllSound(history: seq<(Command, nat)>) {
    forall i | 0 <= i < |history| :: Sound(history[i].0)
  }

  /** A current that is set stays so over every history exactly if it is settled, which it is
      unless the first activation is pending and has not replaced the active state. */
  lemma CurrentStaysExactly(d: Disk)
    requires Inv(d) && d.current.Some?
    ensures (forall history | AllSound(history) :: RunAll(d, history).current.Some?) <==> SettledCurrent(d).Some?
    ensures SettledCurrent(d).None? <==>
      d.transition.Some? && d.transition.value.fromCurrent.None? && !Committed(d, d.transition.value)
  {
    if SettledCurrent(d).Some? {
      forall history | AllSound(history)
        ensures RunAll(d, history).current.Some?
      {
        CurrentStays(d, history);
      }
    } else {
      var recover := [(Recover, |ReconcilePlan(d)|)];
      RecoveryCompletes(d);
      assert recover[..0] == [] && RunAll(d, recover[..0]) == d;
      assert AllSound(recover) && RunAll(d, recover) == Reconciled(d);
    }
  }

  /** Such a store is reached: the very first activation, cut after it set current, is undone
      by recovery, and current is absent again. */
  lemma FirstActivationCanBeUndone(id: string)
    requires IsSafeId(id)
    ensures var staged := EMPTY.(releases := map[id := Intact]);
      var cut := Ran(staged, Activate(id), 2);
      cut.current == Some(id) && SettledCurrent(cut).None? && Reconciled(cut) == staged
  {
    var staged := EMPTY.(releases := map[id := Intact]);
    var t := SetTransition(Some(Transition(None, None, Some(id), None)));
    var ws := SwitchWrites(staged, id);
    assert ReconcilePlan(staged) == [] && [] + ws == ws;
    assert ws[..2] == [t, SetCurrent(Some(id))];
    TwoWrites(staged, t, SetCurrent(Some(id)));
    var cut := Ran(staged, Activate(id), 2);
    assert ReconcilePlan(cut) == [SetCurrent(None), SetTransition(None)];
    TwoWrites(cut, SetCurrent(None), SetTransition(None));
  }
}
