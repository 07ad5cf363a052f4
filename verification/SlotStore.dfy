/** The durable state of the bot's release slots, one write at a time, and what each
    command writes.  A crash cuts a command's writes anywhere. */
module SlotStore {
  import opened Common
  import opened Text

  // Names

  predicate IsAlphanumeric(c: char) {
    'A' <= c <= 'Z' || 'a' <= c <= 'z' || IsDigit(c)
  }

  /** A release ID: a letter or digit, then at most 127 letters, digits, dots,
      underscores and hyphens. */
  predicate IsSafeId(id: string) {
    && 0 < |id| <= 128
    && IsAlphanumeric(id[0])
    && forall i | 0 <= i < |id| :: IsAlphanumeric(id[i]) || id[i] in {'.', '_', '-'}
  }

  const TEMPORARY := ".tmp."

  /** A name ending in .tmp.<digits>, which pruning takes for abandoned staging. */
  predicate IsTemporary(name: string) {
    exists i | 1 <= i < |name| :: TemporaryAt(name, i)
  }

  predicate TemporaryAt(name: string, i: nat)
    requires i <= |name|
  {
    i + 5 <= |name| && name[i..i + 5] == TEMPORARY && AllDigits(name[i + 5..]) && LineFreeTo(name, i)
  }

  predicate LineFreeTo(name: string, n: nat)
    requires n <= |name|
  {
    forall i | 0 <= i < n :: name[i] != '\n'
  }

  function TemporaryName(id: string, pid: nat): string {
    id + TEMPORARY + Decimal(pid)
  }

  lemma TemporaryNamesLookTemporary(id: string, pid: nat)
    requires IsSafeId(id)
    ensures IsTemporary(TemporaryName(id, pid))
  {
    assert TemporaryAt(TemporaryName(id, pid), |id|);
  }

  // State

  /** A release directory matches its manifest, or was left half deleted or half copied. */
  datatype Health = Intact | Damaged

  datatype Active = Active(release: Option<string>, previous: Option<string>)

  datatype Transition = Transition(
    fromCurrent: Option<string>, fromPrevious: Option<string>,
    toCurrent: Option<string>, toPrevious: Option<string>)

  datatype Disk = Disk(
    releases: map<string, Health>,
    current: Option<string>,
    previous: Option<string>,
    active: Option<Active>,
    transition: Option<Transition>)

  datatype Write =
    | SetCurrent(id: Option<string>)
    | SetPrevious(id: Option<string>)
    | SetActive(state: Option<Active>)
    | SetTransition(pending: Option<Transition>)
    | BeginCopy(name: string)
    | Damage(name: string)
    | Drop(name: string)
    | Rename(name: string, release: string)

  function Put(d: Disk, w: Write): Disk {
    match w
    case SetCurrent(id) => d.(current := id)
    case SetPrevious(id) => d.(previous := id)
    case SetActive(state) => d.(active := state)
    case SetTransition(pending) => d.(transition := pending)
    case BeginCopy(name) => d.(releases := d.releases[name := Damaged])
    case Damage(name) => d.(releases := d.releases[name := Damaged])
    case Drop(name) => d.(releases := d.releases - {name})
    case Rename(name, id) => d.(releases := (d.releases - {name})[id := Intact])
  }

  function PutAll(d: Disk, ws: seq<Write>): Disk
    decreases |ws|
  {
    if |ws| == 0 then d else Put(PutAll(d, ws[..|ws| - 1]), ws[|ws| - 1])
  }

  /** The first `cut` writes, or all of them. */
  function Cut(ws: seq<Write>, cut: nat): seq<Write> {
    if cut < |ws| then ws[..cut] else ws
  }

  // Recovery

  predicate Committed(d: Disk, t: Transition) {
    d.active.Some? && d.active.value.release == t.toCurrent && d.active.value.previous == t.toPrevious
  }

  function SettledCurrent(d: Disk): Option<string> {
    if d.transition.None? then d.current
    else if Committed(d, d.transition.value) then d.transition.value.toCurrent
    else d.transition.value.fromCurrent
  }

  function SettledPrevious(d: Disk): Option<string> {
    if d.transition.None? then d.previous
    else if Committed(d, d.transition.value) then d.transition.value.toPrevious
    else d.transition.value.fromPrevious
  }

  function SelectorWrites(write: Write, present: bool): seq<Write>
    requires write.SetCurrent? || write.SetPrevious?
  {
    if write.id.None? && !present then [] else [write]
  }

  function RemoveActive(d: Disk): seq<Write> {
    if d.active.None? then [] else [SetActive(None)]
  }

  function SettleActiveWrites(d: Disk, current: Option<string>, previous: Option<string>): seq<Write> {
    if current.None? then RemoveActive(d) else [SetActive(Some(Active(current, previous)))]
  }

  /** Settling at a pair: the selectors, the active state, and last the end of the transition. */
  function SettleWrites(d: Disk, current: Option<string>, previous: Option<string>): seq<Write> {
    SelectorWrites(SetPrevious(previous), d.previous.Some?)
    + (SelectorWrites(SetCurrent(current), d.current.Some?)
       + (SettleActiveWrites(d, current, previous) + [SetTransition(None)]))
  }

  /** What recovery writes: nothing unless a transition is pending. */
  function ReconcilePlan(d: Disk): seq<Write> {
    if d.transition.None? then [] else SettleWrites(d, SettledCurrent(d), SettledPrevious(d))
  }

  function Reconciled(d: Disk): Disk {
    PutAll(d, ReconcilePlan(d))
  }

  // Commands

  datatype Answer =
    | Selected(current: Option<string>, previous: Option<string>, idempotent: bool)
    | Staged(id: string, alreadyThere: bool)
    | Pruned(removed: seq<string>, removedTemporary: seq<string>)
    | Settled
    | Usage
    | Refused

  /** What one command writes, in order, and what it answers if it is not cut. */
  datatype Plan = Plan(writes: seq<Write>, answer: Answer)

  predicate Dangles(d: Disk, selector: Option<string>) {
    selector.Some? && selector.value !in d.releases
  }

  predicate IntactAt(d: Disk, id: string) {
    id in d.releases && d.releases[id].Intact?
  }

  function SwitchWrites(d: Disk, target: string): seq<Write> {
    var c := d.current;
    [SetTransition(Some(Transition(c, d.previous, Some(target), c)))]
    + (if c.Some? then [SetPrevious(c)] else [])
    + [SetCurrent(Some(target)), SetActive(Some(Active(Some(target), c))), SetTransition(None)]
  }

  /** Activation of a safe ID once no transition is pending. */
  function SettledActivatePlan(d: Disk, id: string): Plan {
    if !IntactAt(d, id) || Dangles(d, d.current) || Dangles(d, d.previous) then Plan([], Refused)
    else if d.current == Some(id) then
      var agrees := d.active == Some(Active(d.current, d.previous));
      Plan(if agrees then [] else [SetActive(Some(Active(d.current, d.previous)))], Selected(d.current, d.previous, true))
    else if d.current.None? && d.previous.Some? then Plan([], Refused)
    else if d.current.Some? && !IntactAt(d, d.current.value) then Plan([], Refused)
    else Plan(SwitchWrites(d, id), Selected(Some(id), d.current, false))
  }

  function SettledRollbackPlan(d: Disk): Plan {
    if Dangles(d, d.current) || Dangles(d, d.previous) then Plan([], Refused)
    else if d.current.None? || d.previous.None? then Plan([], Refused)
    else if !IntactAt(d, d.previous.value) then Plan([], Refused)
    else Plan(SwitchWrites(d, d.previous.value), Selected(d.previous, d.current, false))
  }

  function ActivatePlan(d: Disk, id: string): Plan {
    if !IsSafeId(id) then Plan([], Usage)
    else
      var p := SettledActivatePlan(Reconciled(d), id);
      Plan(ReconcilePlan(d) + p.writes, p.answer)
  }

  function RollbackPlan(d: Disk): Plan {
    var p := SettledRollbackPlan(Reconciled(d));
    Plan(ReconcilePlan(d) + p.writes, p.answer)
  }

  // Pruning

  function Ids(a: Option<string>, b: Option<string>): set<string> {
    (if a.Some? then {a.value} else {}) + (if b.Some? then {b.value} else {})
  }

  function Referenced(d: Disk): set<string> {
    Ids(d.current, d.previous) + if d.active.Some? then Ids(d.active.value.release, d.active.value.previous) else {}
  }

  /** Deleting a tree takes a while: it is damaged before it is gone. */
  function DeleteTree(name: string): seq<Write> {
    [Damage(name), Drop(name)]
  }

  predicate Spared(d: Disk, name: string) {
    !IsTemporary(name) && name in Referenced(d)
  }

  /** The scan over the listed names; an unsafe name ends it after what came before. */
  function ScanPlan(d: Disk, listing: seq<string>): Plan {
    if |listing| == 0 then Plan([], Pruned([], []))
    else
      var before := ScanPlan(d, listing[..|listing| - 1]);
      var name := listing[|listing| - 1];
      if before.answer.Refused? then before
      else if IsTemporary(name) then
        Plan(before.writes + DeleteTree(name), PrunedMore(before.answer, [], [name]))
      else if !IsSafeId(name) then Plan(before.writes, Refused)
      else if name in Referenced(d) then before
      else Plan(before.writes + DeleteTree(name), PrunedMore(before.answer, [name], []))
  }

  function PrunedMore(a: Answer, removed: seq<string>, temporary: seq<string>): Answer {
    if a.Pruned? then Pruned(a.removed + removed, a.removedTemporary + temporary) else a
  }

  function SettledPrunePlan(d: Disk, listing: seq<string>): Plan {
    if Dangles(d, d.current) || Dangles(d, d.previous) then Plan([], Refused)
    else ScanPlan(d, listing)
  }

  function PrunePlan(d: Disk, listing: seq<string>): Plan {
    var p := SettledPrunePlan(Reconciled(d), listing);
    Plan(ReconcilePlan(d) + p.writes, p.answer)
  }

  // Staging

  /** Whether the source tree can be read, and whether the copy matches it. */
  datatype Source = Good | Unreadable | Changed

  function StagePlan(d: Disk, id: string, pid: nat, source: Source): Plan {
    var temporary := TemporaryName(id, pid);
    if !IsSafeId(id) then Plan([], Usage)
    else if id in d.releases then
      Plan([], if d.releases[id].Intact? then Staged(id, true) else Refused)
    else if source.Unreadable? || temporary in d.releases then
      Plan(if temporary in d.releases then DeleteTree(temporary) else [], Refused)
    else if source.Changed? then Plan([BeginCopy(temporary)] + DeleteTree(temporary), Refused)
    else Plan([BeginCopy(temporary), Rename(temporary, id)], Staged(id, false))
  }

  /** Everything the tool can be asked to do; `listing` is what the scan of the
      releases directory returns. */
  datatype Command =
    | Stage(id: string, pid: nat, source: Source)
    | Activate(id: string)
    | Rollback
    | Prune(listing: seq<string>)
    | Recover

  function PlanOf(d: Disk, c: Command): Plan {
    match c
    case Stage(id, pid, source) => StagePlan(d, id, pid, source)
    case Activate(id) => ActivatePlan(d, id)
    case Rollback => RollbackPlan(d)
    case Prune(listing) => PrunePlan(d, listing)
    case Recover => Plan(ReconcilePlan(d), Settled)
  }

  /** The state that one command leaves when it is cut after `cut` writes. */
  function Ran(d: Disk, c: Command, cut: nat): Disk {
    PutAll(d, Cut(PlanOf(d, c).writes, cut))
  }
}
