/** One machine as its lock protocols see it: lock directories, processes, and
    the metric files the cron lock protects.

    Every filesystem call is one atomic step of one process.  Between any two
    calls of a process, any number of other processes may take any number of
    steps, be started, or die. */
module Host {
  import opened Common
  import opened CronMetric
  import opened Text

  type Path = string

  /** One incarnation of a process; a reused pid belongs to a new incarnation. */
  type Process = nat

  datatype Identity = Identity(pid: nat, token: string)

  datatype Kind = Claim | Owner

  /** The part of an entry name after its kind; no token means "unknown". */
  datatype Suffix = Suffix(pid: nat, token: Option<string>, nonce: nat)

  datatype Name = Entry(kind: Kind, suffix: Suffix) | Foreign(text: string)

  /** A file holds its complete suffix line, or is still being written. */
  datatype Directory = Directory(ino: nat, mtime: nat, files: map<Name, Option<Suffix>>)

  datatype Holding = Holding(path: Path, process: Process, suffix: Suffix)

  datatype Publication = Publication(path: Path, process: Process, outcome: Outcome, code: int)

  /** `guarded` are the paths used by the runtime guard, which also protects
      claims; every other path is a cron health lock, which protects owners only.
      `author[n]` is the process that drew nonce n.  `readings` are the texts that a process
      has read from a metric file, none if it is absent, and means to add to. */
  datatype World = World(
    guarded: set<Path>,
    now: nat,
    dirs: map<Path, Directory>,
    procs: map<Process, Identity>,
    alive: set<Process>,
    author: seq<Process>,
    holders: set<Holding>,
    texts: map<Path, string>,
    readings: map<Holding, Option<string>>,
    journal: seq<Publication>)

  datatype Action =
    | Draw
    | Mkdir(path: Path, ino: nat)
    | Create(path: Path, name: Name)
    | Fill(path: Path, name: Name)
    | Unlink(path: Path, name: Name)
    | Rmdir(path: Path)
    | Verify(path: Path, suffix: Suffix)
    | Read(path: Path, suffix: Suffix)
    | Publish(path: Path, suffix: Suffix, outcome: Outcome, code: int, timestamp: nat)
    | Tick(later: nat)
    | Spawn(child: Process, identity: Identity)
    | Die

  // What processes may do

  predicate Authored(w: World, s: Suffix) {
    && s.nonce < |w.author|
    && w.author[s.nonce] in w.procs
    && var id := w.procs[w.author[s.nonce]];
       s.pid == id.pid && (s.token.None? || s.token.value == id.token)
  }

  predicate AuthoredBy(w: World, s: Suffix, p: Process) {
    Authored(w, s) && w.author[s.nonce] == p
  }

  /** Nobody takes away the entries of a live process, except that the claim of a
      cron health lock has no protection at all. */
  predicate MayUnlink(w: World, p: Process, path: Path, name: Name) {
    && name.Entry?
    && (name.kind.Owner? || path in w.guarded ==>
          && Authored(w, name.suffix)
          && (w.author[name.suffix.nonce] == p || w.author[name.suffix.nonce] !in w.alive))
  }

  function OwnNames(s: Suffix): set<Name> {
    {Entry(Claim, s), Entry(Owner, s)}
  }

  predicate Holds(w: World, p: Process, path: Path) {
    exists h | h in w.holders :: h.process == p && h.path == path
  }

  function TextAt(w: World, path: Path): Option<string> {
    if path in w.texts then Some(w.texts[path]) else None
  }

  function CountsIn(path: Path, text: Option<string>): Counts {
    if text.Some? then Parse(text.value, EscapeLabel(path)) else ZERO
  }

  function CountsAt(w: World, path: Path): Counts {
    CountsIn(path, TextAt(w, path))
  }

  predicate ValidPid(pid: nat) {
    0 < pid <= MAX_SAFE_INTEGER
  }

  predicate Known(w: World) {
    w.alive <= w.procs.Keys && forall p | p in w.procs :: ValidPid(w.procs[p].pid)
  }

  predicate Enabled(w: World, p: Process, a: Action)
    requires Known(w)
  {
    match a
    case Draw => p in w.alive
    case Mkdir(path, _) => p in w.alive && path !in w.dirs
    case Create(path, name) =>
      p in w.alive && path in w.dirs && name !in w.dirs[path].files
      && name.Entry? && AuthoredBy(w, name.suffix, p)
    case Fill(path, name) =>
      p in w.alive && path in w.dirs && name in w.dirs[path].files
      && name.Entry? && AuthoredBy(w, name.suffix, p)
    case Unlink(path, name) =>
      p in w.alive && path in w.dirs && name in w.dirs[path].files && MayUnlink(w, p, path, name)
    case Rmdir(path) => p in w.alive && path in w.dirs && w.dirs[path].files == map[]
    case Verify(path, s) =>
      p in w.alive && path in w.dirs && AuthoredBy(w, s, p) && w.dirs[path].files.Keys == OwnNames(s)
    case Read(path, s) => Holding(path, p, s) in w.holders
    case Publish(path, s, _, _, _) => Holding(path, p, s) in w.holders && Holding(path, p, s) in w.readings
    case Tick(later) => w.now <= later
    case Spawn(child, id) =>
      child !in w.procs && ValidPid(id.pid) && forall q | q in w.alive :: w.procs[q].pid != id.pid
    case Die => p in w.alive
  }

  /** Taking away an entry that a holder relies on ends that holding. */
  predicate Survives(w: World, h: Holding, path: Path, name: Name) {
    h.path != path || (name != Entry(Owner, h.suffix) && (path in w.guarded ==> name != Entry(Claim, h.suffix)))
  }

  function Touch(d: Directory, now: nat, files: map<Name, Option<Suffix>>): Directory {
    d.(mtime := now, files := files)
  }

  function Unlinked(w: World, path: Path, name: Name): World
    requires path in w.dirs
  {
    var d := w.dirs[path];
    w.(dirs := w.dirs[path := Touch(d, w.now, d.files - {name})],
       holders := set h | h in w.holders && Survives(w, h, path, name))
  }

  function Apply(w: World, p: Process, a: Action): World
    requires Known(w) && Enabled(w, p, a)
  {
    match a
    case Draw => w.(author := w.author + [p])
    case Mkdir(path, ino) => w.(dirs := w.dirs[path := Directory(ino, w.now, map[])])
    case Create(path, name) =>
      var d := w.dirs[path];
      w.(dirs := w.dirs[path := Touch(d, w.now, d.files[name := None])])
    case Fill(path, name) =>
      var d := w.dirs[path];
      w.(dirs := w.dirs[path := d.(files := d.files[name := Some(name.suffix)])])
    case Unlink(path, name) => Unlinked(w, path, name)
    case Rmdir(path) => w.(dirs := w.dirs - {path})
    case Verify(path, s) =>
      w.(holders := w.holders + {Holding(path, p, s)}, readings := w.readings - {Holding(path, p, s)})
    case Read(path, s) => w.(readings := w.readings[Holding(path, p, s) := TextAt(w, path)])
    case Publish(path, s, outcome, code, timestamp) =>
      var h := Holding(path, p, s);
      w.(texts := w.texts[path := Render(EscapeLabel(path), code, AddRun(CountsIn(path, w.readings[h]), outcome), timestamp)],
         readings := w.readings - {h},
         journal := w.journal + [Publication(path, p, outcome, code)])
    case Tick(later) => w.(now := later)
    case Spawn(child, id) => w.(procs := w.procs[child := id], alive := w.alive + {child})
    case Die =>
      w.(alive := w.alive - {p}, holders := set h | h in w.holders && h.process != p)
  }

  lemma MayStillUnlink(w: World, w': World, me: Process, path: Path, name: Name)
    requires MayUnlink(w, me, path, name) && Grown(w, w')
    ensures MayUnlink(w', me, path, name)
  {
  }

  /** One step from one world to the next. */
  predicate Takes(w: World, p: Process, a: Action, w': World) {
    Known(w) && Enabled(w, p, a) && w' == Apply(w, p, a)
  }

  /** A finite run, any process taking any next step. */
  datatype Run = Start(now: World) | After(before: Run, process: Process, action: Action, now: World)
  {
    predicate Valid() {
      match this
      case Start(_) => true
      case After(before, p, a, now) =>
        before.Valid() && Takes(before.now, p, a, now)
    }

    function First(): World {
      match this
      case Start(w) => w
      case After(before, _, _, _) => before.First()
    }

    /** The worlds it passes through, the first and the last included. */
    function Worlds(): (ws: seq<World>)
      ensures |ws| > 0 && ws[|ws| - 1] == now && ws[0] == First()
    {
      match this
      case Start(w) => [w]
      case After(before, _, _, w) => before.Worlds() + [w]
    }

    /** Every step is taken by another process, or is the clock or a new process. */
    predicate WithoutMe(me: Process) {
      After? ==> before.WithoutMe(me) && (process != me || action.Tick? || action.Spawn?)
    }
  }

  ghost predicate Stepped(w: World, w': World) {
    exists p, a :: Takes(w, p, a, w')
  }

  ghost predicate LinkedAt(passed: seq<World>, i: nat)
    requires i < |passed|
  {
    i > 0 ==> Stepped(passed[i - 1], passed[i])
  }

  /** From each of these worlds to the next there is one step. */
  ghost predicate Linked(passed: seq<World>) {
    forall i: nat | i < |passed| :: LinkedAt(passed, i)
  }

  lemma {:induction false} RunIsLinked(r: Run)
    requires r.Valid()
    ensures Linked(r.Worlds())
  {
    if r.After? {
      RunIsLinked(r.before);
      OneMoreLink(r.before.Worlds(), r.process, r.action, r.now);
    }
  }

  lemma OneMoreLink(passed: seq<World>, p: Process, a: Action, w: World)
    requires Linked(passed) && |passed| > 0 && Takes(passed[|passed| - 1], p, a, w)
    ensures Linked(passed + [w])
  {
    var more := passed + [w];
    forall i: nat | i < |more|
      ensures LinkedAt(more, i)
    {
      assert i < |passed| ==> LinkedAt(passed, i);
    }
  }

  /** Two rows of worlds, where the second goes on from the end of the first. */
  function Joined(passed: seq<World>, on: seq<World>): seq<World>
    requires |on| > 0
  {
    passed + on[1..]
  }

  lemma JoinedIsLinked(passed: seq<World>, on: seq<World>)
    requires Linked(passed) && Linked(on) && |passed| > 0 && |on| > 0 && passed[|passed| - 1] == on[0]
    ensures Linked(Joined(passed, on)) && passed <= Joined(passed, on)
    ensures var all := Joined(passed, on); |all| > 0 && all[|all| - 1] == on[|on| - 1]
  {
    var all := Joined(passed, on);
    forall i: nat | i < |all|
      ensures LinkedAt(all, i)
    {
      if i < |passed| {
        assert LinkedAt(passed, i);
      } else {
        assert LinkedAt(on, i - |passed| + 1);
      }
    }
  }

  /** A row of linked worlds is what some run passes. */
  lemma {:induction false} LinkedIsRun(passed: seq<World>) returns (r: Run)
    requires Linked(passed) && |passed| > 0
    ensures r.Valid() && r.First() == passed[0] && r.now == passed[|passed| - 1]
    decreases |passed|
  {
    if |passed| == 1 {
      return Start(passed[0]);
    }
    var n := |passed| - 1;
    forall i: nat | i < n
      ensures LinkedAt(passed[..n], i)
    {
      assert LinkedAt(passed, i);
    }
    var before := LinkedIsRun(passed[..n]);
    assert LinkedAt(passed, n);
    var p, a :| Takes(passed[n - 1], p, a, passed[n]);
    r := After(before, p, a, passed[n]);
  }

  // What every step keeps

  ghost predicate Backed(w: World, h: Holding) {
    && h.process in w.alive
    && AuthoredBy(w, h.suffix, h.process)
    && h.path in w.dirs
    && Entry(Owner, h.suffix) in w.dirs[h.path].files
    && (h.path in w.guarded ==> Entry(Claim, h.suffix) in w.dirs[h.path].files)
  }

  ghost predicate EntriesAuthored(w: World) {
    forall path, name | path in w.dirs && name in w.dirs[path].files && name.Entry? :: Authored(w, name.suffix)
  }

  ghost predicate Clash(g: Holding, h: Holding) {
    g.path == h.path && g != h
  }

  ghost predicate Exclusive(w: World) {
    forall g, h {:trigger Clash(g, h)} | g in w.holders && h in w.holders :: !Clash(g, h)
  }

  ghost predicate PidsUnique(w: World)
    requires Known(w)
  {
    forall p, q {:trigger w.procs[p], w.procs[q]} |
      p in w.alive && q in w.alive && w.procs[p].pid == w.procs[q].pid :: p == q
  }

  /** What a holder has read is still what the file says. */
  ghost predicate ReadingsCurrent(w: World) {
    forall h | h in w.readings && h in w.holders :: w.readings[h] == TextAt(w, h.path)
  }

  ghost predicate Inv(w: World) {
    && Known(w)
    && PidsUnique(w)
    && EntriesAuthored(w)
    && (forall h | h in w.holders :: Backed(w, h))
    && Exclusive(w)
    && ReadingsCurrent(w)
  }

  ghost predicate Init(w: World) {
    && Known(w)
    && PidsUnique(w)
    && EntriesAuthored(w)
    && w.holders == {} && w.readings == map[]
    && w.journal == []
  }

  lemma StepKeepsAuthors(w: World, p: Process, a: Action)
    requires Inv(w) && Enabled(w, p, a)
    ensures EntriesAuthored(Apply(w, p, a))
    ensures forall s | Authored(w, s) :: Authored(Apply(w, p, a), s)
  {
  }

  lemma StepKeepsBacking(w: World, p: Process, a: Action, h: Holding)
    requires Inv(w) && Enabled(w, p, a) && h in Apply(w, p, a).holders
    ensures Backed(Apply(w, p, a), h)
  {
    if h in w.holders {
      assert Backed(w, h);
    }
  }

  lemma StepKeepsExclusion(w: World, p: Process, a: Action)
    requires Inv(w) && Enabled(w, p, a)
    ensures Exclusive(Apply(w, p, a))
  {
    var w' := Apply(w, p, a);
    forall g, h | g in w'.holders && h in w'.holders && g in w.holders && h in w.holders
      ensures !Clash(g, h)
    {
    }
    if a.Verify? {
      forall h | h in w.holders && h.path == a.path
        ensures h == Holding(a.path, p, a.suffix)
      {
        assert Backed(w, h);
        assert Entry(Owner, h.suffix) in OwnNames(a.suffix);
      }
    }
  }

  /** Only the holder writes a file, so nobody else's reading goes stale. */
  lemma StepKeepsReadings(w: World, p: Process, a: Action)
    requires Inv(w) && Enabled(w, p, a)
    ensures ReadingsCurrent(Apply(w, p, a))
  {
    forall h | h in w.holders && a.Publish? && h != Holding(a.path, p, a.suffix)
      ensures h.path != a.path
    {
      assert !Clash(h, Holding(a.path, p, a.suffix));
    }
  }

  lemma StepKeepsInv(w: World, p: Process, a: Action)
    requires Inv(w) && Enabled(w, p, a)
    ensures Inv(Apply(w, p, a))
  {
    StepKeepsAuthors(w, p, a);
    StepKeepsExclusion(w, p, a);
    StepKeepsReadings(w, p, a);
    forall h | h in Apply(w, p, a).holders
      ensures Backed(Apply(w, p, a), h)
    {
      StepKeepsBacking(w, p, a, h);
    }
  }

  lemma {:induction false} RunKeepsInv(r: Run)
    requires r.Valid() && Inv(r.First())
    ensures Inv(r.now)
  {
    if r.After? {
      RunKeepsInv(r.before);
      StepKeepsInv(r.before.now, r.process, r.action);
    }
  }

  lemma HoldersAgree(w: World, path: Path, p: Process, q: Process)
    requires Inv(w) && Holds(w, p, path) && Holds(w, q, path)
    ensures p == q && p in w.alive
  {
    var g :| g in w.holders && g.process == p && g.path == path;
    var h :| h in w.holders && h.process == q && h.path == path;
    assert Backed(w, g) && !Clash(g, h);
  }

  /** Two live processes never both hold the same lock, in any run at all. */
  lemma MutualExclusion(r: Run, path: Path, p: Process, q: Process)
    requires r.Valid() && Init(r.First())
    requires Holds(r.now, p, path) && Holds(r.now, q, path)
    ensures p == q && p in r.now.alive
  {
    RunKeepsInv(r);
    HoldersAgree(r.now, path, p, q);
  }

  /** On a cron health lock a live holder can lose its claim to anybody, its owner entry to
      nobody else; it goes on holding the lock, because the owner entry is what counts. */
  lemma LiveClaimMayBeTaken(w: World, h: Holding, p: Process, name: Name)
    requires Inv(w) && h in w.holders && h.path !in w.guarded && p in w.alive && p != h.process
    requires name in OwnNames(h.suffix) && HasEntry(w, h.path, name)
    ensures Enabled(w, p, Unlink(h.path, name)) <==> name.kind.Claim?
    ensures name.kind.Claim? ==> h in Apply(w, p, Unlink(h.path, name)).holders && Inv(Apply(w, p, Unlink(h.path, name)))
  {
    assert Backed(w, h);
    if name.kind.Claim? {
      StepKeepsInv(w, p, Unlink(h.path, name));
    }
  }

  // What the steps of others leave alone

  ghost function PublishedBy(journal: seq<Publication>, p: Process): seq<Publication> {
    if |journal| == 0 then []
    else
      var last := journal[|journal| - 1];
      PublishedBy(journal[..|journal| - 1], p) + if last.process == p then [last] else []
  }

  predicate HasEntry(w: World, path: Path, name: Name) {
    path in w.dirs && name in w.dirs[path].files
  }

  ghost predicate KeepsMine(w: World, w': World, path: Path, name: Name) {
    && (HasEntry(w, path, name) <==> HasEntry(w', path, name))
    && (HasEntry(w, path, name) && HasEntry(w', path, name) ==> w'.dirs[path].files[name] == w.dirs[path].files[name])
  }

  ghost predicate Protected(w: World, me: Process, path: Path, name: Name) {
    name.Entry? && AuthoredBy(w, name.suffix, me) && (name.kind.Owner? || path in w.guarded)
  }

  ghost predicate Grown(w: World, w': World) {
    && w'.guarded == w.guarded
    && w.now <= w'.now
    && (forall p | p in w.procs :: p in w'.procs && w'.procs[p] == w.procs[p])
    && (forall p | p in w.procs && p in w'.alive :: p in w.alive)
    && w.author <= w'.author
  }

  predicate SameProcesses(w: World, w': World) {
    w'.procs == w.procs && w'.alive == w.alive
  }

  ghost predicate KeepsEntries(w: World, w': World, me: Process) {
    forall path, name | Protected(w, me, path, name) :: KeepsMine(w, w', path, name)
  }

  ghost predicate KeepsHoldings(w: World, w': World, me: Process) {
    forall h: Holding | h.process == me :: h in w.holders <==> h in w'.holders
  }

  ghost predicate KeepsTexts(w: World, w': World, me: Process) {
    && (forall path | Holds(w, me, path) && path in w.texts :: path in w'.texts && w'.texts[path] == w.texts[path])
    && (forall path | Holds(w, me, path) && path in w'.texts :: path in w.texts)
    && PublishedBy(w'.journal, me) == PublishedBy(w.journal, me)
  }

  ghost predicate KeepsReadings(w: World, w': World, me: Process) {
    forall h: Holding | h.process == me ::
      (h in w.readings <==> h in w'.readings) && (h in w.readings && h in w'.readings ==> w'.readings[h] == w.readings[h])
  }

  /** What `me` may count on after others have run for a while. */
  ghost predicate Undisturbed(w: World, w': World, me: Process) {
    && Grown(w, w')
    && me in w'.alive
    && KeepsEntries(w, w', me)
    && KeepsHoldings(w, w', me)
    && KeepsTexts(w, w', me)
    && KeepsReadings(w, w', me)
  }

  lemma StepKeepsEntriesOf(w: World, p: Process, a: Action, me: Process)
    requires Inv(w) && Enabled(w, p, a) && me in w.alive && p != me
    ensures KeepsEntries(w, Apply(w, p, a), me)
  {
  }

  lemma StepKeepsHoldingsOf(w: World, p: Process, a: Action, me: Process)
    requires Inv(w) && Enabled(w, p, a) && me in w.alive && p != me
    ensures KeepsHoldings(w, Apply(w, p, a), me)
  {
    if a.Unlink? {
      forall h | h in w.holders && h.process == me
        ensures Survives(w, h, a.path, a.name)
      {
        assert Backed(w, h);
      }
    }
  }

  lemma StepKeepsTextsOf(w: World, p: Process, a: Action, me: Process)
    requires Inv(w) && Enabled(w, p, a) && me in w.alive && p != me
    ensures KeepsTexts(w, Apply(w, p, a), me)
  {
    if a.Publish? {
      assert Apply(w, p, a).journal[..|w.journal|] == w.journal;
      if Holds(w, me, a.path) {
        assert Holds(w, p, a.path);
        HoldersAgree(w, a.path, me, p);
      }
    }
  }

  lemma StepKeepsReadingsOf(w: World, p: Process, a: Action, me: Process)
    requires Inv(w) && Enabled(w, p, a) && p != me
    ensures KeepsReadings(w, Apply(w, p, a), me)
  {
  }

  lemma StepGrows(w: World, p: Process, a: Action, me: Process)
    requires Inv(w) && Enabled(w, p, a) && me in w.alive && p != me
    ensures Grown(w, Apply(w, p, a)) && me in Apply(w, p, a).alive
  {
  }

  /** The clock and new processes disturb nobody, whoever is said to have caused them. */
  lemma BackgroundUndisturbing(w: World, p: Process, a: Action, me: Process)
    requires Inv(w) && Enabled(w, p, a) && me in w.alive && (a.Tick? || a.Spawn?)
    ensures Undisturbed(w, Apply(w, p, a), me)
  {
  }

  lemma StepUndisturbing(w: World, p: Process, a: Action, me: Process)
    requires Inv(w) && Enabled(w, p, a) && me in w.alive
    requires p != me || a.Tick? || a.Spawn?
    ensures Undisturbed(w, Apply(w, p, a), me)
  {
    if p != me {
      StepGrows(w, p, a, me);
      StepKeepsEntriesOf(w, p, a, me);
      StepKeepsHoldingsOf(w, p, a, me);
      StepKeepsTextsOf(w, p, a, me);
      StepKeepsReadingsOf(w, p, a, me);
    } else {
      BackgroundUndisturbing(w, p, a, me);
    }
  }

  lemma UndisturbedTransitive(w0: World, w1: World, w2: World, me: Process)
    requires Undisturbed(w0, w1, me) && Undisturbed(w1, w2, me)
    ensures Undisturbed(w0, w2, me)
  {
    forall path, name | Protected(w0, me, path, name)
      ensures KeepsMine(w0, w2, path, name)
    {
      assert Protected(w1, me, path, name);
      assert KeepsMine(w0, w1, path, name) && KeepsMine(w1, w2, path, name);
    }
    forall path | Holds(w0, me, path)
      ensures Holds(w1, me, path)
    {
      var h :| h in w0.holders && h.process == me && h.path == path;
      assert h in w1.holders;
    }
  }

  /** The steps of others, however many, leave `me` undisturbed. */
  lemma {:induction false} OthersLeaveMeUndisturbed(r: Run, me: Process)
    requires r.Valid() && r.WithoutMe(me) && Inv(r.First()) && me in r.First().alive
    ensures Inv(r.now) && Undisturbed(r.First(), r.now, me)
  {
    if r.After? {
      OthersLeaveMeUndisturbed(r.before, me);
      StepKeepsInv(r.before.now, r.process, r.action);
      StepUndisturbing(r.before.now, r.process, r.action, me);
      UndisturbedTransitive(r.First(), r.before.now, r.now, me);
    }
  }

  /** On a runtime lock both entries of a live holder stay, as written, and it goes on holding
      the lock, whatever all other processes do for however long. */
  lemma HolderKeepsBothEntries(r: Run, h: Holding, name: Name)
    requires r.Valid() && r.WithoutMe(h.process) && Inv(r.First())
    requires h in r.First().holders && h.path in r.First().guarded && name in OwnNames(h.suffix)
    ensures h in r.now.holders && HasEntry(r.now, h.path, name) && HasEntry(r.First(), h.path, name)
    ensures r.now.dirs[h.path].files[name] == r.First().dirs[h.path].files[name]
  {
    var w := r.First();
    assert Backed(w, h);
    OthersLeaveMeUndisturbed(r, h.process);
    assert Protected(w, h.process, h.path, name);
    assert KeepsMine(w, r.now, h.path, name);
  }

  // What a process's own steps on one lock leave alone

  ghost predicate KeepsOthersOf(w: World, w': World, me: Process, path: Path) {
    && (forall q, name | q != path && Protected(w, me, q, name) :: KeepsMine(w, w', q, name))
    && (forall h: Holding | h.process == me && h.path != path :: h in w.holders <==> h in w'.holders)
  }

  /** What `me` still knows after working on `path` among the steps of others. */
  ghost predicate Elsewhere(w: World, w': World, me: Process, path: Path) {
    && Grown(w, w')
    && me in w'.alive
    && KeepsOthersOf(w, w', me, path)
    && PublishedBy(w'.journal, me) == PublishedBy(w.journal, me)
  }

  predicate OnLock(a: Action, path: Path) {
    match a
    case Draw => true
    case Mkdir(q, _) => q == path
    case Create(q, _) => q == path
    case Fill(q, _) => q == path
    case Unlink(q, _) => q == path
    case Rmdir(q) => q == path
    case Verify(q, _) => q == path
    case Read(q, _) => q == path
    case _ => false
  }

  lemma OwnStepElsewhere(w: World, me: Process, a: Action, path: Path)
    requires Inv(w) && Enabled(w, me, a) && me in w.alive && OnLock(a, path)
    ensures Elsewhere(w, Apply(w, me, a), me, path)
  {
  }

  lemma UndisturbedElsewhere(w: World, w': World, me: Process, path: Path)
    requires Undisturbed(w, w', me)
    ensures Elsewhere(w, w', me, path)
  {
  }

  lemma ElsewhereTransitive(w0: World, w1: World, w2: World, me: Process, path: Path)
    requires Elsewhere(w0, w1, me, path) && Elsewhere(w1, w2, me, path)
    ensures Elsewhere(w0, w2, me, path)
  {
    forall q, name | q != path && Protected(w0, me, q, name)
      ensures KeepsMine(w0, w2, q, name)
    {
      assert Protected(w1, me, q, name);
      assert KeepsMine(w0, w1, q, name) && KeepsMine(w1, w2, q, name);
    }
  }

  // Counters

  ghost function RunsOf(journal: seq<Publication>, path: Path): Counts {
    if |journal| == 0 then ZERO
    else
      var last := journal[|journal| - 1];
      var before := RunsOf(journal[..|journal| - 1], path);
      if last.path == path then AddRun(before, last.outcome) else before
  }

  function Plus(c: Counts, d: Counts): Counts {
    Counts(c.success + d.success, c.failure + d.failure)
  }

  /** Whatever the interleaving, a metric file counts every publication made under its lock,
      each exactly once, as long as the totals fit a safe integer: although reading and
      writing are two steps, the lock keeps every other writer out between them. */
  lemma NoLostUpdates(r: Run, path: Path)
    requires r.Valid() && Init(r.First())
    requires Storable(Plus(CountsAt(r.First(), path), RunsOf(r.now.journal, path)))
    ensures CountsAt(r.now, path) == Plus(CountsAt(r.First(), path), RunsOf(r.now.journal, path))
  {
    var file := (w: World) => CountsAt(w, path);
    forall w, p, a | Inv(w) && Enabled(w, p, a)
      ensures OneMore(RunsOf(w.journal, path), file(w), RunsOf(Apply(w, p, a).journal, path), file(Apply(w, p, a)))
    {
      OneMoreStep(w, p, a, path);
    }
    CountedStepByStep(r, path, file);
  }

  lemma {:induction false} CountedStepByStep(r: Run, path: Path, file: World -> Counts)
    requires r.Valid() && Init(r.First())
    requires forall w, p, a | Inv(w) && Enabled(w, p, a) ::
      OneMore(RunsOf(w.journal, path), file(w), RunsOf(Apply(w, p, a).journal, path), file(Apply(w, p, a)))
    requires Storable(Plus(file(r.First()), RunsOf(r.now.journal, path)))
    ensures file(r.now) == Plus(file(r.First()), RunsOf(r.now.journal, path))
  {
    match r
    case Start(w) =>
    case After(before, p, a, now) =>
      RunKeepsInv(before);
      CountedStepByStep(before, path, file);
  }

  /** Either nothing was counted, or one run was counted on both sides. */
  ghost predicate OneMore(was: Counts, had: Counts, now: Counts, has: Counts) {
    || (now == was && has == had)
    || (exists o :: now == AddRun(was, o) && (Storable(AddRun(had, o)) ==> has == AddRun(had, o)))
  }

  lemma OneMoreStep(w: World, p: Process, a: Action, path: Path)
    requires Inv(w) && Enabled(w, p, a)
    ensures var w' := Apply(w, p, a);
      OneMore(RunsOf(w.journal, path), CountsAt(w, path), RunsOf(w'.journal, path), CountsAt(w', path))
  {
    StepCounts(w, p, a, path);
  }

  lemma StepCounts(w: World, p: Process, a: Action, path: Path)
    requires Inv(w) && Enabled(w, p, a)
    ensures var w' := Apply(w, p, a);
      if a.Publish? && a.path == path then
        && RunsOf(w'.journal, path) == AddRun(RunsOf(w.journal, path), a.outcome)
        && (var c := AddRun(CountsAt(w, path), a.outcome); CountsAt(w', path) == c <==> Storable(c))
      else
        RunsOf(w'.journal, path) == RunsOf(w.journal, path) && CountsAt(w', path) == CountsAt(w, path)
  {
    if a.Publish? {
      assert Apply(w, p, a).journal[..|w.journal|] == w.journal;
      assert w.readings[Holding(a.path, p, a.suffix)] == TextAt(w, a.path);
      EscapedLabelIsOneLine(a.path);
      RenderRoundTrip(EscapeLabel(a.path), a.code, AddRun(CountsAt(w, a.path), a.outcome), a.timestamp);
    }
  }

  /** The limit is real: one more run past the largest safe integer makes the file
      read as no runs, so everything counted before is lost. */
  lemma UpdatesAreLostPastTheSafeRange(w: World, p: Process, a: Action)
    requires Inv(w) && Enabled(w, p, a) && a.Publish?
    ensures CountsAt(Apply(w, p, a), a.path) == AddRun(CountsAt(w, a.path), a.outcome)
       <==> Storable(AddRun(CountsAt(w, a.path), a.outcome))
  {
    StepCounts(w, p, a, a.path);
  }

  /** The lock is what it takes: had two processes both read before both publish, as the
      lock forbids, one of the two runs would be missing from the file. */
  lemma WithoutTheLockUpdatesAreLost(w: World, p: Process, q: Process, a: Action, b: Action)
    requires Known(w) && a.Publish? && b.Publish? && a.path == b.path && p != q && a.outcome == b.outcome
    requires Enabled(w, p, a) && Enabled(w, q, b)
    requires w.readings[Holding(a.path, p, a.suffix)] == TextAt(w, a.path) == w.readings[Holding(b.path, q, b.suffix)]
    ensures var w1 := Apply(w, p, a);
      Enabled(w1, q, b) && CountsAt(Apply(w1, q, b), a.path) == CountsAt(w1, a.path)
    ensures !Inv(w)
  {
    var c := AddRun(CountsAt(w, a.path), a.outcome);
    EscapedLabelIsOneLine(a.path);
    RenderRoundTrip(EscapeLabel(a.path), a.code, c, a.timestamp);
    RenderRoundTrip(EscapeLabel(a.path), b.code, c, b.timestamp);
    assert Clash(Holding(a.path, p, a.suffix), Holding(b.path, q, b.suffix));
  }

  /** The exit code that was published last for this path. */
  ghost function LastCode(journal: seq<Publication>, path: Path): Option<int> {
    if |journal| == 0 then None
    else
      var last := journal[|journal| - 1];
      if last.path == path then Some(last.code) else LastCode(journal[..|journal| - 1], path)
  }

  /** The file's first line is about this exit code. */
  ghost predicate SaysCode(w: World, path: Path, code: int) {
    path in w.texts && RawLines(w.texts[path])[0] == ExitLine(EscapeLabel(path), code)
  }

  lemma StepSaysCode(w: World, p: Process, a: Action, path: Path)
    requires Inv(w) && Enabled(w, p, a)
    ensures var w' := Apply(w, p, a);
      if a.Publish? && a.path == path then LastCode(w'.journal, path) == Some(a.code) && SaysCode(w', path, a.code)
      else LastCode(w'.journal, path) == LastCode(w.journal, path) && TextAt(w', path) == TextAt(w, path)
  {
    if a.Publish? {
      assert Apply(w, p, a).journal[..|w.journal|] == w.journal;
      var c := AddRun(CountsIn(a.path, w.readings[Holding(a.path, p, a.suffix)]), a.outcome);
      EscapedLabelIsOneLine(a.path);
      FirstLineIsExitCode(EscapeLabel(a.path), a.code, c, a.timestamp);
    }
  }

  /** In every run the file says the exit code of the last publication. */
  lemma {:induction false} LastCodeIsWritten(r: Run, path: Path)
    requires r.Valid() && Init(r.First())
    ensures LastCode(r.now.journal, path).Some? ==> SaysCode(r.now, path, LastCode(r.now.journal, path).value)
  {
    if r.After? {
      RunKeepsInv(r.before);
      LastCodeIsWritten(r.before, path);
      StepSaysCode(r.before.now, r.process, r.action, path);
    }
  }
}
