/** The calls a process makes on its host.  Before each call takes effect, the
    other processes run for a while; the call itself is one atomic step. */
module Syscalls {
  import opened Common
  import opened CronMetric
  import opened Host

  datatype Stats = Stats(ino: nat, mtime: nat)

  predicate Exact(w: World, path: Path, name: Name) {
    path in w.dirs && name in w.dirs[path].files && name.Entry? && w.dirs[path].files[name] == Some(name.suffix)
  }

  ghost predicate AllAuthored(w: World, names: set<Name>) {
    forall n | n in names && n.Entry? :: Authored(w, n.suffix)
  }

  ghost predicate ByTheDead(w: World, s: Suffix) {
    Authored(w, s) && w.author[s.nonce] !in w.alive
  }

  class Machine {
    var w: World

    /** Where the current lock operation began. */
    ghost var entered: World

    /** The worlds passed so far, step by step, whoever took the steps. */
    ghost var passed: seq<World>

    /** What inspecting a pid reports: its start token if one can be read. */
    const startToken: (World, nat) -> Option<string>

    /** What signalling a pid reports. */
    const pidAlive: (World, nat) -> bool

    constructor (w: World, startToken: (World, nat) -> Option<string>, pidAlive: (World, nat) -> bool)
      ensures this.w == w && this.startToken == startToken && this.pidAlive == pidAlive
      ensures Recorded() && passed == [w]
    {
      this.w := w;
      this.passed := [w];
      this.entered := w;
      this.startToken := startToken;
      this.pidAlive := pidAlive;
    }

    /** Inspection never reports another token for a live process, and a signal
        never misses one.  About dead pids they may say anything. */
    ghost predicate Honest() {
      forall v, p {:trigger HonestAbout(v, p)} | Known(v) && p in v.alive :: HonestAbout(v, p)
    }

    predicate HonestAbout(v: World, p: Process) {
      p in v.procs ==>
        && startToken(v, v.procs[p].pid) in {None, Some(v.procs[p].token)}
        && pidAlive(v, v.procs[p].pid)
    }

    ghost predicate Recorded()
      reads this
    {
      |passed| > 0 && passed[|passed| - 1] == w && Linked(passed)
    }

    /** On a calm machine the processes stay the same as well. */
    twostate predicate Going(calm: bool)
      reads this
    {
      Onward() && (calm ==> SameProcesses(old(w), w))
    }

    /** What probing reports depends on the processes alone, not on when it is asked. */
    ghost predicate Steady() {
      forall v, v', pid {:trigger startToken(v, pid), startToken(v', pid)} {:trigger pidAlive(v, pid), pidAlive(v', pid)} |
        SameProcesses(v, v') :: startToken(v, pid) == startToken(v', pid) && pidAlive(v, pid) == pidAlive(v', pid)
    }

    /** The place of the present world among those passed. */
    ghost function Moment(): nat
      reads this
    {
      if |passed| > 0 then |passed| - 1 else 0
    }

    ghost predicate Ready(me: Process)
      reads this
    {
      Honest() && Inv(w) && me in w.alive && Recorded()
    }

    /** The machine has gone on from where it was, and kept the worlds it had passed. */
    twostate predicate Onward()
      reads this
    {
      Grown(old(w), w) && old(passed) <= passed
    }

    /** In the middle of an operation of `me` on the lock at `path`. */
    ghost predicate Working(me: Process, path: Path)
      reads this
    {
      Ready(me) && Elsewhere(entered, w, me, path)
    }

    ghost method Enter(me: Process, path: Path)
      requires Ready(me)
      modifies this`entered
      ensures Working(me, path) && entered == w
    {
      entered := w;
    }

    /** The other processes run: any number of steps, in any order.  A calm
        machine is one where they do nothing. */
    method Others(me: Process, ghost path: Path, calm: bool)
      requires Working(me, path)
      modifies this`w, this`passed
      ensures Working(me, path) && Going(calm) && Undisturbed(old(w), w, me)
      ensures calm ==> w == old(w)
    {
      if !calm {
        var r: Run :| r.First() == w && r.Valid() && r.WithoutMe(me) by {
          assert Start(w).First() == w && Start(w).Valid() && Start(w).WithoutMe(me);
        }
        LetRun(me, path, r);
      } else {
        assert Undisturbed(w, w, me);
      }
    }

    method LetRun(me: Process, ghost path: Path, r: Run)
      requires Working(me, path) && r.First() == w && r.Valid() && r.WithoutMe(me)
      modifies this`w, this`passed
      ensures Working(me, path) && Onward() && Undisturbed(old(w), w, me)
    {
      RunIsLinked(r);
      JoinedIsLinked(passed, r.Worlds());
      OthersLeaveMeUndisturbed(r, me);
      UndisturbedElsewhere(w, r.now, me, path);
      ElsewhereTransitive(entered, w, r.now, me, path);
      w := r.now;
      passed := Joined(passed, r.Worlds());
    }

    method Move(me: Process, ghost a: Action, next: World)
      requires Ready(me) && Takes(w, me, a, next) && me in next.alive
      modifies this`w, this`passed
      ensures Ready(me) && old(passed) <= passed && w == next
    {
      StepKeepsInv(w, me, a);
      OneMoreLink(passed, me, a, next);
      w := next;
      passed := passed + [w];
    }

    /** One step of `me` on the lock at `path`. */
    method Take(me: Process, ghost path: Path, ghost a: Action, next: World)
      requires Working(me, path) && Takes(w, me, a, next) && OnLock(a, path)
      modifies this`w, this`passed
      ensures Working(me, path) && Going(true) && w == next
    {
      OwnStepElsewhere(w, me, a, path);
      ElsewhereTransitive(entered, w, next, me, path);
      Move(me, a, next);
    }

    method Draw(me: Process, ghost path: Path, calm: bool) returns (nonce: nat, ghost mid: World)
      requires Working(me, path)
      modifies this`w, this`passed
      ensures Going(calm)
      ensures Working(me, path) && Grown(old(w), mid) && me in mid.alive && (calm ==> mid == old(w))
      ensures Takes(mid, me, Action.Draw, w) && nonce == |mid.author|
    {
      Others(me, path, calm);
      mid := w;
      nonce := |w.author|;
      Take(me, path, Action.Draw, w.(author := w.author + [me]));
    }

    method Clock() returns (now: nat)
      ensures now == w.now
    {
      now := w.now;
    }

    method Mkdir(me: Process, path: Path, calm: bool) returns (ok: bool, ghost mid: World, ghost ino: nat)
      requires Working(me, path)
      modifies this`w, this`passed
      ensures Going(calm)
      ensures Working(me, path) && Undisturbed(old(w), mid, me) && (calm ==> mid == old(w))
      ensures ok == (path !in mid.dirs)
      ensures if ok then Takes(mid, me, Action.Mkdir(path, ino), w) else w == mid
    {
      Others(me, path, calm);
      mid := w;
      ok := path !in w.dirs;
      var newIno: nat := *;
      ino := newIno;
      if ok {
        Take(me, path, Action.Mkdir(path, newIno), w.(dirs := w.dirs[path := Directory(newIno, w.now, map[])]));
      }
    }

    method Stat(me: Process, path: Path, calm: bool) returns (stats: Option<Stats>)
      requires Working(me, path)
      modifies this`w, this`passed
      ensures Working(me, path) && Going(calm) && Undisturbed(old(w), w, me) && (calm ==> w == old(w))
      ensures stats == if path in w.dirs then Some(Stats(w.dirs[path].ino, w.dirs[path].mtime)) else None
    {
      Others(me, path, calm);
      stats := if path in w.dirs then Some(Stats(w.dirs[path].ino, w.dirs[path].mtime)) else None;
    }

    /** A process that lists exactly its own two entries holds the lock from then on. */
    method Readdir(me: Process, path: Path, mine: Option<Suffix>, calm: bool)
      returns (names: Option<set<Name>>, ghost mid: World)
      requires Working(me, path)
      requires mine.Some? ==> AuthoredBy(w, mine.value, me)
      modifies this`w, this`passed
      ensures Working(me, path) && Undisturbed(old(w), mid, me) && (calm ==> mid == old(w))
      ensures Grown(mid, w) && w.dirs == mid.dirs
      ensures names == if path in mid.dirs then Some(mid.dirs[path].files.Keys) else None
      ensures if names.Some? && mine.Some? && names.value == OwnNames(mine.value)
              then Takes(mid, me, Verify(path, mine.value), w) && Holding(path, me, mine.value) in w.holders
              else w == mid
      ensures Going(calm) && (names.Some? ==> AllAuthored(w, names.value))
    {
      Others(me, path, calm);
      mid := w;
      if path !in w.dirs {
        return None, w;
      }
      names := Some(w.dirs[path].files.Keys);
      if mine.Some? && names.value == OwnNames(mine.value) {
        var h := Holding(path, me, mine.value);
        Take(me, path, Verify(path, mine.value), w.(holders := w.holders + {h}, readings := w.readings - {h}));
      }
    }

    /** Whether the entry holds its own suffix line, complete. */
    method HasExactContents(me: Process, path: Path, name: Name, calm: bool) returns (exact: bool)
      requires Working(me, path)
      modifies this`w, this`passed
      ensures Working(me, path) && Going(calm) && Undisturbed(old(w), w, me) && (calm ==> w == old(w))
      ensures exact == Exact(w, path, name)
    {
      Others(me, path, calm);
      exact := Exact(w, path, name);
    }

    method Create(me: Process, path: Path, name: Name, calm: bool) returns (ok: bool, ghost mid: World)
      requires Working(me, path)
      requires name.Entry? && AuthoredBy(w, name.suffix, me)
      modifies this`w, this`passed
      ensures Going(calm)
      ensures Working(me, path) && Grown(old(w), mid) && me in mid.alive && (calm ==> mid == old(w))
      ensures ok ==> path in mid.dirs && !HasEntry(mid, path, name)
      ensures calm ==> ok == (path in mid.dirs && !HasEntry(mid, path, name))
      ensures if ok then Takes(mid, me, Action.Create(path, name), w) else w == mid
    {
      Others(me, path, calm);
      mid := w;
      var failing: bool := *;
      ok := path in w.dirs && name !in w.dirs[path].files && (calm || !failing);
      if ok {
        var d := w.dirs[path];
        Take(me, path, Action.Create(path, name), w.(dirs := w.dirs[path := Touch(d, w.now, d.files[name := None])]));
      }
    }

    /** Writes through the open descriptor; an entry unlinked meanwhile stays gone. */
    method Fill(me: Process, path: Path, name: Name, calm: bool) returns (ok: bool, ghost mid: World)
      requires Working(me, path)
      requires name.Entry? && AuthoredBy(w, name.suffix, me)
      modifies this`w, this`passed
      ensures Going(calm)
      ensures Working(me, path) && Grown(old(w), mid) && me in mid.alive && (calm ==> mid == old(w) && ok)
      ensures if ok && HasEntry(mid, path, name) then Takes(mid, me, Action.Fill(path, name), w) else w == mid
    {
      Others(me, path, calm);
      mid := w;
      var failing: bool := *;
      ok := calm || !failing;
      if ok && HasEntry(w, path, name) {
        var d := w.dirs[path];
        Take(me, path, Action.Fill(path, name), w.(dirs := w.dirs[path := d.(files := d.files[name := Some(name.suffix)])]));
      }
    }

    method Unlink(me: Process, path: Path, name: Name, calm: bool) returns (ok: bool, ghost mid: World)
      requires Working(me, path)
      requires MayUnlink(w, me, path, name)
      modifies this`w, this`passed
      ensures Working(me, path) && Inv(mid) && Undisturbed(old(w), mid, me) && (calm ==> mid == old(w))
      ensures Going(calm)
      ensures ok == HasEntry(mid, path, name) && MayUnlink(mid, me, path, name)
      ensures if ok then Takes(mid, me, Action.Unlink(path, name), w) else w == mid
    {
      Others(me, path, calm);
      mid := w;
      MayStillUnlink(old(w), mid, me, path, name);
      ok := HasEntry(w, path, name);
      if ok {
        Take(me, path, Action.Unlink(path, name), Unlinked(w, path, name));
      }
    }

    method Rmdir(me: Process, path: Path, calm: bool) returns (ok: bool, ghost mid: World)
      requires Working(me, path)
      modifies this`w, this`passed
      ensures Going(calm)
      ensures Working(me, path) && Undisturbed(old(w), mid, me) && (calm ==> mid == old(w))
      ensures ok == (path in mid.dirs && mid.dirs[path].files == map[])
      ensures if ok then Takes(mid, me, Action.Rmdir(path), w) else w == mid
    {
      Others(me, path, calm);
      mid := w;
      ok := path in w.dirs && w.dirs[path].files == map[];
      if ok {
        Take(me, path, Action.Rmdir(path), w.(dirs := w.dirs - {path}));
      }
    }

    /** Whether the entry may still belong to a live process: the same start token
        decides it, and where tokens cannot be compared a live pid does. */
    method BelongsToLiveProcess(me: Process, ghost path: Path, s: Suffix, calm: bool) returns (live: bool)
      requires Working(me, path) && Authored(w, s)
      modifies this`w, this`passed
      ensures Working(me, path) && Going(calm) && Undisturbed(old(w), w, me) && (calm ==> w == old(w))
      ensures live == MayBeLive(w, s)
      ensures !live ==> ByTheDead(w, s)
    {
      Others(me, path, calm);
      var current := startToken(w, s.pid);
      var sameProcess := current.Some? && s.token.Some? && current.value == s.token.value;
      var mustFallBack := current.None? || s.token.None?;
      live := sameProcess || (mustFallBack && pidAlive(w, s.pid));
      if !live {
        NotLiveIsDead(w, s);
      }
    }

    predicate MayBeLive(v: World, s: Suffix) {
      var current := startToken(v, s.pid);
      if current.Some? && s.token.Some? then current.value == s.token.value else pidAlive(v, s.pid)
    }

    /** An entry that does not look live was written by a process that is dead. */
    lemma NotLiveIsDead(v: World, s: Suffix)
      requires Honest() && Inv(v) && Authored(v, s) && !MayBeLive(v, s)
      ensures ByTheDead(v, s)
    {
      var author := v.author[s.nonce];
      assert author in v.alive ==> HonestAbout(v, author);
    }

    /** Reads the metric file, which a holder of its lock does to add to it. */
    method ReadText(me: Process, path: Path, s: Suffix, calm: bool) returns (text: Option<string>, ghost mid: World)
      requires Working(me, path) && Holding(path, me, s) in w.holders
      modifies this`w, this`passed
      ensures Working(me, path) && Going(calm) && Undisturbed(old(w), mid, me) && (calm ==> mid == old(w))
      ensures text == if path in mid.texts then Some(mid.texts[path]) else None
      ensures Inv(mid) && Takes(mid, me, Action.Read(path, s), w)
    {
      Others(me, path, calm);
      mid := w;
      text := if path in w.texts then Some(w.texts[path]) else None;
      Take(me, path, Action.Read(path, s), w.(readings := w.readings[Holding(path, me, s) := text]));
    }

    /** Replaces the metric file by a rename, or fails and leaves it.  The text adds one run to
        what was read earlier, whatever the file says by now. */
    method ReplaceText(me: Process, path: Path, s: Suffix, text: string, outcome: Outcome, code: int,
                       ghost timestamp: nat, calm: bool) returns (ok: bool, ghost mid: World)
      requires Working(me, path) && Holding(path, me, s) in w.holders && Holding(path, me, s) in w.readings
      requires text == Render(EscapeLabel(path), code, AddRun(CountsIn(path, w.readings[Holding(path, me, s)]), outcome), timestamp)
      modifies this`w, this`passed
      ensures Ready(me) && Going(calm) && Inv(mid) && Undisturbed(old(w), mid, me) && (calm ==> mid == old(w) && ok)
      ensures if ok then Takes(mid, me, Action.Publish(path, s, outcome, code, timestamp), w) else w == mid
    {
      var h := Holding(path, me, s);
      Others(me, path, calm);
      mid := w;
      var failing: bool := *;
      ok := calm || !failing;
      if ok {
        Move(me, Action.Publish(path, s, outcome, code, timestamp),
             w.(texts := w.texts[path := text], readings := w.readings - {h},
                journal := w.journal + [Publication(path, me, outcome, code)]));
      }
    }
  }
}
