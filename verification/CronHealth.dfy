/** Publishing one cron run: the health lock, and the counter update it protects.

    The lock's recovery takes a lone old claim without asking whether its writer
    lives, so mutual exclusion rests on the owner entry alone. */
module CronHealth {
  import opened Common
  import opened CronMetric
  import opened Host
  import opened LockEntries
  import opened Syscalls

  const STALE_LOCK_MS := 30_000

  /** Another try may succeed, waiting is needed, or the lock is not understood. */
  datatype Recovery = Retry | Wait | Invalid

  // What a calm machine would do

  predicate StalePair(m: Machine, w: World, path: Path, s: Suffix) {
    path in w.dirs && w.dirs[path].files.Keys == OwnNames(s) && (ValidPid(s.pid) ==> !m.MayBeLive(w, s))
  }

  /** Old enough, and empty or a claim on its own -- whoever wrote it. */
  predicate StaleRemnant(w: World, path: Path) {
    && path in w.dirs
    && w.now - w.dirs[path].mtime > STALE_LOCK_MS
    && (|| w.dirs[path].files == map[]
        || exists n | n in w.dirs[path].files :: LoneClaim(w.dirs[path].files.Keys, n))
  }

  predicate LoneClaim(names: set<Name>, n: Name) {
    n.Entry? && n.kind.Claim? && names == {n}
  }

  predicate Stale(m: Machine, w: World, path: Path) {
    StaleRemnant(w, path)
    || (path in w.dirs && exists n | n in w.dirs[path].files :: n.Entry? && StalePair(m, w, path, n.suffix))
  }

  ghost predicate OnlyAt(w0: World, w: World, path: Path) {
    w.dirs - {path} == w0.dirs - {path} && w.now == w0.now
  }

  // Removing

  /** True when the directory is gone, whoever removed it; false when it is not empty. */
  method RemoveEmptyDirectory(m: Machine, me: Process, path: Path, calm: bool) returns (gone: bool)
    requires m.Working(me, path)
    modifies m`w, m`passed
    ensures m.Working(me, path) && m.Going(calm)
    ensures gone ==> path !in m.w.dirs
    ensures calm ==> OnlyAt(old(m.w), m.w, path) && gone == (path !in old(m.w).dirs || old(m.w).dirs[path].files == map[])
    ensures calm && !gone ==> m.w == old(m.w)
  {
    var ok, mid := m.Rmdir(me, path, calm);
    gone := ok || path !in m.w.dirs;
  }

  method RemoveEntry(m: Machine, me: Process, path: Path, name: Name, calm: bool) returns (ok: bool)
    requires m.Working(me, path)
    requires MayUnlink(m.w, me, path, name)
    modifies m`w, m`passed
    ensures m.Working(me, path) && m.Going(calm)
    ensures calm ==> OnlyAt(old(m.w), m.w, path) && ok == HasEntry(old(m.w), path, name)
    ensures calm && path in old(m.w).dirs ==>
      path in m.w.dirs && m.w.dirs[path].files == old(m.w).dirs[path].files - {name}
    ensures calm && path !in old(m.w).dirs ==> path !in m.w.dirs
  {
    ghost var mid;
    ok, mid := m.Unlink(me, path, name, calm);
  }

  /** Both entries, the owner first. */
  method RemoveBoth(m: Machine, me: Process, path: Path, s: Suffix, calm: bool) returns (ok: bool)
    requires m.Working(me, path) && path !in m.w.guarded
    requires MayUnlink(m.w, me, path, Entry(Owner, s))
    modifies m`w, m`passed
    ensures m.Working(me, path) && m.Going(calm)
    ensures calm && path in old(m.w).dirs && old(m.w).dirs[path].files.Keys == OwnNames(s) ==>
      ok && OnlyAt(old(m.w), m.w, path) && path in m.w.dirs && m.w.dirs[path].files == map[]
  {
    ok := RemoveEntry(m, me, path, Entry(Owner, s), calm);
    if ok {
      ok := RemoveEntry(m, me, path, Entry(Claim, s), calm);
    }
  }

  // Recovery

  /** On a calm machine: what recovery finds is gone, and nothing else changed. */
  ghost predicate Recovered(w0: World, w: World, path: Path, r: Recovery) {
    r.Retry? && path !in w.dirs && OnlyAt(w0, w, path)
  }

  ghost predicate LeftAlone(w0: World, w: World, r: Recovery) {
    !r.Retry? && w == w0
  }

  /** The owner goes first; a file missing already means another process is at it. */
  method RemoveDeadPair(m: Machine, me: Process, path: Path, s: Suffix, calm: bool) returns (r: Recovery)
    requires m.Working(me, path) && path !in m.w.guarded
    requires ByTheDead(m.w, s)
    modifies m`w, m`passed
    ensures m.Working(me, path) && m.Going(calm)
    ensures calm && path in old(m.w).dirs && old(m.w).dirs[path].files.Keys == OwnNames(s) ==> Recovered(old(m.w), m.w, path, r)
  {
    var ok := RemoveBoth(m, me, path, s, calm);
    if !ok {
      return Retry;
    }
    var gone := RemoveEmptyDirectory(m, me, path, calm);
    return if gone then Retry else Wait;
  }

  method RecoverPair(m: Machine, me: Process, path: Path, s: Suffix, calm: bool) returns (r: Recovery)
    requires m.Working(me, path) && path !in m.w.guarded
    requires Authored(m.w, s)
    modifies m`w, m`passed
    ensures m.Working(me, path) && m.Going(calm)
    ensures calm && path in old(m.w).dirs && old(m.w).dirs[path].files.Keys == OwnNames(s) ==>
      if StalePair(m, old(m.w), path, s) then Recovered(old(m.w), m.w, path, r) else LeftAlone(old(m.w), m.w, r)
  {
    if ValidPid(s.pid) {
      var live := m.BelongsToLiveProcess(me, path, s, calm);
      if live {
        return Wait;
      }
    }
    r := RemoveDeadPair(m, me, path, s, calm);
  }

  /** No liveness check: the claim alone protects nothing. */
  method RecoverLoneClaim(m: Machine, me: Process, path: Path, claim: Name, calm: bool) returns (r: Recovery)
    requires m.Working(me, path) && path !in m.w.guarded
    requires claim.Entry? && claim.kind.Claim?
    modifies m`w, m`passed
    ensures m.Working(me, path) && m.Going(calm)
    ensures calm && path in old(m.w).dirs && old(m.w).dirs[path].files.Keys == {claim} ==> Recovered(old(m.w), m.w, path, r)
  {
    var ok := RemoveEntry(m, me, path, claim, calm);
    if !ok {
      return Retry;
    }
    var gone := RemoveEmptyDirectory(m, me, path, calm);
    return if gone then Retry else Wait;
  }

  lemma StaleCases(m: Machine, w: World, path: Path)
    requires path in w.dirs
    ensures var names := w.dirs[path].files.Keys;
      && (names == {} ==> (Stale(m, w, path) <==> w.now - w.dirs[path].mtime > STALE_LOCK_MS))
      && (forall s :: names == OwnNames(s) ==> (Stale(m, w, path) <==> StalePair(m, w, path, s)))
      && (forall n :: LoneClaim(names, n) ==> (Stale(m, w, path) <==> w.now - w.dirs[path].mtime > STALE_LOCK_MS))
      && ((&& names != {}
           && (forall n | n in names && n.Entry? :: names != OwnNames(n.suffix))
           && (forall n | n in names :: !LoneClaim(names, n))) ==> !Stale(m, w, path))
  {
    var names := w.dirs[path].files.Keys;
    forall s | names == OwnNames(s)
      ensures Stale(m, w, path) <==> StalePair(m, w, path, s)
    {
      assert Entry(Owner, s) in names && Entry(Claim, s) in names;
      assert Entry(Owner, s) != Entry(Claim, s);
    }
    forall n | LoneClaim(names, n)
      ensures Stale(m, w, path) <==> w.now - w.dirs[path].mtime > STALE_LOCK_MS
    {
      assert n in names;
      forall s
        ensures names != OwnNames(s)
      {
        assert Entry(Owner, s) in OwnNames(s) && Entry(Claim, s) in OwnNames(s);
      }
    }
  }

  /** Acts on a directory of this age and with these names. */
  method RecoverListed(m: Machine, me: Process, path: Path, mtime: nat, names: set<Name>, calm: bool) returns (r: Recovery)
    requires m.Working(me, path) && path !in m.w.guarded
    requires AllAuthored(m.w, names)
    modifies m`w, m`passed
    ensures m.Working(me, path) && m.Going(calm)
    ensures calm && path in old(m.w).dirs && old(m.w).dirs[path].mtime == mtime && old(m.w).dirs[path].files.Keys == names ==>
      if Stale(m, old(m.w), path) then Recovered(old(m.w), m.w, path, r) else LeftAlone(old(m.w), m.w, r)
  {
    if path in m.w.dirs {
      StaleCases(m, m.w, path);
    }
    var now := m.Clock();
    if names == {} {
      if now - mtime <= STALE_LOCK_MS {
        return Wait;
      }
      var gone := RemoveEmptyDirectory(m, me, path, calm);
      return if gone then Retry else Wait;
    }
    if owner :| owner in names && owner.Entry? && owner.kind.Owner? && names == OwnNames(owner.suffix) {
      r := RecoverPair(m, me, path, owner.suffix, calm);
      return;
    }
    if now - mtime <= STALE_LOCK_MS {
      return Wait;
    }
    if claim :| claim in names && LoneClaim(names, claim) {
      r := RecoverLoneClaim(m, me, path, claim, calm);
      return;
    }
    return Invalid;
  }

  method RecoverCronHealthLock(m: Machine, me: Process, path: Path, calm: bool) returns (r: Recovery)
    requires m.Working(me, path) && path !in m.w.guarded
    modifies m`w, m`passed
    ensures m.Working(me, path) && m.Going(calm)
    ensures calm ==>
      if path !in old(m.w).dirs || Stale(m, old(m.w), path) then Recovered(old(m.w), m.w, path, r)
      else LeftAlone(old(m.w), m.w, r)
  {
    var stats := m.Stat(me, path, calm);
    if stats.None? {
      return Retry;
    }
    var listing, mid := m.Readdir(me, path, None, calm);
    if listing.None? {
      return Retry;
    }
    r := RecoverListed(m, me, path, stats.value.mtime, listing.value, calm);
  }

  // Acquisition

  ghost predicate HoldsLock(w: World, me: Process, path: Path, s: Suffix) {
    AuthoredBy(w, s, me) && Holding(path, me, s) in w.holders
  }

  /** On a calm machine: the lock stands, complete, and nothing else changed. */
  ghost predicate Locked(w0: World, w: World, path: Path, s: Suffix) {
    path in w.dirs && w.dirs[path].files.Keys == OwnNames(s) && OnlyAt(w0, w, path)
  }

  /** On a calm machine: these names are gone from the lock, and so is the lock if that
      leaves it empty; nothing else changed. */
  ghost predicate CleanedUp(w0: World, w: World, path: Path, names: set<Name>) {
    && OnlyAt(w0, w, path)
    && if path !in w0.dirs || w0.dirs[path].files.Keys <= names then path !in w.dirs
       else path in w.dirs && w.dirs[path].files.Keys == w0.dirs[path].files.Keys - names
  }

  /** Takes back what an acquisition wrote: the owner if it got so far, the claim, the directory. */
  method CleanUp(m: Machine, me: Process, path: Path, s: Suffix, wroteOwner: bool, calm: bool)
    requires m.Working(me, path) && path !in m.w.guarded && AuthoredBy(m.w, s, me)
    modifies m`w, m`passed
    ensures m.Working(me, path) && m.Going(calm)
    ensures calm ==> CleanedUp(old(m.w), m.w, path, if wroteOwner then OwnNames(s) else {Entry(Claim, s)})
  {
    if wroteOwner {
      var owner := RemoveEntry(m, me, path, Entry(Owner, s), calm);
    }
    CleanUpClaim(m, me, path, s, calm);
  }

  method CleanUpClaim(m: Machine, me: Process, path: Path, s: Suffix, calm: bool)
    requires m.Working(me, path) && path !in m.w.guarded
    modifies m`w, m`passed
    ensures m.Working(me, path) && m.Going(calm)
    ensures calm ==> CleanedUp(old(m.w), m.w, path, {Entry(Claim, s)})
  {
    var claim := RemoveEntry(m, me, path, Entry(Claim, s), calm);
    if path in old(m.w).dirs {
      OneNameLess(old(m.w).dirs[path].files, Entry(Claim, s));
    }
    var gone := RemoveEmptyDirectory(m, me, path, calm);
  }

  lemma OneNameLess(files: map<Name, Option<Suffix>>, name: Name)
    ensures (files - {name}).Keys == files.Keys - {name}
    ensures files - {name} == map[] <==> files.Keys <= {name}
  {
    assert files - {name} == map[] <==> (files - {name}).Keys == {};
  }

  /** The directory made earlier shows exactly the two entries. */
  method HasOwnership(m: Machine, me: Process, path: Path, ino: nat, s: Suffix, calm: bool) returns (owned: bool)
    requires m.Working(me, path) && AuthoredBy(m.w, s, me)
    modifies m`w, m`passed
    ensures m.Working(me, path) && m.Going(calm)
    ensures owned ==> HoldsLock(m.w, me, path, s)
    ensures calm ==> m.w.dirs == old(m.w).dirs && m.w.now == old(m.w).now
    ensures (calm && path in old(m.w).dirs && old(m.w).dirs[path].ino == ino
             && old(m.w).dirs[path].files.Keys == OwnNames(s)) ==> owned
  {
    var stats := m.Stat(me, path, calm);
    if stats.None? {
      return false;
    }
    var names, mid := m.Readdir(me, path, Some(s), calm);
    return names.Some? && stats.value.ino == ino && names.value == OwnNames(s);
  }

  method WriteBoth(m: Machine, me: Process, path: Path, s: Suffix, calm: bool) returns (claimed: bool, owned: bool)
    requires m.Working(me, path) && AuthoredBy(m.w, s, me)
    modifies m`w, m`passed
    ensures m.Working(me, path) && m.Going(calm)
    ensures owned ==> claimed
    ensures calm && path in old(m.w).dirs && old(m.w).dirs[path].files == map[] ==>
      owned && Locked(old(m.w), m.w, path, s) && m.w.dirs[path].ino == old(m.w).dirs[path].ino
  {
    claimed, owned := false, false;
    claimed := WriteEntry(m, me, path, Entry(Claim, s), calm);
    if claimed {
      owned := WriteEntry(m, me, path, Entry(Owner, s), calm);
    }
  }

  /** Everything after the directory was made; whatever fails is cleaned up and thrown. */
  method TakeLock(m: Machine, me: Process, path: Path, s: Suffix, ino: nat, calm: bool) returns (taken: bool)
    requires m.Working(me, path) && path !in m.w.guarded && AuthoredBy(m.w, s, me)
    modifies m`w, m`passed
    ensures m.Working(me, path) && m.Going(calm)
    ensures taken ==> HoldsLock(m.w, me, path, s)
    ensures calm && path in old(m.w).dirs && old(m.w).dirs[path].files == map[] && old(m.w).dirs[path].ino == ino ==>
      taken && Locked(old(m.w), m.w, path, s)
  {
    var claimed, owned := WriteBoth(m, me, path, s, calm);
    if !owned {
      CleanUp(m, me, path, s, claimed, calm);
      return false;
    }
    taken := HasOwnership(m, me, path, ino, s, calm);
    if !taken {
      CleanUp(m, me, path, s, true, calm);
    }
  }

  method InspectAndTake(m: Machine, me: Process, path: Path, calm: bool) returns (r: Option<Suffix>)
    requires m.Working(me, path) && path !in m.w.guarded
    modifies m`w, m`passed
    ensures m.Working(me, path) && m.Going(calm)
    ensures r.Some? ==> HoldsLock(m.w, me, path, r.value)
    ensures calm && path in old(m.w).dirs && old(m.w).dirs[path].files == map[] ==>
      r.Some? && Locked(old(m.w), m.w, path, r.value)
  {
    var stats := m.Stat(me, path, calm);
    if stats.None? {
      var gone := RemoveEmptyDirectory(m, me, path, calm);
      return None;
    }
    r := TakeAsNew(m, me, path, stats.value.ino, calm);
  }

  /** Takes the directory under a suffix of its own. */
  method TakeAsNew(m: Machine, me: Process, path: Path, ino: nat, calm: bool) returns (r: Option<Suffix>)
    requires m.Working(me, path) && path !in m.w.guarded
    modifies m`w, m`passed
    ensures m.Working(me, path) && m.Going(calm)
    ensures r.Some? ==> HoldsLock(m.w, me, path, r.value)
    ensures calm && path in old(m.w).dirs && old(m.w).dirs[path].files == map[] && old(m.w).dirs[path].ino == ino ==>
      r.Some? && Locked(old(m.w), m.w, path, r.value)
  {
    var pid, token := OwnIdentity(m, me);
    var s := DrawSuffix(m, me, path, pid, token, calm);
    var taken := TakeLock(m, me, path, s, ino, calm);
    return if taken then Some(s) else None;
  }

  method MakeDirectory(m: Machine, me: Process, path: Path, calm: bool) returns (made: bool)
    requires m.Working(me, path)
    modifies m`w, m`passed
    ensures m.Working(me, path) && m.Going(calm)
    ensures calm ==> made == (path !in old(m.w).dirs)
    ensures calm ==>
      if made then path in m.w.dirs && m.w.dirs[path].files == map[] && OnlyAt(old(m.w), m.w, path) else m.w == old(m.w)
  {
    ghost var mid, ino;
    made, mid, ino := m.Mkdir(me, path, calm);
  }

  datatype Step = Took(lock: Option<Suffix>) | TryAgain | Pause | Threw

  method AttemptLock(m: Machine, me: Process, path: Path, calm: bool) returns (step: Step)
    requires m.Working(me, path) && path !in m.w.guarded
    modifies m`w, m`passed
    ensures m.Working(me, path) && m.Going(calm)
    ensures step.Took? && step.lock.Some? ==> HoldsLock(m.w, me, path, step.lock.value)
    ensures calm ==>
      if path !in old(m.w).dirs then step.Took? && step.lock.Some? && Locked(old(m.w), m.w, path, step.lock.value)
      else if Stale(m, old(m.w), path) then step == TryAgain && path !in m.w.dirs && OnlyAt(old(m.w), m.w, path)
      else (step == Pause || step == Threw) && m.w == old(m.w)
  {
    var made := MakeDirectory(m, me, path, calm);
    if made {
      var lock := InspectAndTake(m, me, path, calm);
      return Took(lock);
    }
    var r := RecoverCronHealthLock(m, me, path, calm);
    return match r case Retry => TryAgain case Wait => Pause case Invalid => Threw;
  }

  /** Tries until the deadline: `turns` is how many tries the clock allows. */
  method AcquireCronHealthLock(m: Machine, me: Process, path: Path, turns: nat, calm: bool) returns (r: Option<Suffix>)
    requires m.Working(me, path) && path !in m.w.guarded
    modifies m`w, m`passed
    ensures m.Working(me, path) && m.Going(calm)
    ensures r.Some? ==> HoldsLock(m.w, me, path, r.value)
    ensures calm && turns >= 2 && (path !in old(m.w).dirs || Stale(m, old(m.w), path)) ==>
      r.Some? && Locked(old(m.w), m.w, path, r.value)
    ensures calm && path in old(m.w).dirs && !Stale(m, old(m.w), path) ==> r.None? && m.w.dirs == old(m.w).dirs
  {
    var left := turns;
    while left > 0
      invariant m.Working(me, path) && m.Going(calm)
      invariant path !in m.w.guarded
      invariant calm && left == turns ==> m.w == old(m.w)
      invariant calm && turns >= 2 && (path !in old(m.w).dirs || Stale(m, old(m.w), path)) && left < turns ==>
        left == turns - 1 && path !in m.w.dirs && OnlyAt(old(m.w), m.w, path)
      invariant calm && path in old(m.w).dirs && !Stale(m, old(m.w), path) ==> m.w == old(m.w)
    {
      var step := AttemptLock(m, me, path, calm);
      if step.Took? {
        return step.lock;
      }
      if step.Threw? {
        return None;
      }
      left := left - 1;
    }
    return None;
  }

  // Publishing

  /** Gives the lock back; a missing entry or a directory that stays is reported. */
  method Release(m: Machine, me: Process, path: Path, s: Suffix, calm: bool) returns (ok: bool)
    requires m.Working(me, path) && path !in m.w.guarded && AuthoredBy(m.w, s, me)
    modifies m`w, m`passed
    ensures m.Working(me, path) && m.Going(calm)
    ensures ok ==> path !in m.w.dirs
    ensures calm && path in old(m.w).dirs && old(m.w).dirs[path].files.Keys == OwnNames(s) ==>
      ok && OnlyAt(old(m.w), m.w, path)
  {
    ok := RemoveBoth(m, me, path, s, calm);
    if ok {
      ok := RemoveEmptyDirectory(m, me, path, calm);
    }
  }

  /** The stored exit code is zero exactly for a success. */
  function NormalizedExitCode(supplied: int, outcome: Outcome): (code: int)
    ensures code == 0 <==> outcome.Success?
    ensures outcome.Failure? && supplied != 0 ==> code == supplied
  {
    if outcome.Success? then 0 else if supplied == 0 then 1 else supplied
  }

  /** What a holder knows after others ran: it still holds, and its counts stand. */
  ghost predicate StillLocked(w: World, w': World, me: Process, path: Path, s: Suffix) {
    && Grown(w, w')
    && HoldsLock(w', me, path, s)
    && CountsAt(w', path) == CountsAt(w, path)
    && KeepsReadings(w, w', me)
    && PublishedBy(w'.journal, me) == PublishedBy(w.journal, me)
  }

  lemma HolderKeepsCounts(w: World, w': World, me: Process, path: Path, s: Suffix)
    requires HoldsLock(w, me, path, s) && Undisturbed(w, w', me)
    ensures StillLocked(w, w', me, path, s)
  {
    assert Holding(path, me, s) in w'.holders;
    assert Holds(w, me, path);
  }

  /** The holder has read these counts, and means to add to them. */
  ghost predicate HasRead(w: World, me: Process, path: Path, s: Suffix, c: Counts) {
    HoldsLock(w, me, path, s) && Holding(path, me, s) in w.readings && CountsIn(path, w.readings[Holding(path, me, s)]) == c
  }

  method ReadCronRunCounts(m: Machine, me: Process, path: Path, s: Suffix, calm: bool) returns (c: Counts)
    requires m.Working(me, path) && HoldsLock(m.w, me, path, s)
    modifies m`w, m`passed
    ensures m.Working(me, path) && m.Going(calm) && PublishedBy(m.w.journal, me) == PublishedBy(old(m.w).journal, me)
    ensures HasRead(m.w, me, path, s, c) && c == CountsAt(m.w, path) == CountsAt(old(m.w), path)
    ensures calm ==> m.w.dirs == old(m.w).dirs
  {
    var text;
    ghost var mid;
    text, mid := m.ReadText(me, path, s, calm);
    HolderKeepsCounts(old(m.w), mid, me, path, s);
    if text.None? {
      return ZERO;
    }
    c := ParseCronRunCounts(text.value, EscapeLabel(path));
  }

  ghost predicate PublishedOnce(w0: World, w: World, me: Process, publication: Publication, wrote: bool) {
    PublishedBy(w.journal, me) == PublishedBy(w0.journal, me) + if wrote then [publication] else []
  }

  lemma ReplacingPublishes(w: World, me: Process, a: Action)
    requires Inv(w) && me in w.alive && Enabled(w, me, a) && a.Publish?
    ensures PublishedOnce(w, Apply(w, me, a), me, Publication(a.path, me, a.outcome, a.code), true)
    ensures Grown(w, Apply(w, me, a))
  {
    assert Apply(w, me, a).journal[..|w.journal|] == w.journal;
  }

  /** Adds one run to what was read, and so to what the file says at the moment of writing. */
  method ReplaceCounts(m: Machine, me: Process, path: Path, s: Suffix, code: int, outcome: Outcome, c: Counts, calm: bool)
    returns (wrote: bool)
    requires m.Working(me, path) && HasRead(m.w, me, path, s, c)
    modifies m`w, m`passed
    ensures m.Ready(me) && m.Going(calm)
    ensures PublishedOnce(old(m.w), m.w, me, Publication(path, me, outcome, code), wrote)
    ensures wrote && Storable(AddRun(CountsAt(old(m.w), path), outcome)) ==>
      CountsAt(m.w, path) == AddRun(CountsAt(old(m.w), path), outcome)
    ensures calm ==> wrote && m.w.dirs == old(m.w).dirs
  {
    var now := m.Clock();
    var text := Render(EscapeLabel(path), code, AddRun(c, outcome), now / 1000);
    ghost var mid;
    wrote, mid := m.ReplaceText(me, path, s, text, outcome, code, now / 1000, calm);
    HolderKeepsCounts(old(m.w), mid, me, path, s);
    if wrote {
      ReplacingPublishes(mid, me, Action.Publish(path, s, outcome, code, now / 1000));
      StepCounts(mid, me, Action.Publish(path, s, outcome, code, now / 1000), path);
    }
  }

  /** A success is first stamped in a file of its own, which may fail. */
  method StampSuccess(m: Machine, me: Process, path: Path, ghost s: Suffix, outcome: Outcome, ghost c: Counts, calm: bool)
    returns (ok: bool)
    requires m.Working(me, path) && HasRead(m.w, me, path, s, c)
    modifies m`w, m`passed
    ensures m.Working(me, path) && m.Going(calm) && PublishedBy(m.w.journal, me) == PublishedBy(old(m.w).journal, me)
    ensures HasRead(m.w, me, path, s, c)
    ensures calm ==> ok && m.w == old(m.w)
  {
    m.Others(me, path, calm);
    HolderKeepsCounts(old(m.w), m.w, me, path, s);
    var failing: bool := *;
    ok := calm || outcome.Failure? || !failing;
  }

  method ReadAndStamp(m: Machine, me: Process, path: Path, s: Suffix, outcome: Outcome, calm: bool)
    returns (previous: Counts, stamped: bool)
    requires m.Working(me, path) && HoldsLock(m.w, me, path, s)
    modifies m`w, m`passed
    ensures m.Working(me, path) && m.Going(calm) && PublishedBy(m.w.journal, me) == PublishedBy(old(m.w).journal, me)
    ensures HasRead(m.w, me, path, s, previous) && (calm ==> stamped && m.w.dirs == old(m.w).dirs)
  {
    previous := ReadCronRunCounts(m, me, path, s, calm);
    stamped := StampSuccess(m, me, path, s, outcome, previous, calm);
  }

  /** Counts the run while the lock is held. */
  method CountRun(m: Machine, me: Process, path: Path, s: Suffix, code: int, outcome: Outcome, calm: bool)
    returns (wrote: bool)
    requires m.Working(me, path) && HoldsLock(m.w, me, path, s)
    modifies m`w, m`passed
    ensures m.Ready(me) && m.Going(calm)
    ensures PublishedOnce(old(m.w), m.w, me, Publication(path, me, outcome, code), wrote)
    ensures calm ==> wrote && m.w.dirs == old(m.w).dirs
  {
    var previous, stamped := ReadAndStamp(m, me, path, s, outcome, calm);
    if !stamped {
      return false;
    }
    wrote := ReplaceCounts(m, me, path, s, code, outcome, previous, calm);
  }

  /** The runs on this path that others than `me` have published. */
  ghost function RunsOfOthers(journal: seq<Publication>, path: Path, me: Process): Counts {
    if |journal| == 0 then ZERO
    else
      var last := journal[|journal| - 1];
      var before := RunsOfOthers(journal[..|journal| - 1], path, me);
      if last.path == path && last.process != me then AddRun(before, last.outcome) else before
  }

  ghost predicate SetApart(journal: seq<Publication>, path: Path, me: Process) {
    RunsOf(journal, path) == Plus(RunsOf(PublishedBy(journal, me), path), RunsOfOthers(journal, path, me))
  }

  lemma {:induction false} RunsSetApart(journal: seq<Publication>, path: Path, me: Process)
    ensures SetApart(journal, path, me)
    decreases |journal|
  {
    if |journal| == 0 {
      assert PublishedBy(journal, me) == journal;
      assert RunsOf(journal, path) == ZERO == RunsOfOthers(journal, path, me);
    } else {
      var before, last := journal[..|journal| - 1], journal[|journal| - 1];
      RunsSetApart(before, path, me);
      SetApartGrows(before, last, path, me);
      assert journal == before + [last];
    }
  }

  lemma SetApartGrows(journal: seq<Publication>, p: Publication, path: Path, me: Process)
    requires SetApart(journal, path, me)
    ensures SetApart(journal + [p], path, me)
  {
    OneMoreApart(journal, p, path, me);
    OneMoreRun(journal, p, path);
    OneMoreRun(PublishedBy(journal, me), p, path);
    SumsGrow(RunsOf(PublishedBy(journal, me), path), RunsOfOthers(journal, path, me), p.outcome);
  }

  lemma SumsGrow(c: Counts, d: Counts, o: Outcome)
    ensures AddRun(Plus(c, d), o) == Plus(AddRun(c, o), d) == Plus(c, AddRun(d, o))
  {
  }

  lemma OneMoreApart(journal: seq<Publication>, p: Publication, path: Path, me: Process)
    ensures PublishedBy(journal + [p], me) == if p.process == me then PublishedBy(journal, me) + [p] else PublishedBy(journal, me)
    ensures RunsOfOthers(journal + [p], path, me)
      == if p.path == path && p.process != me then AddRun(RunsOfOthers(journal, path, me), p.outcome)
         else RunsOfOthers(journal, path, me)
  {
    assert (journal + [p])[..|journal|] == journal;
  }

  lemma OneMoreRun(journal: seq<Publication>, p: Publication, path: Path)
    ensures RunsOf(journal + [p], path) == if p.path == path then AddRun(RunsOf(journal, path), p.outcome) else RunsOf(journal, path)
  {
    assert (journal + [p])[..|journal|] == journal;
  }

  /** A file in the state `w` of a machine that began in the state `origin`. */
  ghost predicate CountsAll(origin: World, w: World, path: Path, mine: Counts, others: Counts) {
    CountsAt(w, path) == Plus(CountsAt(origin, path), Plus(mine, others))
  }

  /** With any number of writers at work since the machine began, a call that completes has
      added exactly its one run to what its own process had counted, and left what all others
      have counted; the file says the sum, while that is safe. */
  lemma CompletedCallCounts(passed: seq<World>, w0: World, me: Process, path: Path, outcome: Outcome, code: int)
    requires Linked(passed) && |passed| > 0 && Init(passed[0])
    requires PublishedOnce(w0, passed[|passed| - 1], me, Publication(path, me, outcome, code), true)
    requires Storable(Plus(CountsAt(passed[0], path), RunsOf(passed[|passed| - 1].journal, path)))
    ensures var w := passed[|passed| - 1];
      CountsAll(passed[0], w, path, AddRun(RunsOf(PublishedBy(w0.journal, me), path), outcome), RunsOfOthers(w.journal, path, me))
  {
    var w := passed[|passed| - 1];
    var r := LinkedIsRun(passed);
    NoLostUpdates(r, path);
    RunsSetApart(w.journal, path, me);
    OneMoreRun(PublishedBy(w0.journal, me), Publication(path, me, outcome, code), path);
  }

  /** Adds one run to one counter.  If the call completes, it made exactly one
      publication, of this outcome; if it throws, it made that one or none. */
  method WriteCronHealthMetric(m: Machine, me: Process, path: Path, exitCode: int, outcome: Outcome, turns: nat, calm: bool)
    returns (completed: bool)
    requires m.Ready(me) && path !in m.w.guarded
    modifies m
    ensures m.Ready(me) && m.Going(calm)
    ensures completed ==> PublishedOnce(old(m.w), m.w, me, Publication(path, me, outcome, NormalizedExitCode(exitCode, outcome)), true)
    ensures !completed ==> exists wrote :: PublishedOnce(old(m.w), m.w, me, Publication(path, me, outcome, NormalizedExitCode(exitCode, outcome)), wrote)
    ensures completed && Init(m.passed[0]) && Storable(Plus(CountsAt(m.passed[0], path), RunsOf(m.w.journal, path))) ==>
      CountsAll(m.passed[0], m.w, path, AddRun(RunsOf(PublishedBy(old(m.w).journal, me), path), outcome),
                RunsOfOthers(m.w.journal, path, me))
    ensures calm && turns >= 2 && (path !in old(m.w).dirs || Stale(m, old(m.w), path)) ==> completed && path !in m.w.dirs
    ensures calm && path in old(m.w).dirs && !Stale(m, old(m.w), path) ==> !completed
  {
    completed := PublishRun(m, me, path, NormalizedExitCode(exitCode, outcome), outcome, turns, calm);
    if completed && Init(m.passed[0]) && Storable(Plus(CountsAt(m.passed[0], path), RunsOf(m.w.journal, path))) {
      CompletedCallCounts(m.passed, old(m.w), me, path, outcome, NormalizedExitCode(exitCode, outcome));
    }
  }

  method PublishRun(m: Machine, me: Process, path: Path, code: int, outcome: Outcome, turns: nat, calm: bool)
    returns (completed: bool)
    requires m.Ready(me) && path !in m.w.guarded
    modifies m
    ensures m.Ready(me) && m.Going(calm)
    ensures completed ==> PublishedOnce(old(m.w), m.w, me, Publication(path, me, outcome, code), true)
    ensures !completed ==> exists wrote :: PublishedOnce(old(m.w), m.w, me, Publication(path, me, outcome, code), wrote)
    ensures calm && turns >= 2 && (path !in old(m.w).dirs || Stale(m, old(m.w), path)) ==> completed && path !in m.w.dirs
    ensures calm && path in old(m.w).dirs && !Stale(m, old(m.w), path) ==> !completed
  {
    m.Enter(me, path);
    var lock := AcquireCronHealthLock(m, me, path, turns, calm);
    if lock.None? {
      assert PublishedOnce(old(m.w), m.w, me, Publication(path, me, outcome, code), false);
      return false;
    }
    var wrote;
    wrote, completed := CountAndRelease(m, me, path, lock.value, code, outcome, calm);
    assert PublishedOnce(old(m.w), m.w, me, Publication(path, me, outcome, code), wrote);
  }

  method CountAndRelease(m: Machine, me: Process, path: Path, s: Suffix, code: int, outcome: Outcome, calm: bool)
    returns (wrote: bool, completed: bool)
    requires m.Working(me, path) && HoldsLock(m.w, me, path, s) && path !in m.w.guarded
    modifies m
    ensures m.Ready(me) && m.Going(calm)
    ensures PublishedOnce(old(m.w), m.w, me, Publication(path, me, outcome, code), wrote) && (completed ==> wrote)
    ensures calm && path in old(m.w).dirs && old(m.w).dirs[path].files.Keys == OwnNames(s) ==> completed && path !in m.w.dirs
  {
    wrote := CountRun(m, me, path, s, code, outcome, calm);
    m.Enter(me, path);
    var released := Release(m, me, path, s, calm);
    completed := wrote && released;
  }
}
