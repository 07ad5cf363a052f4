/** Ownership of runtime resources: several locks taken all-or-nothing, each a
    directory with a claim and an owner entry, with recovery of stale locks. */
module RuntimeGuard {
  import opened Common
  import opened Host
  import opened LockEntries
  import opened Syscalls

  /** A lock directory as read at some time. */
  datatype Snapshot = Snapshot(stats: Stats, entries: set<Name>)

  datatype HeldLock = HeldLock(path: Path, snapshot: Snapshot, suffix: Suffix)

  /** The one conflict reason of lock acquisition is that the lock is held. */
  datatype Acquired = Held(lock: HeldLock) | Conflict

  const ATTEMPTS := 3

  /** Entry names with a pid of zero or beyond the safe integers do not parse. */
  predicate Parses(name: Name) {
    name.Entry? && ValidPid(name.suffix.pid)
  }

  // What a calm machine would do

  predicate Shows(w: World, path: Path, snapshot: Snapshot) {
    && path in w.dirs
    && snapshot.stats == Stats(w.dirs[path].ino, w.dirs[path].mtime)
    && snapshot.entries == w.dirs[path].files.Keys
  }

  /** An abandoned lock: an old empty directory, an old lone claim, or a claim and
      an owner that agree, written in full by a process that is not live. */
  predicate Stale(m: Machine, w: World, path: Path, grace: nat) {
    path in w.dirs &&
    var d := w.dirs[path];
    var names := d.files.Keys;
    || (names == {} && w.now - d.mtime > grace)
    || (exists n | n in names :: AbandonedBy(m, w, path, n, grace))
  }

  predicate AbandonedBy(m: Machine, w: World, path: Path, n: Name, grace: nat)
    requires path in w.dirs
  {
    var d := w.dirs[path];
    && Parses(n)
    && !m.MayBeLive(w, n.suffix)
    && Exact(w, path, n)
    && (|| (d.files.Keys == {n} && n.kind.Claim? && w.now - d.mtime > grace)
        || (d.files.Keys == OwnNames(n.suffix) && Exact(w, path, Entry(Claim, n.suffix)) && Exact(w, path, Entry(Owner, n.suffix))))
  }

  /** What a calm removal attempt comes to. */
  ghost predicate Outcome(w0: World, w: World, path: Path, removable: bool, removed: bool) {
    && removed == removable
    && w.dirs == (if removed then w0.dirs - {path} else w0.dirs)
    && w.now == w0.now
  }

  /** Every entry is one that `me` may take away: of the suffix that is its own, or, with
      none given, a dead process's. */
  ghost predicate MayTake(w: World, me: Process, entries: set<Name>, mine: Option<Suffix>) {
    match mine
    case None => forall n | n in entries :: n.Entry? && ByTheDead(w, n.suffix)
    case Some(s) => AuthoredBy(w, s, me) && entries <= OwnNames(s)
  }

  lemma MayTakeStable(w: World, w': World, me: Process, entries: set<Name>, mine: Option<Suffix>)
    requires MayTake(w, me, entries, mine) && Grown(w, w')
    ensures MayTake(w', me, entries, mine)
  {
    forall n | n in entries && mine.None?
      ensures n.Entry? && ByTheDead(w', n.suffix)
    {
      assert ByTheDead(w, n.suffix);
    }
  }

  /** Of the two entries of its suffix `me` has these on the lock, and it holds the lock
      exactly if it has both. */
  ghost predicate Has(w: World, me: Process, path: Path, s: Suffix, names: set<Name>) {
    && path in w.guarded && AuthoredBy(w, s, me)
    && (forall n | n in OwnNames(s) :: HasEntry(w, path, n) <==> n in names)
    && (Holding(path, me, s) in w.holders <==> names == OwnNames(s))
  }

  lemma HasStill(w: World, w': World, me: Process, path: Path, s: Suffix, names: set<Name>)
    requires Has(w, me, path, s, names) && Undisturbed(w, w', me)
    ensures Has(w', me, path, s, names)
  {
    forall n | n in OwnNames(s)
      ensures HasEntry(w', path, n) <==> n in names
    {
      assert Protected(w, me, path, n);
      assert KeepsMine(w, w', path, n);
    }
  }

  lemma HasElsewhere(w: World, w': World, me: Process, other: Path, path: Path, s: Suffix, names: set<Name>)
    requires Has(w, me, path, s, names) && Elsewhere(w, w', me, other) && other != path
    ensures Has(w', me, path, s, names)
  {
    forall n | n in OwnNames(s)
      ensures HasEntry(w', path, n) <==> n in names
    {
      assert Protected(w, me, path, n);
      assert KeepsMine(w, w', path, n);
    }
  }

  lemma HasOneLess(w: World, me: Process, path: Path, s: Suffix, names: set<Name>, name: Name)
    requires Known(w) && Enabled(w, me, Unlink(path, name))
    requires Has(w, me, path, s, names) && name in names && names <= OwnNames(s)
    ensures Has(Apply(w, me, Unlink(path, name)), me, path, s, names - {name})
  {
  }

  /** Taking away a dead process's entry ends no holding of `me`. */
  lemma DeadEntryHoldsNothing(w: World, me: Process, path: Path, name: Name)
    requires Inv(w) && me in w.alive && Enabled(w, me, Unlink(path, name)) && ByTheDead(w, name.suffix)
    ensures KeepsHoldings(w, Apply(w, me, Unlink(path, name)), me)
  {
    forall h | h in w.holders && h.process == me
      ensures Survives(w, h, path, name)
    {
      assert Backed(w, h);
    }
  }

  // Reading and removing

  method ReadSnapshot(m: Machine, me: Process, path: Path, mine: Option<Suffix>, calm: bool)
    returns (snapshot: Option<Snapshot>)
    requires m.Working(me, path)
    requires mine.Some? ==> AuthoredBy(m.w, mine.value, me)
    modifies m`w, m`passed
    ensures m.Working(me, path) && m.Going(calm) && (mine.None? ==> Undisturbed(old(m.w), m.w, me))
    ensures snapshot.Some? ==> AllAuthored(m.w, snapshot.value.entries)
    ensures snapshot.Some? && mine.Some? && snapshot.value.entries == OwnNames(mine.value)
            ==> Holding(path, me, mine.value) in m.w.holders
    ensures calm ==> snapshot.Some? == (path in old(m.w).dirs) && m.w.dirs == old(m.w).dirs && m.w.now == old(m.w).now
                     && (snapshot.Some? ==> Shows(m.w, path, snapshot.value)) && (mine.None? ==> m.w == old(m.w))
  {
    var stats := m.Stat(me, path, calm);
    if stats.None? {
      return None;
    }
    ghost var between := m.w;
    var names, mid := m.Readdir(me, path, mine, calm);
    UndisturbedTransitive(old(m.w), between, mid, me);
    if names.None? {
      return None;
    }
    snapshot := Some(Snapshot(stats.value, names.value));
  }

  /** On a calm machine: only these entries are left, and nothing else has changed. */
  ghost predicate Remaining(w0: World, w: World, path: Path, entries: set<Name>) {
        && path in w.dirs && w.dirs[path].files.Keys == entries
    && w.dirs - {path} == w0.dirs - {path}
    && w.now == w0.now
  }

  method UnlinkOne(m: Machine, me: Process, path: Path, name: Name, ghost remaining: set<Name>, ghost mine: Option<Suffix>,
                   calm: bool) returns (ok: bool)
    requires m.Working(me, path)
    requires MayTake(m.w, me, remaining, mine) && name in remaining
    modifies m`w, m`passed
    ensures m.Working(me, path) && m.Going(calm)
    ensures MayTake(m.w, me, remaining - {name}, mine)
    ensures mine.None? ==> KeepsHoldings(old(m.w), m.w, me)
    ensures mine.Some? && Has(old(m.w), me, path, mine.value, remaining) ==>
      ok && Has(m.w, me, path, mine.value, remaining - {name})
    ensures calm && HasEntry(old(m.w), path, name) ==>
      ok && Remaining(old(m.w), m.w, path, old(m.w.dirs[path].files.Keys) - {name})
  {
    ghost var mid;
    ok, mid := m.Unlink(me, path, name, calm);
    MayTakeStable(old(m.w), m.w, me, remaining, mine);
    if mine.Some? {
      UnlinkedOwn(old(m.w), mid, m.w, me, path, mine.value, remaining, name, ok);
    } else {
      UnlinkedDead(old(m.w), mid, m.w, me, path, remaining, name, ok);
    }
  }

  lemma UnlinkedOwn(w0: World, mid: World, w: World, me: Process, path: Path, s: Suffix, names: set<Name>, name: Name, ok: bool)
    requires Undisturbed(w0, mid, me) && ok == (HasEntry(mid, path, name) && MayUnlink(mid, me, path, name))
    requires if ok then Takes(mid, me, Unlink(path, name), w) else w == mid
    requires name in names && MayTake(w0, me, names, Some(s))
    ensures Has(w0, me, path, s, names) ==> ok && Has(w, me, path, s, names - {name})
  {
    if Has(w0, me, path, s, names) {
      HasStill(w0, mid, me, path, s, names);
      HasOneLess(mid, me, path, s, names, name);
    }
  }

  lemma UnlinkedDead(w0: World, mid: World, w: World, me: Process, path: Path, names: set<Name>, name: Name, ok: bool)
    requires Inv(mid) && Undisturbed(w0, mid, me) && ok == (HasEntry(mid, path, name) && MayUnlink(mid, me, path, name))
    requires if ok then Takes(mid, me, Unlink(path, name), w) else w == mid
    requires name in names && MayTake(w0, me, names, None)
    ensures KeepsHoldings(w0, w, me)
  {
    MayTakeStable(w0, mid, me, names, None);
    if ok {
      DeadEntryHoldsNothing(mid, me, path, name);
    }
  }

  method UnlinkAll(m: Machine, me: Process, path: Path, entries: set<Name>, ghost mine: Option<Suffix>, calm: bool)
    returns (done: bool)
    requires m.Working(me, path)
    requires MayTake(m.w, me, entries, mine)
    modifies m`w, m`passed
    ensures m.Working(me, path) && m.Going(calm)
    ensures mine.None? ==> KeepsHoldings(old(m.w), m.w, me)
    ensures mine.Some? && Has(old(m.w), me, path, mine.value, entries) ==> done && Has(m.w, me, path, mine.value, {})
    ensures calm && Remaining(old(m.w), old(m.w), path, entries) ==> done && Remaining(old(m.w), m.w, path, {})
  {
    var remaining := entries;
    while remaining != {}
      invariant m.Working(me, path) && m.Going(calm)
      invariant MayTake(m.w, me, remaining, mine)
      invariant mine.None? ==> KeepsHoldings(old(m.w), m.w, me)
      invariant mine.Some? && Has(old(m.w), me, path, mine.value, entries) ==> Has(m.w, me, path, mine.value, remaining)
      invariant calm && Remaining(old(m.w), old(m.w), path, entries) ==> Remaining(old(m.w), m.w, path, remaining)
    {
      var name :| name in remaining;
      var ok := UnlinkOne(m, me, path, name, remaining, mine, calm);
      if !ok {
        return false;
      }
      remaining := remaining - {name};
    }
    return true;
  }

  /** Unlinks the listed entries and then the directory. */
  method RemoveListed(m: Machine, me: Process, path: Path, entries: set<Name>, ghost mine: Option<Suffix>, calm: bool)
    returns (removed: bool)
    requires m.Working(me, path)
    requires MayTake(m.w, me, entries, mine)
    modifies m`w, m`passed
    ensures m.Working(me, path) && m.Going(calm)
    ensures removed ==> path !in m.w.dirs
    ensures mine.None? ==> KeepsHoldings(old(m.w), m.w, me)
    ensures mine.Some? && Has(old(m.w), me, path, mine.value, entries) ==> Has(m.w, me, path, mine.value, {})
    ensures calm && Remaining(old(m.w), old(m.w), path, entries) ==> Outcome(old(m.w), m.w, path, true, removed)
  {
    var done := UnlinkAll(m, me, path, entries, mine, calm);
    if !done {
      return false;
    }
    removed := RemoveDirectory(m, me, path, mine, calm);
  }

  method RemoveDirectory(m: Machine, me: Process, path: Path, ghost mine: Option<Suffix>, calm: bool) returns (removed: bool)
    requires m.Working(me, path)
    modifies m`w, m`passed
    ensures m.Working(me, path) && m.Going(calm)
    ensures removed ==> path !in m.w.dirs
    ensures KeepsHoldings(old(m.w), m.w, me)
    ensures mine.Some? && Has(old(m.w), me, path, mine.value, {}) ==> Has(m.w, me, path, mine.value, {})
    ensures calm && Remaining(old(m.w), old(m.w), path, {}) ==>
      removed && m.w.dirs == old(m.w).dirs - {path} && m.w.now == old(m.w).now
  {
    ghost var mid;
    removed, mid := m.Rmdir(me, path, calm);
    if mine.Some? && Has(old(m.w), me, path, mine.value, {}) {
      HasStill(old(m.w), mid, me, path, mine.value, {});
    }
  }

  /** In a world passed since then the lock was not as in the snapshot. */
  ghost predicate SeenChanged(passed: seq<World>, since: nat, seen: nat, path: Path, snapshot: Snapshot) {
    since <= seen < |passed| && !Shows(passed[seen], path, snapshot)
  }

  method StillShows(m: Machine, me: Process, path: Path, snapshot: Snapshot, calm: bool) returns (same: bool, ghost seen: nat)
    requires m.Working(me, path)
    modifies m`w, m`passed
    ensures m.Working(me, path) && m.Going(calm) && Undisturbed(old(m.w), m.w, me)
    ensures !same ==> SeenChanged(m.passed, old(m.Moment()), seen, path, snapshot)
    ensures calm ==> m.w == old(m.w) && same == Shows(m.w, path, snapshot)
  {
    var current;
    current, seen := ReadAgain(m, me, path, snapshot, calm);
    same := current == Some(snapshot);
  }

  /** A snapshot to compare with an earlier one. */
  method ReadAgain(m: Machine, me: Process, path: Path, ghost earlier: Snapshot, calm: bool)
    returns (snapshot: Option<Snapshot>, ghost seen: nat)
    requires m.Working(me, path)
    modifies m`w, m`passed
    ensures m.Working(me, path) && m.Going(calm) && Undisturbed(old(m.w), m.w, me)
    ensures snapshot != Some(earlier) ==> SeenChanged(m.passed, old(m.Moment()), seen, path, earlier)
    ensures calm ==> m.w == old(m.w) && (snapshot == Some(earlier) <==> Shows(m.w, path, earlier))
  {
    var stats := m.Stat(me, path, calm);
    seen := m.Moment();
    if stats.None? {
      return None, seen;
    }
    ghost var between := m.w;
    var names, mid := m.Readdir(me, path, None, calm);
    UndisturbedTransitive(old(m.w), between, mid, me);
    if names.None? {
      return None, m.Moment();
    }
    snapshot := Some(Snapshot(stats.value, names.value));
    if stats.value == earlier.stats {
      seen := m.Moment();
    }
  }

  /** Unlinks what the snapshot lists and then the directory, provided that the lock still
      shows exactly the snapshot.  Whatever others do meanwhile, a lock of `me` ends up given
      up, or untouched because it was seen to have changed. */
  method RemoveExactSnapshot(m: Machine, me: Process, path: Path, snapshot: Snapshot, ghost mine: Option<Suffix>, calm: bool)
    returns (removed: bool, ghost seen: nat)
    requires m.Working(me, path)
    requires MayTake(m.w, me, snapshot.entries, mine)
    modifies m`w, m`passed
    ensures m.Working(me, path) && m.Going(calm)
    ensures removed ==> path !in m.w.dirs
    ensures mine.None? ==> KeepsHoldings(old(m.w), m.w, me)
    ensures mine.Some? && Has(old(m.w), me, path, mine.value, snapshot.entries) ==>
      || Has(m.w, me, path, mine.value, {})
      || (!removed && Has(m.w, me, path, mine.value, snapshot.entries) && SeenChanged(m.passed, old(m.Moment()), seen, path, snapshot))
    ensures calm ==> Outcome(old(m.w), m.w, path, Shows(old(m.w), path, snapshot), removed)
  {
    var same;
    same, seen := StillShows(m, me, path, snapshot, calm);
    if mine.Some? && Has(old(m.w), me, path, mine.value, snapshot.entries) {
      HasStill(old(m.w), m.w, me, path, mine.value, snapshot.entries);
    }
    if !same {
      return false, seen;
    }
    MayTakeStable(old(m.w), m.w, me, snapshot.entries, mine);
    removed := RemoveListed(m, me, path, snapshot.entries, mine, calm);
  }

  // Recovery

  method RecoverEmpty(m: Machine, me: Process, path: Path, snapshot: Snapshot, grace: nat, calm: bool) returns (removed: bool)
    requires m.Working(me, path) && snapshot.entries == {}
    modifies m`w, m`passed
    ensures m.Working(me, path) && m.Going(calm) && KeepsHoldings(old(m.w), m.w, me)
    ensures calm && Shows(old(m.w), path, snapshot) ==>
      Outcome(old(m.w), m.w, path, old(m.w).now - snapshot.stats.mtime > grace, removed)
  {
    var now := m.Clock();
    if now - snapshot.stats.mtime <= grace {
      return false;
    }
    ghost var seen;
    removed, seen := RemoveExactSnapshot(m, me, path, snapshot, None, calm);
  }

  method RecoverClaim(m: Machine, me: Process, path: Path, snapshot: Snapshot, claim: Name, grace: nat, calm: bool)
    returns (removed: bool)
    requires m.Working(me, path) && AllAuthored(m.w, snapshot.entries)
    requires snapshot.entries == {claim} && claim.Entry? && claim.kind.Claim?
    modifies m`w, m`passed
    ensures m.Working(me, path) && m.Going(calm) && KeepsHoldings(old(m.w), m.w, me)
    ensures calm && Parses(claim) && Shows(old(m.w), path, snapshot) ==>
      Outcome(old(m.w), m.w, path, AbandonedBy(m, old(m.w), path, claim, grace), removed)
  {
    var abandoned := ClaimIsAbandoned(m, me, path, snapshot.stats.mtime, claim, grace, calm);
    if !abandoned {
      return false;
    }
    removed := RemoveDeadClaim(m, me, path, snapshot, claim, calm);
  }

  method ClaimIsAbandoned(m: Machine, me: Process, path: Path, mtime: nat, claim: Name, grace: nat, calm: bool)
    returns (abandoned: bool)
    requires m.Working(me, path) && claim.Entry? && Authored(m.w, claim.suffix)
    modifies m`w, m`passed
    ensures m.Working(me, path) && m.Going(calm) && KeepsHoldings(old(m.w), m.w, me)
    ensures abandoned ==> ByTheDead(m.w, claim.suffix)
    ensures calm ==>
      && m.w == old(m.w)
      && (abandoned <==> Exact(m.w, path, claim) && m.w.now - mtime > grace && !m.MayBeLive(m.w, claim.suffix))
  {
    var exact := m.HasExactContents(me, path, claim, calm);
    if !exact {
      return false;
    }
    var now := m.Clock();
    if now - mtime <= grace {
      return false;
    }
    var live := m.BelongsToLiveProcess(me, path, claim.suffix, calm);
    return !live;
  }

  /** Looks once more before removing. */
  method RemoveDeadClaim(m: Machine, me: Process, path: Path, snapshot: Snapshot, claim: Name, calm: bool)
    returns (removed: bool)
    requires m.Working(me, path)
    requires snapshot.entries == {claim} && claim.Entry? && ByTheDead(m.w, claim.suffix)
    modifies m`w, m`passed
    ensures m.Working(me, path) && m.Going(calm) && KeepsHoldings(old(m.w), m.w, me)
    ensures calm && Exact(old(m.w), path, claim) && Shows(old(m.w), path, snapshot) ==>
      Outcome(old(m.w), m.w, path, true, removed)
  {
    assert MayTake(m.w, me, snapshot.entries, None);
    var still := ClaimIsStillThere(m, me, path, claim, calm);
    if !still {
      return false;
    }
    MayTakeStable(old(m.w), m.w, me, snapshot.entries, None);
    ghost var seen;
    removed, seen := RemoveExactSnapshot(m, me, path, snapshot, None, calm);
  }

  method ClaimIsStillThere(m: Machine, me: Process, path: Path, claim: Name, calm: bool) returns (still: bool)
    requires m.Working(me, path)
    modifies m`w, m`passed
    ensures m.Working(me, path) && m.Going(calm) && KeepsHoldings(old(m.w), m.w, me)
    ensures calm ==> m.w == old(m.w) && still == Exact(m.w, path, claim)
  {
    var current := ReadSnapshot(m, me, path, None, calm);
    if current.None? {
      return false;
    }
    still := m.HasExactContents(me, path, claim, calm);
  }

  method PairIsExact(m: Machine, me: Process, path: Path, s: Suffix, calm: bool) returns (exact: bool, ghost seen: nat)
    requires m.Working(me, path)
    modifies m`w, m`passed
    ensures m.Working(me, path) && m.Going(calm) && Undisturbed(old(m.w), m.w, me)
    ensures !exact ==> SeenInexact(m.passed, old(m.Moment()), seen, path, s)
    ensures calm ==> m.w == old(m.w) && exact == (Exact(m.w, path, Entry(Claim, s)) && Exact(m.w, path, Entry(Owner, s)))
  {
    exact := m.HasExactContents(me, path, Entry(Claim, s), calm);
    seen := m.Moment();
    if exact {
      ghost var between := m.w;
      exact := m.HasExactContents(me, path, Entry(Owner, s), calm);
      UndisturbedTransitive(old(m.w), between, m.w, me);
      seen := m.Moment();
    }
  }

  /** In a world passed since then one of the two entries was not there in full. */
  ghost predicate SeenInexact(passed: seq<World>, since: nat, seen: nat, path: Path, s: Suffix) {
    && since <= seen < |passed|
    && (!Exact(passed[seen], path, Entry(Claim, s)) || !Exact(passed[seen], path, Entry(Owner, s)))
  }

  method RecoverPair(m: Machine, me: Process, path: Path, snapshot: Snapshot, s: Suffix, grace: nat, calm: bool)
    returns (removed: bool)
    requires m.Working(me, path) && AllAuthored(m.w, snapshot.entries)
    requires snapshot.entries == OwnNames(s)
    modifies m`w, m`passed
    ensures m.Working(me, path) && m.Going(calm) && KeepsHoldings(old(m.w), m.w, me)
    ensures calm && Parses(Entry(Owner, s)) && Shows(old(m.w), path, snapshot) ==>
      Outcome(old(m.w), m.w, path, AbandonedBy(m, old(m.w), path, Entry(Owner, s), grace), removed)
  {
    assert Entry(Owner, s) in snapshot.entries && Entry(Claim, s) in snapshot.entries;
    ghost var unlike;
    var exact;
    exact, unlike := PairIsExact(m, me, path, s, calm);
    if !exact {
      return false;
    }
    var live := m.BelongsToLiveProcess(me, path, s, calm);
    if live {
      return false;
    }
    removed := RemoveDeadPair(m, me, path, snapshot, s, calm);
  }

  method RemoveDeadPair(m: Machine, me: Process, path: Path, snapshot: Snapshot, s: Suffix, calm: bool)
    returns (removed: bool)
    requires m.Working(me, path)
    requires snapshot.entries == OwnNames(s) && ByTheDead(m.w, s)
    modifies m`w, m`passed
    ensures m.Working(me, path) && m.Going(calm) && KeepsHoldings(old(m.w), m.w, me)
    ensures (calm && Exact(old(m.w), path, Entry(Claim, s)) && Exact(old(m.w), path, Entry(Owner, s))
             && Shows(old(m.w), path, snapshot)) ==> Outcome(old(m.w), m.w, path, true, removed)
  {
    assert MayTake(m.w, me, snapshot.entries, None);
    ghost var unlike;
    var exact;
    exact, unlike := PairIsExact(m, me, path, s, calm);
    if !exact {
      return false;
    }
    MayTakeStable(old(m.w), m.w, me, snapshot.entries, None);
    ghost var seen;
    removed, seen := RemoveExactSnapshot(m, me, path, snapshot, None, calm);
  }

  lemma StaleCases(m: Machine, w: World, path: Path, grace: nat, entries: set<Name>)
    requires path in w.dirs && entries == w.dirs[path].files.Keys
    ensures entries == {} ==> (Stale(m, w, path, grace) <==> w.now - w.dirs[path].mtime > grace)
    ensures (exists n | n in entries :: !Parses(n)) ==> !Stale(m, w, path, grace)
    ensures forall claim :: entries == {claim} && claim.Entry? && claim.kind.Claim? ==>
      (Stale(m, w, path, grace) <==> AbandonedBy(m, w, path, claim, grace))
    ensures forall s :: entries == OwnNames(s) ==>
      (Stale(m, w, path, grace) <==> AbandonedBy(m, w, path, Entry(Owner, s), grace))
    ensures (&& entries != {}
             && (forall c | c in entries :: c.Entry? && c.kind.Claim? ==> entries != {c})
             && (forall c | c in entries :: c.Entry? ==> entries != OwnNames(c.suffix)))
            ==> !Stale(m, w, path, grace)
  {
    forall s | entries == OwnNames(s)
      ensures Stale(m, w, path, grace) <==> AbandonedBy(m, w, path, Entry(Owner, s), grace)
    {
      assert Entry(Owner, s) in entries && Entry(Claim, s) in entries;
      assert Entry(Owner, s) != Entry(Claim, s);
    }
    forall claim | entries == {claim} && claim.Entry? && claim.kind.Claim?
      ensures Stale(m, w, path, grace) <==> AbandonedBy(m, w, path, claim, grace)
    {
      assert claim in entries;
    }
  }

  /** Decides by what the lock shows, and leaves alone whatever it cannot explain. */
  method RecoverStaleSnapshot(m: Machine, me: Process, path: Path, snapshot: Snapshot, grace: nat, calm: bool)
    returns (removed: bool)
    requires m.Working(me, path) && AllAuthored(m.w, snapshot.entries)
    modifies m`w, m`passed
    ensures m.Working(me, path) && m.Going(calm) && KeepsHoldings(old(m.w), m.w, me)
    ensures calm && Shows(old(m.w), path, snapshot) ==>
      Outcome(old(m.w), m.w, path, Stale(m, old(m.w), path, grace), removed)
  {
    var names := snapshot.entries;
    if Shows(m.w, path, snapshot) {
      StaleCases(m, m.w, path, grace, names);
    }
    if names == {} {
      removed := RecoverEmpty(m, me, path, snapshot, grace, calm);
      return;
    }
    if exists n | n in names :: !Parses(n) {
      return false;
    }
    if claim :| claim in names && claim.kind.Claim? && names == {claim} {
      removed := RecoverClaim(m, me, path, snapshot, claim, grace, calm);
      return;
    }
    if owner :| owner in names && owner.kind.Owner? && names == OwnNames(owner.suffix) {
      removed := RecoverPair(m, me, path, snapshot, owner.suffix, grace, calm);
      return;
    }
    return false;
  }

  /** Two readings of the directory that agree, one of them pinned, come first. */
  method RecoverStaleLock(m: Machine, me: Process, path: Path, grace: nat, calm: bool) returns (removed: bool)
    requires m.Working(me, path)
    modifies m`w, m`passed
    ensures m.Working(me, path) && m.Going(calm) && KeepsHoldings(old(m.w), m.w, me)
    ensures calm ==> Outcome(old(m.w), m.w, path, Stale(m, old(m.w), path, grace), removed)
  {
    var snapshot := ReadPinned(m, me, path, calm);
    if snapshot.None? {
      return false;
    }
    removed := RecoverStaleSnapshot(m, me, path, snapshot.value, grace, calm);
  }

  method ReadPinned(m: Machine, me: Process, path: Path, calm: bool) returns (snapshot: Option<Snapshot>)
    requires m.Working(me, path)
    modifies m`w, m`passed
    ensures m.Working(me, path) && m.Going(calm) && KeepsHoldings(old(m.w), m.w, me)
    ensures snapshot.Some? ==> AllAuthored(m.w, snapshot.value.entries)
    ensures calm ==>
      m.w == old(m.w) && snapshot.Some? == (path in m.w.dirs) && (snapshot.Some? ==> Shows(m.w, path, snapshot.value))
  {
    var pinned := m.Stat(me, path, calm);
    if pinned.None? {
      return None;
    }
    snapshot := ReadSnapshot(m, me, path, None, calm);
    if snapshot.Some? && snapshot.value.stats != pinned.value {
      return None;
    }
  }

  // Acquisition

  /** The directory made earlier shows nothing but entries of this suffix, complete. */
  ghost predicate OnlyOwnComplete(w: World, path: Path, ino: nat, suffix: Suffix) {
    && path in w.dirs && w.dirs[path].ino == ino && w.dirs[path].files.Keys <= OwnNames(suffix)
    && forall n | n in w.dirs[path].files :: Exact(w, path, n)
  }

  /** Takes back what a failed write left, if the directory shows nothing else. */
  method CleanUpPartial(m: Machine, me: Process, path: Path, ino: nat, suffix: Suffix, calm: bool)
    requires m.Working(me, path)
    requires AuthoredBy(m.w, suffix, me)
    modifies m`w, m`passed
    ensures m.Working(me, path) && m.Going(calm)
    ensures calm ==> m.w.dirs == if OnlyOwnComplete(old(m.w), path, ino, suffix) then old(m.w).dirs - {path} else old(m.w).dirs
  {
    var partial := ReadSnapshot(m, me, path, None, calm);
    if partial.None? || partial.value.stats.ino != ino || !(partial.value.entries <= OwnNames(suffix)) {
      return;
    }
    var exact := AllExact(m, me, path, partial.value.entries, calm);
    if exact {
      ghost var seen;
      var removed;
      removed, seen := RemoveExactSnapshot(m, me, path, partial.value, Some(suffix), calm);
    }
  }

  method AllExact(m: Machine, me: Process, path: Path, entries: set<Name>, calm: bool) returns (exact: bool)
    requires m.Working(me, path)
    modifies m`w, m`passed
    ensures m.Working(me, path) && m.Going(calm)
    ensures calm ==> m.w == old(m.w) && (exact <==> forall n | n in entries :: Exact(m.w, path, n))
  {
    var unread := entries;
    while unread != {}
      invariant m.Working(me, path) && m.Going(calm) && unread <= entries
      invariant calm ==> m.w == old(m.w) && forall n | n in entries - unread :: Exact(m.w, path, n)
    {
      var name :| name in unread;
      exact := m.HasExactContents(me, path, name, calm);
      if !exact {
        return;
      }
      unread := unread - {name};
    }
    exact := true;
  }

  /** Confirms that the directory made earlier holds exactly the two entries. */
  method ConfirmOwnership(m: Machine, me: Process, path: Path, ino: nat, suffix: Suffix, calm: bool)
    returns (r: Acquired)
    requires m.Working(me, path)
    requires AuthoredBy(m.w, suffix, me)
    modifies m`w, m`passed
    ensures m.Working(me, path) && m.Going(calm)
    ensures r.Held? ==> IsHeld(m.w, me, path, r.lock)
    ensures calm && Owned(old(m.w), path, ino, suffix) ==>
      r.Held? && m.w.dirs == old(m.w).dirs && m.w.now == old(m.w).now && Shows(m.w, path, r.lock.snapshot)
  {
    var owned := ReadSnapshot(m, me, path, Some(suffix), calm);
    if owned.None? || owned.value.stats.ino != ino || owned.value.entries != OwnNames(suffix) {
      return Conflict;
    }
    ghost var unlike;
    var exact;
    exact, unlike := PairIsExact(m, me, path, suffix, calm);
    if !exact {
      return Conflict;
    }
    return Held(HeldLock(path, owned.value, suffix));
  }

  ghost predicate Owned(w: World, path: Path, ino: nat, suffix: Suffix) {
    && path in w.dirs && w.dirs[path].ino == ino
    && w.dirs[path].files == map[Entry(Claim, suffix) := Some(suffix), Entry(Owner, suffix) := Some(suffix)]
  }

  ghost predicate IsHeld(w: World, me: Process, path: Path, lock: HeldLock) {
    && lock.path == path
    && lock.snapshot.entries == OwnNames(lock.suffix)
    && AuthoredBy(w, lock.suffix, me)
    && Holding(path, me, lock.suffix) in w.holders
  }

  method WriteBoth(m: Machine, me: Process, path: Path, suffix: Suffix, calm: bool) returns (ok: bool)
    requires m.Working(me, path)
    requires AuthoredBy(m.w, suffix, me)
    modifies m`w, m`passed
    ensures m.Working(me, path) && m.Going(calm)
    ensures calm && FreshDirectory(old(m.w), path) ==>
      ok && Owned(m.w, path, old(m.w).dirs[path].ino, suffix) && OnlyAt(old(m.w), m.w, path)
  {
    ok := WriteEntry(m, me, path, Entry(Claim, suffix), calm);
    if ok {
      ok := WriteEntry(m, me, path, Entry(Owner, suffix), calm);
    }
  }

  ghost predicate FreshDirectory(w: World, path: Path) {
    path in w.dirs && w.dirs[path].files == map[]
  }

  /** On a calm machine: no other directory changed. */
  ghost predicate OnlyAt(w0: World, w: World, path: Path) {
    w.dirs - {path} == w0.dirs - {path} && w.now == w0.now
  }

  /** Writes both entries under a fresh suffix and confirms them. */
  method WriteAndConfirm(m: Machine, me: Process, path: Path, ino: nat, suffix: Suffix, calm: bool) returns (r: Acquired)
    requires m.Working(me, path)
    requires AuthoredBy(m.w, suffix, me)
    modifies m`w, m`passed
    ensures m.Working(me, path) && m.Going(calm)
    ensures r.Held? ==> IsHeld(m.w, me, path, r.lock)
    ensures calm && FreshDirectory(old(m.w), path) && old(m.w).dirs[path].ino == ino ==>
      r.Held? && OnlyLocked(old(m.w), m.w, path, r.lock)
  {
    var wrote := WriteBoth(m, me, path, suffix, calm);
    if !wrote {
      CleanUpPartial(m, me, path, ino, suffix, calm);
      return Conflict;
    }
    r := ConfirmOwnership(m, me, path, ino, suffix, calm);
  }

  /** Takes the directory just made. */
  method TakeOwnership(m: Machine, me: Process, path: Path, pid: nat, token: Option<string>, calm: bool)
    returns (r: Acquired)
    requires m.Working(me, path)
    requires me in m.w.procs && IsIdentityOf(m.w.procs[me], pid, token)
    modifies m`w, m`passed
    ensures m.Working(me, path) && m.Going(calm)
    ensures r.Held? ==> IsHeld(m.w, me, path, r.lock)
    ensures calm && FreshDirectory(old(m.w), path) ==> r.Held? && OnlyLocked(old(m.w), m.w, path, r.lock)
  {
    var created := ReadSnapshot(m, me, path, None, calm);
    if created.None? {
      return Conflict;
    }
    var suffix := DrawSuffix(m, me, path, pid, token, calm);
    r := WriteAndConfirm(m, me, path, created.value.stats.ino, suffix, calm);
  }

  /** On a calm machine: the lock is in place, and no other directory changed. */
  ghost predicate OnlyLocked(w0: World, w: World, path: Path, lock: HeldLock) {
    && Owned(w, path, lock.snapshot.stats.ino, lock.suffix)
    && Shows(w, path, lock.snapshot)
    && OnlyAt(w0, w, path)
  }

  /** A lock that is held already is not made once more. */
  method MakeDirectory(m: Machine, me: Process, path: Path, calm: bool) returns (made: bool)
    requires m.Working(me, path)
    modifies m`w, m`passed
    ensures m.Working(me, path) && m.Going(calm) && KeepsHoldings(old(m.w), m.w, me)
    ensures Holds(old(m.w), me, path) ==> !made
    ensures calm ==> made == (path !in old(m.w).dirs)
    ensures calm ==> if made then FreshDirectory(m.w, path) && OnlyAt(old(m.w), m.w, path) else m.w == old(m.w)
  {
    ghost var mid, ino;
    made, mid, ino := m.Mkdir(me, path, calm);
    if made {
      FreshIsNotHeld(m.w, me, path);
    }
  }

  lemma FreshIsNotHeld(w: World, me: Process, path: Path)
    requires Inv(w) && FreshDirectory(w, path)
    ensures !Holds(w, me, path)
  {
    forall h | h in w.holders
      ensures h.path != path
    {
      assert Backed(w, h);
    }
  }

  datatype Attempt = Done(result: Acquired) | Again

  /** Makes the directory and takes it, or recovers a stale lock to try again. */
  method AttemptLock(m: Machine, me: Process, path: Path, pid: nat, token: Option<string>, grace: nat, calm: bool)
    returns (a: Attempt)
    requires m.Working(me, path)
    requires me in m.w.procs && IsIdentityOf(m.w.procs[me], pid, token)
    modifies m`w, m`passed
    ensures m.Working(me, path) && m.Going(calm)
    ensures a.Done? && a.result.Held? ==> IsHeld(m.w, me, path, a.result.lock)
    ensures Holds(old(m.w), me, path) ==> (a.Again? || a.result.Conflict?) && KeepsHoldings(old(m.w), m.w, me)
    ensures calm ==> match a
      case Again => path in old(m.w).dirs && Stale(m, old(m.w), path, grace)
                    && m.w.dirs == old(m.w).dirs - {path} && m.w.now == old(m.w).now
      case Done(Conflict) => path in old(m.w).dirs && !Stale(m, old(m.w), path, grace)
                    && m.w.dirs == old(m.w).dirs && m.w.now == old(m.w).now
      case Done(Held(lock)) => path !in old(m.w).dirs && OnlyLocked(old(m.w), m.w, path, lock)
  {
    var made := MakeDirectory(m, me, path, calm);
    if made {
      var r := TakeOwnership(m, me, path, pid, token, calm);
      return Done(r);
    }
    var removed := RecoverStaleLock(m, me, path, grace, calm);
    return if removed then Again else Done(Conflict);
  }

  lemma HoldsStill(w: World, w': World, me: Process, path: Path)
    requires KeepsHoldings(w, w', me)
    ensures Holds(w, me, path) <==> Holds(w', me, path)
  {
  }

  /** Three attempts: a stale lock is recovered and tried again, a live one is a conflict. */
  method AcquireOneLock(m: Machine, me: Process, path: Path, pid: nat, token: Option<string>, grace: nat, calm: bool)
    returns (r: Acquired)
    requires m.Working(me, path)
    requires me in m.w.procs && IsIdentityOf(m.w.procs[me], pid, token)
    modifies m`w, m`passed
    ensures m.Working(me, path) && m.Going(calm)
    ensures r.Held? ==> IsHeld(m.w, me, path, r.lock)
    ensures Holds(old(m.w), me, path) ==> r.Conflict? && KeepsHoldings(old(m.w), m.w, me)
    ensures calm ==> (r.Held? <==> path !in old(m.w).dirs || Stale(m, old(m.w), path, grace))
    ensures calm && r.Held? ==> OnlyLocked(old(m.w), m.w, path, r.lock)
    ensures calm && r.Conflict? ==> m.w.dirs == old(m.w).dirs && m.w.now == old(m.w).now
  {
    var attempt := 0;
    while attempt < ATTEMPTS
      invariant 0 <= attempt <= ATTEMPTS
      invariant m.Working(me, path) && m.Going(calm)
      invariant Holds(old(m.w), me, path) ==> KeepsHoldings(old(m.w), m.w, me)
      invariant calm && attempt == 0 ==> m.w == old(m.w)
      invariant calm && attempt > 0 ==> attempt == 1 && Stale(m, old(m.w), path, grace)
                                        && m.w.dirs == old(m.w).dirs - {path} && m.w.now == old(m.w).now
    {
      if Holds(old(m.w), me, path) {
        HoldsStill(old(m.w), m.w, me, path);
      }
      var a := AttemptLock(m, me, path, pid, token, grace, calm);
      if a.Done? {
        return a.result;
      }
      attempt := attempt + 1;
    }
    return Conflict;
  }

  // Several locks at once

  ghost predicate OursToRemove(w: World, me: Process, lock: HeldLock) {
    AuthoredBy(w, lock.suffix, me) && lock.snapshot.entries == OwnNames(lock.suffix)
  }

  /** On a calm machine: the lock is still as it was taken. */
  ghost predicate InPlace(w: World, lock: HeldLock) {
    Owned(w, lock.path, lock.snapshot.stats.ino, lock.suffix) && Shows(w, lock.path, lock.snapshot)
  }

  ghost predicate StillOurs(w: World, me: Process, lock: HeldLock) {
    Has(w, me, lock.path, lock.suffix, OwnNames(lock.suffix))
  }

  /** Neither entry of the lock is left, and it is not held. */
  ghost predicate GivenUp(w: World, me: Process, lock: HeldLock) {
    Has(w, me, lock.path, lock.suffix, {})
  }

  /** In a world passed since then the lock did not show what it had shown when it was taken. */
  ghost predicate Altered(passed: seq<World>, since: nat, lock: HeldLock) {
    exists i: nat :: AlteredAt(passed, since, i, lock)
  }

  ghost predicate AlteredAt(passed: seq<World>, since: nat, i: nat, lock: HeldLock) {
    since <= i < |passed| && !Intact(passed[i], lock)
  }

  ghost predicate Intact(w: World, lock: HeldLock) {
    && Shows(w, lock.path, lock.snapshot)
    && Exact(w, lock.path, Entry(Claim, lock.suffix)) && Exact(w, lock.path, Entry(Owner, lock.suffix))
  }

  /** What becomes of a lock that is removed, among the steps of others: it is given up, or
      left whole because it was found altered. */
  ghost predicate Settled(passed: seq<World>, since: nat, w: World, me: Process, lock: HeldLock, removed: bool) {
    GivenUp(w, me, lock) || (!removed && StillOurs(w, me, lock) && Altered(passed, since, lock))
  }

  method RemoveHeldLock(m: Machine, me: Process, lock: HeldLock, calm: bool) returns (removed: bool)
    requires m.Working(me, lock.path)
    requires OursToRemove(m.w, me, lock)
    modifies m`w, m`passed
    ensures m.Working(me, lock.path) && m.Going(calm)
    ensures removed ==> lock.path !in m.w.dirs
    ensures StillOurs(old(m.w), me, lock) ==> Settled(m.passed, old(m.Moment()), m.w, me, lock, removed)
    ensures calm && InPlace(old(m.w), lock) ==> Outcome(old(m.w), m.w, lock.path, true, removed)
  {
    var exact;
    ghost var seen;
    exact, seen := PairIsExact(m, me, lock.path, lock.suffix, calm);
    if StillOurs(old(m.w), me, lock) {
      HasStill(old(m.w), m.w, me, lock.path, lock.suffix, OwnNames(lock.suffix));
    }
    if !exact {
      assert AlteredAt(m.passed, old(m.Moment()), seen, lock);
      return false;
    }
    ghost var between := m.Moment();
    removed, seen := RemoveExactSnapshot(m, me, lock.path, lock.snapshot, Some(lock.suffix), calm);
    if SeenChanged(m.passed, between, seen, lock.path, lock.snapshot) {
      assert AlteredAt(m.passed, old(m.Moment()), seen, lock);
    }
  }

  ghost predicate AllOurs(w: World, me: Process, held: seq<HeldLock>) {
    forall i | 0 <= i < |held| :: OursToRemove(w, me, held[i])
  }

  ghost predicate AllInPlace(w: World, held: seq<HeldLock>) {
    && (forall i | 0 <= i < |held| :: InPlace(w, held[i]))
    && (forall i, j | 0 <= i < j < |held| :: held[i].path != held[j].path)
  }

  ghost predicate SameAt(w0: World, w: World, path: Path) {
    (path in w.dirs <==> path in w0.dirs) && (path in w.dirs ==> w.dirs[path] == w0.dirs[path])
  }

  /** On a calm machine: the locks from `left` on are gone, the others in place,
      and every other directory is as it was. */
  ghost predicate PartlyRemoved(w0: World, w: World, held: seq<HeldLock>, left: nat)
    requires left <= |held|
  {
    && (forall i | 0 <= i < left :: InPlace(w, held[i]))
    && (forall i | left <= i < |held| :: held[i].path !in w.dirs)
    && (forall q | (forall i | left <= i < |held| :: held[i].path != q) :: SameAt(w0, w, q))
  }

  lemma OneMoreRemoved(w0: World, w1: World, w2: World, held: seq<HeldLock>, left: nat)
    requires left < |held| && AllInPlace(w0, held)
    requires PartlyRemoved(w0, w1, held, left + 1) && Outcome(w1, w2, held[left].path, true, true)
    ensures PartlyRemoved(w0, w2, held, left)
  {
    forall i | 0 <= i < left
      ensures InPlace(w2, held[i])
    {
      assert held[i].path != held[left].path;
    }
    forall q | forall i | left <= i < |held| :: held[i].path != q
      ensures SameAt(w0, w2, q)
    {
      assert held[left].path != q;
      assert SameAt(w0, w1, q);
    }
  }

  lemma AllOursStable(w: World, w': World, me: Process, held: seq<HeldLock>)
    requires AllOurs(w, me, held) && Grown(w, w')
    ensures AllOurs(w', me, held)
  {
    forall i | 0 <= i < |held|
      ensures OursToRemove(w', me, held[i])
    {
      assert OursToRemove(w, me, held[i]);
    }
  }

  ghost predicate Apart(held: seq<HeldLock>) {
    forall i, j | 0 <= i < j < |held| :: held[i].path != held[j].path
  }

  ghost predicate AllStillOurs(w: World, me: Process, held: seq<HeldLock>) {
    Apart(held) && forall i | 0 <= i < |held| :: StillOurs(w, me, held[i])
  }

  /** From `left` on every lock has been dealt with, the others are still ours. */
  ghost predicate SettledFrom(passed: seq<World>, since: nat, w: World, me: Process, held: seq<HeldLock>, left: nat, complete: bool)
    requires left <= |held|
  {
    && (forall i | 0 <= i < left :: StillOurs(w, me, held[i]))
    && (forall i | left <= i < |held| :: Settled(passed, since, w, me, held[i], complete))
  }

  lemma AlteredStill(passed: seq<World>, passed': seq<World>, since: nat, since': nat, lock: HeldLock)
    requires Altered(passed, since, lock) && passed <= passed' && since' <= since
    ensures Altered(passed', since', lock)
  {
    var i: nat :| AlteredAt(passed, since, i, lock);
    assert AlteredAt(passed', since', i, lock);
  }

  lemma SettledElsewhere(passed: seq<World>, passed': seq<World>, since: nat, w: World, w': World, me: Process,
                         other: Path, lock: HeldLock, removed: bool)
    requires Settled(passed, since, w, me, lock, removed) && passed <= passed'
    requires Elsewhere(w, w', me, other) && other != lock.path
    ensures Settled(passed', since, w', me, lock, false) && (removed ==> Settled(passed', since, w', me, lock, true))
  {
    if GivenUp(w, me, lock) {
      HasElsewhere(w, w', me, other, lock.path, lock.suffix, {});
    } else {
      HasElsewhere(w, w', me, other, lock.path, lock.suffix, OwnNames(lock.suffix));
      AlteredStill(passed, passed', since, since, lock);
    }
  }

  lemma SettledSince(passed: seq<World>, since: nat, since': nat, w: World, me: Process, lock: HeldLock, removed: bool)
    requires Settled(passed, since, w, me, lock, removed) && since' <= since
    ensures Settled(passed, since', w, me, lock, false) && (removed ==> Settled(passed, since', w, me, lock, true))
  {
    if !GivenUp(w, me, lock) {
      AlteredStill(passed, passed, since, since', lock);
    }
  }

  lemma OneMoreSettled(passed: seq<World>, passed': seq<World>, since: nat, now: nat, w: World, w': World, me: Process,
                       held: seq<HeldLock>, left: nat, complete: bool, removed: bool)
    requires left < |held| && Apart(held) && passed <= passed' && since <= now
    requires SettledFrom(passed, since, w, me, held, left + 1, complete)
    requires Elsewhere(w, w', me, held[left].path) && Settled(passed', now, w', me, held[left], removed)
    ensures SettledFrom(passed', since, w', me, held, left, complete && removed)
  {
    forall i | 0 <= i < left
      ensures StillOurs(w', me, held[i])
    {
      assert held[i].path != held[left].path;
      HasElsewhere(w, w', me, held[left].path, held[i].path, held[i].suffix, OwnNames(held[i].suffix));
    }
    SettledSince(passed', now, since, w', me, held[left], removed);
    forall i | left < i < |held|
      ensures Settled(passed', since, w', me, held[i], complete && removed)
    {
      assert held[left].path != held[i].path;
      SettledElsewhere(passed, passed', since, w, w', me, held[left].path, held[i], complete);
    }
  }

  /** The locks from `left` on have been removed: whatever others did, as `SettledFrom` says, and
      on a calm machine with every lock in place, completely. */
  ghost predicate Removing(passed: seq<World>, since: nat, w0: World, w: World, me: Process, held: seq<HeldLock>, left: nat,
                           complete: bool, calm: bool)
    requires left <= |held|
  {
    && (AllStillOurs(w0, me, held) ==> SettledFrom(passed, since, w, me, held, left, complete))
    && (calm && AllInPlace(w0, held) ==> complete && PartlyRemoved(w0, w, held, left))
  }

  lemma RemovesOneMore(passed: seq<World>, passed': seq<World>, since: nat, now: nat, w0: World, w: World, w': World, me: Process,
                       held: seq<HeldLock>, left: nat, complete: bool, removed: bool, calm: bool)
    requires left < |held| && passed <= passed' && since <= now
    requires Removing(passed, since, w0, w, me, held, left + 1, complete, calm)
    requires Elsewhere(w, w', me, held[left].path)
    requires StillOurs(w, me, held[left]) ==> Settled(passed', now, w', me, held[left], removed)
    requires calm && InPlace(w, held[left]) ==> Outcome(w, w', held[left].path, true, removed)
    ensures Removing(passed', since, w0, w', me, held, left, complete && removed, calm)
  {
    if AllStillOurs(w0, me, held) {
      OneMoreSettled(passed, passed', since, now, w, w', me, held, left, complete, removed);
    }
    if calm && AllInPlace(w0, held) {
      OneMoreRemoved(w0, w, w', held, left);
    }
  }

  method RemoveAt(m: Machine, me: Process, held: seq<HeldLock>, i: nat, calm: bool) returns (removed: bool)
    requires m.Ready(me) && i < |held| && AllOurs(m.w, me, held)
    modifies m
    ensures m.Ready(me) && m.Going(calm) && AllOurs(m.w, me, held)
    ensures Elsewhere(old(m.w), m.w, me, held[i].path)
    ensures StillOurs(old(m.w), me, held[i]) ==> Settled(m.passed, old(m.Moment()), m.w, me, held[i], removed)
    ensures calm && InPlace(old(m.w), held[i]) ==> Outcome(old(m.w), m.w, held[i].path, true, removed)
  {
    m.Enter(me, held[i].path);
    removed := RemoveHeldLock(m, me, held[i], calm);
    AllOursStable(old(m.w), m.w, me, held);
  }

  /** Removes every lock, the last taken first, whatever becomes of each one. */
  method RemoveAll(m: Machine, me: Process, held: seq<HeldLock>, calm: bool) returns (complete: bool)
    requires m.Ready(me) && AllOurs(m.w, me, held)
    modifies m
    ensures m.Ready(me) && m.Going(calm)
    ensures AllStillOurs(old(m.w), me, held) ==> SettledFrom(m.passed, old(m.Moment()), m.w, me, held, 0, complete)
    ensures calm && AllInPlace(old(m.w), held) ==> complete && PartlyRemoved(old(m.w), m.w, held, 0)
  {
    complete := true;
    var left := |held|;
    while left > 0
      invariant 0 <= left <= |held|
      invariant m.Ready(me) && m.Going(calm) && AllOurs(m.w, me, held)
      invariant Removing(m.passed, old(m.Moment()), old(m.w), m.w, me, held, left, complete, calm)
    {
      ghost var before, passed, moment := m.w, m.passed, m.Moment();
      left := left - 1;
      var removed := RemoveAt(m, me, held, left, calm);
      RemovesOneMore(passed, m.passed, old(m.Moment()), moment, old(m.w), before, m.w, me, held, left, complete, removed, calm);
      complete := complete && removed;
    }
  }

  // The guard

  ghost predicate AllHeld(w: World, me: Process, paths: seq<Path>, held: seq<HeldLock>) {
    |held| <= |paths| && forall i | 0 <= i < |held| :: IsHeld(w, me, paths[i], held[i])
  }

  /** On a calm machine: the taken locks are in place and nothing else has changed,
      except stale locks on the way. */
  ghost predicate OnlyTaken(w0: World, w: World, held: seq<HeldLock>) {
    && AllInPlace(w, held)
    && forall q | (forall i | 0 <= i < |held| :: held[i].path != q) :: SameAt(w0, w, q)
  }

  lemma StillHeld(w: World, w': World, me: Process, path: Path, paths: seq<Path>, held: seq<HeldLock>)
    requires AllHeld(w, me, paths, held) && Elsewhere(w, w', me, path)
    requires forall i | 0 <= i < |held| :: paths[i] != path
    ensures AllHeld(w', me, paths, held)
  {
    forall i | 0 <= i < |held|
      ensures IsHeld(w', me, paths[i], held[i])
    {
      assert IsHeld(w, me, paths[i], held[i]);
    }
  }

  lemma SameElsewhere(w0: World, w: World, path: Path, q: Path)
    requires OnlyAt(w0, w, path) && q != path
    ensures SameAt(w0, w, q)
  {
    assert q in w.dirs <==> q in w.dirs - {path};
    assert q in w0.dirs <==> q in w0.dirs - {path};
    if q in w.dirs {
      assert (w.dirs - {path})[q] == (w0.dirs - {path})[q];
    }
  }

  lemma OneMoreTaken(w0: World, w1: World, w2: World, held: seq<HeldLock>, lock: HeldLock)
    requires OnlyTaken(w0, w1, held) && OnlyLocked(w1, w2, lock.path, lock)
    requires forall i | 0 <= i < |held| :: held[i].path != lock.path
    ensures OnlyTaken(w0, w2, held + [lock])
  {
    var held' := held + [lock];
    forall i | 0 <= i < |held'|
      ensures InPlace(w2, held'[i])
    {
      if i < |held| {
        assert InPlace(w1, held[i]);
        SameElsewhere(w1, w2, lock.path, held[i].path);
      }
    }
    forall q | forall i | 0 <= i < |held'| :: held'[i].path != q
      ensures SameAt(w0, w2, q)
    {
      assert held'[|held|] == lock;
      forall i | 0 <= i < |held|
        ensures held[i].path != q
      {
        assert held'[i].path != q;
      }
      assert SameAt(w0, w1, q);
      SameElsewhere(w1, w2, lock.path, q);
    }
  }

  lemma ConflictChangesNothing(w0: World, w1: World, w2: World, held: seq<HeldLock>)
    requires OnlyTaken(w0, w1, held) && w2.dirs == w1.dirs
    ensures OnlyTaken(w0, w2, held)
  {
    forall i | 0 <= i < |held|
      ensures InPlace(w2, held[i])
    {
      assert InPlace(w1, held[i]);
    }
    forall q | forall i | 0 <= i < |held| :: held[i].path != q
      ensures SameAt(w0, w2, q)
    {
      assert SameAt(w0, w1, q);
    }
  }

  /** On a calm machine: of the locks taken on the way nothing is left. */
  ghost predicate NothingLeft(w0: World, w: World, taken: seq<HeldLock>) {
    && (forall i | 0 <= i < |taken| :: taken[i].path !in w.dirs)
    && forall q | (forall i | 0 <= i < |taken| :: taken[i].path != q) :: SameAt(w0, w, q)
  }

  lemma RemovedAgain(w0: World, w1: World, w2: World, held: seq<HeldLock>)
    requires OnlyTaken(w0, w1, held) && PartlyRemoved(w1, w2, held, 0)
    ensures NothingLeft(w0, w2, held)
  {
    forall q | forall i | 0 <= i < |held| :: held[i].path != q
      ensures SameAt(w0, w2, q)
    {
      assert SameAt(w0, w1, q) && SameAt(w1, w2, q);
    }
  }

  class Guard {
    const machine: Machine
    const me: Process
    const held: seq<HeldLock>
    var releaseResult: Option<bool>

    constructor (machine: Machine, me: Process, held: seq<HeldLock>)
      ensures this.machine == machine && this.me == me && this.held == held && releaseResult == None
    {
      this.machine, this.me, this.held := machine, me, held;
      releaseResult := None;
    }

    /** Releases once; every later call repeats the first answer and does nothing.  A complete
        release gives up every lock; otherwise one may be left that was seen to be altered. */
    method Release(calm: bool) returns (complete: bool)
      requires machine.Ready(me) && AllOurs(machine.w, me, held)
      modifies this, machine
      ensures machine.Ready(me) && machine.Going(calm)
      ensures releaseResult == Some(complete)
      ensures old(releaseResult).Some? ==> complete == old(releaseResult).value && machine.w == old(machine.w)
      ensures old(releaseResult).None? && AllStillOurs(old(machine.w), me, held) ==>
        forall i | 0 <= i < |held| :: Settled(machine.passed, old(machine.Moment()), machine.w, me, held[i], complete)
      ensures old(releaseResult).None? && calm && AllInPlace(old(machine.w), held)
              ==> complete && NothingLeft(old(machine.w), machine.w, held)
    {
      if releaseResult.Some? {
        return releaseResult.value;
      }
      complete := RemoveAll(machine, me, held, calm);
      releaseResult := Some(complete);
    }
  }

  lemma HeldIsStillOurs(w: World, me: Process, path: Path, lock: HeldLock)
    requires Inv(w) && IsHeld(w, me, path, lock) && path in w.guarded
    ensures StillOurs(w, me, lock)
  {
    assert Backed(w, Holding(path, me, lock.suffix));
  }

  ghost predicate Guarded(w: World, paths: seq<Path>) {
    forall i | 0 <= i < |paths| :: paths[i] in w.guarded
  }

  lemma HeldAreStillOurs(w: World, me: Process, paths: seq<Path>, held: seq<HeldLock>)
    requires Inv(w) && AllHeld(w, me, paths, held) && Apart(held) && Guarded(w, paths)
    ensures AllStillOurs(w, me, held)
  {
    forall i | 0 <= i < |held|
      ensures StillOurs(w, me, held[i])
    {
      assert IsHeld(w, me, paths[i], held[i]);
      HeldIsStillOurs(w, me, paths[i], held[i]);
    }
  }

  lemma HoldingsKeepHeld(w: World, w': World, me: Process, paths: seq<Path>, held: seq<HeldLock>)
    requires AllHeld(w, me, paths, held) && Grown(w, w') && KeepsHoldings(w, w', me)
    ensures AllHeld(w', me, paths, held)
  {
    forall i | 0 <= i < |held|
      ensures IsHeld(w', me, paths[i], held[i])
    {
      assert IsHeld(w, me, paths[i], held[i]);
    }
  }

  /** Takes the next lock while keeping the ones already held; one that is held already is
      a conflict like any other. */
  method AcquireNext(m: Machine, me: Process, paths: seq<Path>, ghost held: seq<HeldLock>, next: nat,
                     pid: nat, token: Option<string>, grace: nat, calm: bool) returns (r: Acquired)
    requires m.Ready(me) && me in m.w.procs && IsIdentityOf(m.w.procs[me], pid, token)
    requires next < |paths| && |held| == next && AllHeld(m.w, me, paths, held)
    modifies m
    ensures m.Ready(me) && m.Going(calm)
    ensures AllHeld(m.w, me, paths, held)
    ensures r.Held? ==> IsHeld(m.w, me, paths[next], r.lock) && forall i | 0 <= i < next :: paths[i] != paths[next]
    ensures calm ==> (r.Held? <==> Free(m, old(m.w), paths[next], grace))
    ensures calm && r.Held? ==> OnlyLocked(old(m.w), m.w, paths[next], r.lock)
    ensures calm && r.Conflict? ==> m.w.dirs == old(m.w).dirs && m.w.now == old(m.w).now
  {
    m.Enter(me, paths[next]);
    r := AcquireOneLock(m, me, paths[next], pid, token, grace, calm);
    if i :| 0 <= i < next && paths[i] == paths[next] {
      assert IsHeld(old(m.w), me, paths[i], held[i]);
      HoldingsKeepHeld(old(m.w), m.w, me, paths, held);
    } else {
      StillHeld(old(m.w), m.w, me, paths[next], paths, held);
    }
  }

  lemma HeldIsOurs(w: World, me: Process, paths: seq<Path>, held: seq<HeldLock>)
    requires AllHeld(w, me, paths, held)
    ensures AllOurs(w, me, held)
  {
    forall i | 0 <= i < |held|
      ensures OursToRemove(w, me, held[i])
    {
      assert IsHeld(w, me, paths[i], held[i]);
    }
  }

  /** Gives back every lock taken so far. */
  method Unwind(m: Machine, me: Process, ghost w0: World, ghost paths: seq<Path>, held: seq<HeldLock>, calm: bool)
    requires m.Ready(me) && AllHeld(m.w, me, paths, held) && Apart(held) && Guarded(m.w, paths)
    requires calm ==> OnlyTaken(w0, m.w, held)
    modifies m
    ensures m.Ready(me) && m.Going(calm)
    ensures forall i | 0 <= i < |held| :: Settled(m.passed, old(m.Moment()), m.w, me, held[i], false)
    ensures calm ==> NothingLeft(w0, m.w, held)
  {
    HeldIsOurs(m.w, me, paths, held);
    HeldAreStillOurs(m.w, me, paths, held);
    var complete := RemoveAll(m, me, held, calm);
    if calm {
      RemovedAgain(w0, old(m.w), m.w, held);
    }
  }

  /** Nothing is there, or only an abandoned lock. */
  predicate Free(m: Machine, w: World, path: Path, grace: nat) {
    path !in w.dirs || Stale(m, w, path, grace)
  }

  /** A directory as old as it was, among the same processes, is as stale as it was. */
  lemma FreeStill(m: Machine, w0: World, w: World, path: Path, grace: nat)
    requires m.Steady() && SameProcesses(w0, w) && SameAt(w0, w, path) && w.now == w0.now
    ensures Free(m, w0, path, grace) <==> Free(m, w, path, grace)
  {
    if path in w.dirs {
      forall n | n in w.dirs[path].files.Keys && n.Entry?
        ensures m.MayBeLive(w0, n.suffix) == m.MayBeLive(w, n.suffix)
      {
        assert m.startToken(w0, n.suffix.pid) == m.startToken(w, n.suffix.pid);
        assert m.pidAlive(w0, n.suffix.pid) == m.pidAlive(w, n.suffix.pid);
      }
      forall n | n in w.dirs[path].files.Keys
        ensures AbandonedBy(m, w0, path, n, grace) <==> AbandonedBy(m, w, path, n, grace)
      {
      }
    }
  }

  /** All these paths are different and free. */
  ghost predicate AllFree(m: Machine, w: World, paths: seq<Path>, grace: nat) {
    && (forall i, j | 0 <= i < j < |paths| :: paths[i] != paths[j])
    && forall i | 0 <= i < |paths| :: Free(m, w, paths[i], grace)
  }

  /** With these locks taken, this path is as free as it was before. */
  lemma NextIsFree(m: Machine, w0: World, w: World, me: Process, paths: seq<Path>, held: seq<HeldLock>, grace: nat)
    requires m.Steady() && SameProcesses(w0, w) && OnlyTaken(w0, w, held) && w.now == w0.now
    requires AllHeld(w, me, paths, held) && |held| < |paths| && forall i | 0 <= i < |held| :: paths[i] != paths[|held|]
    ensures Free(m, w0, paths[|held|], grace) <==> Free(m, w, paths[|held|], grace)
  {
    forall i | 0 <= i < |held|
      ensures held[i].path != paths[|held|]
    {
      assert IsHeld(w, me, paths[i], held[i]);
    }
    FreeStill(m, w0, w, paths[|held|], grace);
  }

  /** On a calm and steady machine: the locks taken were free, and the next one, if there is one
      that was not taken, was not free or had been taken already. */
  ghost predicate ToConflict(m: Machine, w0: World, paths: seq<Path>, held: seq<HeldLock>, grace: nat)
    requires |held| <= |paths|
  {
    && AllFree(m, w0, paths[..|held|], grace)
    && (|held| < |paths| ==> paths[|held|] in paths[..|held|] || !Free(m, w0, paths[|held|], grace))
  }

  lemma OneMoreFree(m: Machine, w0: World, w: World, me: Process, paths: seq<Path>, held: seq<HeldLock>, grace: nat)
    requires m.Steady() && SameProcesses(w0, w) && OnlyTaken(w0, w, held) && w.now == w0.now
    requires AllHeld(w, me, paths, held) && |held| < |paths| && AllFree(m, w0, paths[..|held|], grace)
    requires Free(m, w, paths[|held|], grace) && forall i | 0 <= i < |held| :: paths[i] != paths[|held|]
    ensures AllFree(m, w0, paths[..|held| + 1], grace)
  {
    NextIsFree(m, w0, w, me, paths, held, grace);
    var more := paths[..|held| + 1];
    forall i | 0 <= i < |more|
      ensures Free(m, w0, more[i], grace)
    {
      assert i < |held| ==> Free(m, w0, paths[..|held|][i], grace);
    }
    forall i, j | 0 <= i < j < |more|
      ensures more[i] != more[j]
    {
      assert j < |held| ==> paths[..|held|][i] != paths[..|held|][j];
    }
  }

  lemma ConflictIsReal(m: Machine, w0: World, w: World, me: Process, paths: seq<Path>, held: seq<HeldLock>, grace: nat)
    requires m.Steady() && SameProcesses(w0, w) && OnlyTaken(w0, w, held) && w.now == w0.now
    requires AllHeld(w, me, paths, held) && |held| < |paths| && AllFree(m, w0, paths[..|held|], grace)
    requires !Free(m, w, paths[|held|], grace)
    ensures ToConflict(m, w0, paths, held, grace)
  {
    if paths[|held|] !in paths[..|held|] {
      forall i | 0 <= i < |held|
        ensures paths[i] != paths[|held|]
      {
        assert paths[..|held|][i] == paths[i];
      }
      NextIsFree(m, w0, w, me, paths, held, grace);
    }
  }

  /** Taking all of them is taking all that are free, if there is no real conflict. */
  lemma AllOrConflict(m: Machine, w0: World, paths: seq<Path>, held: seq<HeldLock>, grace: nat)
    requires |held| <= |paths| && ToConflict(m, w0, paths, held, grace)
    ensures |held| == |paths| <==> AllFree(m, w0, paths, grace)
  {
    if |held| == |paths| {
      assert paths[..|held|] == paths;
    } else if paths[|held|] in paths[..|held|] {
      var i :| 0 <= i < |held| && paths[i] == paths[|held|];
    }
  }

  /** On a calm machine: these locks were taken, and nothing else has happened. */
  ghost predicate Taken(m: Machine, w0: World, w: World, paths: seq<Path>, held: seq<HeldLock>, grace: nat)
    requires |held| <= |paths|
  {
    && OnlyTaken(w0, w, held) && w.now == w0.now && SameProcesses(w0, w)
    && (m.Steady() ==> AllFree(m, w0, paths[..|held|], grace))
  }

  lemma TakesOneMore(m: Machine, w0: World, w1: World, w2: World, me: Process, paths: seq<Path>, held: seq<HeldLock>,
                     lock: HeldLock, grace: nat)
    requires AllHeld(w1, me, paths, held) && |held| < |paths| && Taken(m, w0, w1, paths, held, grace)
    requires lock.path == paths[|held|] && OnlyLocked(w1, w2, lock.path, lock) && SameProcesses(w1, w2)
    requires Free(m, w1, paths[|held|], grace) && forall i | 0 <= i < |held| :: paths[i] != paths[|held|]
    ensures Taken(m, w0, w2, paths, held + [lock], grace)
  {
    forall i | 0 <= i < |held|
      ensures held[i].path == paths[i]
    {
      assert IsHeld(w1, me, paths[i], held[i]);
    }
    OneMoreTaken(w0, w1, w2, held, lock);
    if m.Steady() {
      OneMoreFree(m, w0, w1, me, paths, held, grace);
    }
  }

  lemma TakesNoMore(m: Machine, w0: World, w1: World, w2: World, me: Process, paths: seq<Path>, held: seq<HeldLock>, grace: nat)
    requires AllHeld(w1, me, paths, held) && |held| < |paths| && Taken(m, w0, w1, paths, held, grace)
    requires w2.dirs == w1.dirs && !Free(m, w1, paths[|held|], grace)
    ensures OnlyTaken(w0, w2, held) && (m.Steady() ==> ToConflict(m, w0, paths, held, grace))
  {
    ConflictChangesNothing(w0, w1, w2, held);
    if m.Steady() {
      ConflictIsReal(m, w0, w1, me, paths, held, grace);
    }
  }

  /** Takes one lock after the other, up to the first conflict. */
  method AcquireUpToConflict(m: Machine, me: Process, paths: seq<Path>, grace: nat, calm: bool) returns (held: seq<HeldLock>)
    requires m.Ready(me)
    modifies m
    ensures m.Ready(me) && m.Going(calm)
    ensures AllHeld(m.w, me, paths, held) && Apart(held)
    ensures calm ==> OnlyTaken(old(m.w), m.w, held)
    ensures calm && m.Steady() ==> ToConflict(m, old(m.w), paths, held, grace)
  {
    var pid, token := OwnIdentity(m, me);
    held := [];
    while |held| < |paths|
      invariant m.Ready(me) && m.Going(calm)
      invariant AllHeld(m.w, me, paths, held) && Apart(held)
      invariant calm ==> Taken(m, old(m.w), m.w, paths, held, grace)
      decreases |paths| - |held|
    {
      ghost var before := m.w;
      var r := AcquireNext(m, me, paths, held, |held|, pid, token, grace, calm);
      if r.Conflict? {
        if calm {
          TakesNoMore(m, old(m.w), before, m.w, me, paths, held, grace);
        }
        return;
      }
      if calm {
        TakesOneMore(m, old(m.w), before, m.w, me, paths, held, r.lock, grace);
      }
      ApartStill(m.w, me, paths, held, r.lock);
      held := held + [r.lock];
    }
  }

  /** All locks or none: a conflict on one removes every lock taken before it, and a lock
      asked for twice is such a conflict.  Whatever others do, no lock taken is left half
      removed, and one that is left was found altered after the conflict, in a world that was
      then passed; up to the conflict all of them were held.  Undisturbed, the guard is given
      exactly if the locks are all different and all free. */
  method AcquireRuntimeGuard(m: Machine, me: Process, paths: seq<Path>, grace: nat, calm: bool)
    returns (guard: Option<Guard>, ghost taken: seq<HeldLock>, ghost conflicted: nat)
    requires m.Ready(me) && Guarded(m.w, paths)
    modifies m
    ensures m.Ready(me) && m.Going(calm)
    ensures guard.Some? ==>
      && fresh(guard.value) && guard.value.machine == m && guard.value.me == me && guard.value.held == taken
      && |taken| == |paths| && AllHeld(m.w, me, paths, taken) && AllStillOurs(m.w, me, taken)
      && (calm ==> OnlyTaken(old(m.w), m.w, taken))
    ensures guard.None? ==>
      && |taken| < |paths| && (forall i | 0 <= i < |taken| :: taken[i].path == paths[i])
      && old(m.Moment()) <= conflicted < |m.passed| && AllStillOurs(m.passed[conflicted], me, taken)
      && (forall i | 0 <= i < |taken| :: Settled(m.passed, conflicted, m.w, me, taken[i], false))
      && (calm ==> NothingLeft(old(m.w), m.w, taken))
    ensures calm && m.Steady() ==> (guard.Some? <==> AllFree(m, old(m.w), paths, grace))
  {
    var held := AcquireUpToConflict(m, me, paths, grace, calm);
    if calm && m.Steady() {
      AllOrConflict(m, old(m.w), paths, held, grace);
    }
    HeldAreStillOurs(m.w, me, paths, held);
    taken, conflicted := held, m.Moment();
    if |held| < |paths| {
      Unwind(m, me, old(m.w), paths, held, calm);
      return None, taken, conflicted;
    }
    var g := new Guard(m, me, held);
    guard := Some(g);
  }

  lemma ApartStill(w: World, me: Process, paths: seq<Path>, held: seq<HeldLock>, lock: HeldLock)
    requires Apart(held) && |held| < |paths| && AllHeld(w, me, paths, held) && lock.path == paths[|held|]
    requires forall i | 0 <= i < |held| :: paths[i] != paths[|held|]
    ensures Apart(held + [lock])
  {
    forall i | 0 <= i < |held|
      ensures held[i].path == paths[i]
    {
      assert IsHeld(w, me, paths[i], held[i]);
    }
  }
}
