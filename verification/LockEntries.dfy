/** How a process names and writes the entries of a lock directory. */
module LockEntries {
  import opened Common
  import opened Host
  import opened Syscalls

  predicate IsIdentityOf(id: Identity, pid: nat, token: Option<string>) {
    id.pid == pid && (token.None? || token.value == id.token)
  }

  /** The pid of `me`, and its start token if it can be read. */
  method OwnIdentity(m: Machine, me: Process) returns (pid: nat, token: Option<string>)
    requires m.Ready(me)
    ensures me in m.w.procs && IsIdentityOf(m.w.procs[me], pid, token)
  {
    assert m.HonestAbout(m.w, me);
    pid := m.w.procs[me].pid;
    token := m.startToken(m.w, pid);
  }

  /** A suffix no process has used before. */
  method DrawSuffix(m: Machine, me: Process, ghost path: Path, pid: nat, token: Option<string>, calm: bool)
    returns (suffix: Suffix)
    requires m.Working(me, path)
    requires me in m.w.procs && IsIdentityOf(m.w.procs[me], pid, token)
    modifies m`w, m`passed
    ensures m.Working(me, path) && m.Going(calm)
    ensures AuthoredBy(m.w, suffix, me)
    ensures calm ==> m.w.dirs == old(m.w).dirs && m.w.now == old(m.w).now
  {
    var nonce, mid := m.Draw(me, path, calm);
    return Suffix(pid, token, nonce);
  }

  /** On a calm machine: the lock directory gained this one file, complete. */
  ghost predicate Written(w0: World, w: World, path: Path, name: Name) {
    && path in w0.dirs && name.Entry?
    && w.dirs == w0.dirs[path := Touch(w0.dirs[path], w0.now, w0.dirs[path].files[name := Some(name.suffix)])]
    && w.now == w0.now
  }

  method WriteEntry(m: Machine, me: Process, path: Path, name: Name, calm: bool) returns (ok: bool)
    requires m.Working(me, path)
    requires name.Entry? && AuthoredBy(m.w, name.suffix, me)
    modifies m`w, m`passed
    ensures m.Working(me, path) && m.Going(calm)
    ensures calm && path in old(m.w).dirs && !HasEntry(old(m.w), path, name) ==> ok && Written(old(m.w), m.w, path, name)
  {
    var created, mid := m.Create(me, path, name, calm);
    if !created {
      return false;
    }
    var filled, mid' := m.Fill(me, path, name, calm);
    if calm {
      assert m.w.dirs[path].files == old(m.w).dirs[path].files[name := Some(name.suffix)];
    }
    return filled;
  }
}
