/** The operating system under the lock protocol: directory entries, inodes,
    open descriptors and advisory locks.

    A lock binds to the inode behind a descriptor, never to the path that was
    opened. An unlinked path leaves its inode alive for as long as a descriptor
    is open on it, and an inode number is handed out again only once it is
    neither named nor open. */
module Flock {
  import opened Common

  datatype Path = TeamLock | StateLock | AgentLock(name: string)
  datatype Mode = Shared | Exclusive

  // The one descriptor a process has open for each kind of lock.
  datatype Slot = TeamSlot | AgentSlot | StateSlot
  datatype Key = Key(pid: nat, slot: Slot)

  /** `since` counts the unlinks of `path` at the time it was opened. */
  datatype Fd = Fd(path: Path, inode: nat, held: Option<Mode>, since: nat)

  datatype Kernel = Kernel(dir: map<Path, nat>, fds: map<Key, Fd>, unlinks: map<Path, nat>)

  datatype Syscall =
    | Nop
    | Open(slot: Slot, path: Path, unused: nat)
    | Lock(slot: Slot, mode: Mode)
    | Unlock(slot: Slot)
    | Close(slot: Slot)
    | Unlink(path: Path)

  function Unlinks(k: Kernel, path: Path): nat {
    if path in k.unlinks then k.unlinks[path] else 0
  }

  /** Is the open inode still the one its path names? */
  predicate Live(k: Kernel, key: Key) {
    key in k.fds && k.fds[key].path in k.dir && k.dir[k.fds[key].path] == k.fds[key].inode
  }

  predicate Free(k: Kernel, inode: nat) {
    && (forall path | path in k.dir :: k.dir[path] != inode)
    && (forall key | key in k.fds :: k.fds[key].inode != inode)
  }

  predicate Conflicts(k: Kernel, key: Key, other: Key, mode: Mode)
    requires key in k.fds && other in k.fds
  {
    && other != key
    && k.fds[other].inode == k.fds[key].inode
    && k.fds[other].held.Some?
    && !(mode.Shared? && k.fds[other].held.value.Shared?)
  }

  predicate Grantable(k: Kernel, key: Key, mode: Mode) {
    key in k.fds && forall other | other in k.fds :: !Conflicts(k, key, other, mode)
  }

  predicate Permitted(k: Kernel, pid: nat, call: Syscall) {
    match call
    case Nop => true
    case Open(slot, path, unused) => Key(pid, slot) !in k.fds && (path in k.dir || Free(k, unused))
    case Lock(slot, mode) => Grantable(k, Key(pid, slot), mode)
    case Unlock(slot) => Key(pid, slot) in k.fds
    case Close(slot) => Key(pid, slot) in k.fds
    case Unlink(_) => true
  }

  function Execute(k: Kernel, pid: nat, call: Syscall): Kernel
    requires Permitted(k, pid, call)
  {
    match call
    case Nop => k
    case Open(slot, path, unused) =>
      var inode := if path in k.dir then k.dir[path] else unused;
      k.(dir := k.dir[path := inode],
         fds := k.fds[Key(pid, slot) := Fd(path, inode, None, Unlinks(k, path))])
    case Lock(slot, mode) =>
      k.(fds := k.fds[Key(pid, slot) := k.fds[Key(pid, slot)].(held := Some(mode))])
    case Unlock(slot) =>
      k.(fds := k.fds[Key(pid, slot) := k.fds[Key(pid, slot)].(held := None)])
    case Close(slot) => k.(fds := k.fds - {Key(pid, slot)})
    case Unlink(path) =>
      if path in k.dir then
        k.(dir := k.dir - {path}, unlinks := k.unlinks[path := Unlinks(k, path) + 1])
      else k
  }

  /** What the kernel does for a process that dies: every descriptor closes,
      and its locks go with it. */
  function Reap(k: Kernel, pid: nat): Kernel {
    k.(fds := map key | key in k.fds && key.pid != pid :: k.fds[key])
  }

  /** A path names one inode, and no two paths name the same one. */
  ghost predicate DistinctNames(k: Kernel) {
    forall a, b | a in k.dir && b in k.dir && k.dir[a] == k.dir[b] :: a == b
  }

  /** An inode in use belongs to one path, both in the directory and among the
      open descriptors: a number is reused only after its last user is gone. */
  ghost predicate OnePathPerInode(k: Kernel) {
    && (forall key, path | key in k.fds && path in k.dir && k.dir[path] == k.fds[key].inode ::
          path == k.fds[key].path)
    && (forall a, b | a in k.fds && b in k.fds && k.fds[a].inode == k.fds[b].inode ::
          k.fds[a].path == k.fds[b].path)
  }

  ghost predicate LocksCompatible(k: Kernel) {
    forall a, b | a in k.fds && b in k.fds && k.fds[b].held.Some? ::
      k.fds[a].held.Some? ==> !Conflicts(k, a, b, k.fds[a].held.value)
  }

  /** A descriptor goes dead only through an unlink of its path after it was
      opened. */
  ghost predicate UnlinksCounted(k: Kernel) {
    forall key | key in k.fds ::
      && k.fds[key].since <= Unlinks(k, k.fds[key].path)
      && (Live(k, key) || k.fds[key].since < Unlinks(k, k.fds[key].path))
  }

  ghost predicate Sound(k: Kernel) {
    DistinctNames(k) && OnePathPerInode(k) && LocksCompatible(k) && UnlinksCounted(k)
  }

  lemma ExecuteTouchesOwn(k: Kernel, pid: nat, call: Syscall)
    requires Permitted(k, pid, call)
    ensures forall key | key in Execute(k, pid, call).fds :: key in k.fds || key.pid == pid
  {
  }

  lemma OnlyUnlinksRemove(k: Kernel, pid: nat, call: Syscall, path: Path)
    requires Permitted(k, pid, call) && path in k.dir && path !in Execute(k, pid, call).dir
    ensures call == Unlink(path)
  {
  }

  lemma ExecuteKeepsNames(k: Kernel, pid: nat, call: Syscall)
    requires DistinctNames(k) && OnePathPerInode(k) && Permitted(k, pid, call)
    ensures DistinctNames(Execute(k, pid, call)) && OnePathPerInode(Execute(k, pid, call))
  {
  }

  lemma ExecuteKeepsLocks(k: Kernel, pid: nat, call: Syscall)
    requires LocksCompatible(k) && Permitted(k, pid, call)
    ensures LocksCompatible(Execute(k, pid, call))
  {
  }

  lemma ExecuteKeepsCounts(k: Kernel, pid: nat, call: Syscall)
    requires UnlinksCounted(k) && Permitted(k, pid, call)
    ensures UnlinksCounted(Execute(k, pid, call))
  {
  }

  lemma ExecuteKeepsSound(k: Kernel, pid: nat, call: Syscall)
    requires Sound(k) && Permitted(k, pid, call)
    ensures Sound(Execute(k, pid, call))
  {
    ExecuteKeepsNames(k, pid, call);
    ExecuteKeepsLocks(k, pid, call);
    ExecuteKeepsCounts(k, pid, call);
  }

  lemma ReapOnlyDrops(k: Kernel, pid: nat)
    ensures Reap(k, pid).dir == k.dir && Reap(k, pid).unlinks == k.unlinks
    ensures forall key :: key in Reap(k, pid).fds <==> key in k.fds && key.pid != pid
    ensures forall key | key in Reap(k, pid).fds :: Reap(k, pid).fds[key] == k.fds[key]
  {
  }

  lemma ReapKeepsLocks(k: Kernel, pid: nat)
    requires LocksCompatible(k)
    ensures LocksCompatible(Reap(k, pid))
  {
    var after := Reap(k, pid);
    ReapOnlyDrops(k, pid);
    hide Reap;
    forall a, b | a in after.fds && b in after.fds && after.fds[b].held.Some? && after.fds[a].held.Some?
      ensures !Conflicts(after, a, b, after.fds[a].held.value)
    {
      assert !Conflicts(k, a, b, k.fds[a].held.value);
    }
  }

  lemma ReapKeepsCounts(k: Kernel, pid: nat)
    requires UnlinksCounted(k)
    ensures UnlinksCounted(Reap(k, pid))
  {
    var after := Reap(k, pid);
    ReapOnlyDrops(k, pid);
    hide Reap;
    assert forall key | key in after.fds :: Live(k, key) == Live(after, key);
  }

  lemma ReapKeepsSound(k: Kernel, pid: nat)
    requires Sound(k)
    ensures Sound(Reap(k, pid))
  {
    ReapKeepsLocks(k, pid);
    ReapKeepsCounts(k, pid);
    ReapOnlyDrops(k, pid);
    hide Reap, LocksCompatible, UnlinksCounted;
  }

  /** A call leaves every other descriptor as it was, and only an unlink of its
      own path can kill one. */
  lemma OthersUntouched(k: Kernel, pid: nat, call: Syscall, key: Key)
    requires Sound(k) && Permitted(k, pid, call) && key in k.fds
    requires key.pid != pid
    ensures key in Execute(k, pid, call).fds && Execute(k, pid, call).fds[key] == k.fds[key]
    ensures Live(k, key) && call != Unlink(k.fds[key].path) ==> Live(Execute(k, pid, call), key)
  {
  }

  /** Two descriptors that are both live on one path share an inode, so they
      cannot both hold it unless both share it. */
  lemma OneExclusiveHolder(k: Kernel, a: Key, b: Key)
    requires Sound(k) && Live(k, a) && Live(k, b)
    requires k.fds[a].path == k.fds[b].path
    requires k.fds[a].held == Some(Exclusive) && k.fds[b].held.Some?
    ensures a == b
  {
  }

  /** The allocator never runs dry. */
  lemma FreeInodeExists(k: Kernel) returns (inode: nat)
    ensures Free(k, inode)
  {
    var used := (set path | path in k.dir :: k.dir[path]) + (set key | key in k.fds :: k.fds[key].inode);
    inode := Above(used);
    assert forall path | path in k.dir :: k.dir[path] in used;
    assert forall key | key in k.fds :: k.fds[key].inode in used;
  }

  lemma Above(s: set<nat>) returns (bound: nat)
    ensures forall x | x in s :: x < bound
  {
    bound := 0;
    var rest := s;
    while rest != {}
      invariant rest <= s
      invariant forall x | x in s && x !in rest :: x < bound
      decreases rest
    {
      var x :| x in rest;
      rest := rest - {x};
      bound := if x < bound then bound else x + 1;
    }
  }
}
