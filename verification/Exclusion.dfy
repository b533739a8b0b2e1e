/** What the locks guard: one turn at a time for an agent, one writer of the
    registry, and nobody in a team that is being torn down. */
module Exclusion {
  import opened Common
  import opened Registry
  import opened Flock
  import opened Commands
  import opened Wiring

  /** Between a validated acquire of an agent's lock and its release, or the
      unlink of its file. A reclaiming delete validates at its own check. */
  predicate Owns(p: Process) {
    match p.pc
    case In(section, _) => UnderAgentLock(section)
    case OnAgent(step) =>
      (match step
       case Turn => true
       case ChatRead => true
       case Chatting => true
       case LiveCheck => !p.command.Delete?
       case Reclaim => true
       case _ => false)
    case _ => false
  }

  /** Is the process past the team lock? */
  predicate Inside(p: Process) {
    !p.pc.OnTeam? && !p.pc.Done?
  }

  ghost predicate NeverOrphaned(k: Kernel, path: Path) {
    forall key | key in k.fds && k.fds[key].path == path :: Live(k, key)
  }

  ghost predicate Guarded(s: State) {
    && NeverOrphaned(s.kernel, TeamLock)
    && NeverOrphaned(s.kernel, StateLock)
    && (forall pid | pid in s.processes && Owns(s.processes[pid]) :: Live(s.kernel, Key(pid, AgentSlot)))
  }

  /** While a teardown removes files, every other command of the team is still
      waiting at the team lock or has left. */
  lemma TeardownIsAlone(s: State, pid: nat, other: nat)
    requires Wired(s) && NeverOrphaned(s.kernel, TeamLock)
    requires pid in s.processes && s.processes[pid].pc.Sweep?
    requires other in s.processes && other != pid
    ensures !Inside(s.processes[other])
    ensures Key(other, AgentSlot) !in s.kernel.fds && Key(other, StateSlot) !in s.kernel.fds
  {
    assert ProcessWired(s.teamed, s.kernel, pid, s.processes[pid]);
    assert ProcessWired(s.teamed, s.kernel, other, s.processes[other]);
    if TeamWant(s.teamed, s.processes[other]).Has? {
      OneExclusiveHolder(s.kernel, Key(pid, TeamSlot), Key(other, TeamSlot));
      assert false;
    }
  }

  lemma OneOwner(s: State, pid: nat, other: nat)
    requires Wired(s) && Guarded(s)
    requires pid in s.processes && Owns(s.processes[pid])
    requires other in s.processes && Owns(s.processes[other])
    requires s.processes[pid].target == s.processes[other].target
    ensures pid == other
  {
    assert ProcessWired(s.teamed, s.kernel, pid, s.processes[pid]);
    assert ProcessWired(s.teamed, s.kernel, other, s.processes[other]);
    OneExclusiveHolder(s.kernel, Key(pid, AgentSlot), Key(other, AgentSlot));
  }

  lemma SectionsKeepOwnership(p: Process, c: Choice, v: Sight)
    requires p.pc.In? && Owns(Advance(p, c, v)) && Fits(v.teamed, p)
    ensures Owns(p)
  {
    SectionsOwnNoMore(p, p.pc.section, p.pc.step, c, v);
    hide AdvanceInSection, Owns;
  }

  lemma SectionsOwnNoMore(p: Process, section: Section, step: SectionStep, c: Choice, v: Sight)
    requires p.pc == In(section, step) && Owns(AdvanceInSection(p, section, step, c, v)) && Fits(v.teamed, p)
    ensures Owns(p)
  {
    LookingFindsTheAgentAlone(p, section);
    hide Ruling, Looked;
  }

  lemma AgentStepsKeepOwnership(p: Process, c: Choice, v: Sight)
    requires p.pc.OnAgent? && Owns(Advance(p, c, v)) && Fits(v.teamed, p)
    ensures Owns(p) || v.live
    ensures p.pc.agentStep != Reclaim
  {
    if Acquiring(p.pc.agentStep) {
      OwnershipNeedsALiveInode(p, p.pc.agentStep, c, v);
    } else {
      HoldersOwnOn(p, p.pc.agentStep, c, v);
    }
    hide AdvanceInSection, Acquire, HoldOn, Owns;
  }

  lemma OwnershipNeedsALiveInode(p: Process, step: AgentStep, c: Choice, v: Sight)
    requires Acquiring(step) && p.pc == OnAgent(step) && Owns(Acquire(p, step, c, v)) && Fits(v.teamed, p)
    ensures v.live
  {
  }

  lemma HoldersOwnOn(p: Process, step: AgentStep, c: Choice, v: Sight)
    requires !Acquiring(step) && p.pc == OnAgent(step) && Owns(HoldOn(p, step, c, v)) && Fits(v.teamed, p)
    ensures (Owns(p) || v.live) && !step.Reclaim?
  {
  }

  lemma OtherStepsOwnNothing(p: Process, c: Choice, v: Sight)
    requires !p.pc.In? && !p.pc.OnAgent? && Fits(v.teamed, p)
    ensures !Owns(Advance(p, c, v))
  {
    hide AdvanceInSection, AdvanceOnAgent;
  }

  /** Ownership starts with a live inode and lasts until a release or an unlink. */
  lemma OwnershipHasASource(p: Process, c: Choice, v: Sight)
    requires Owns(Advance(p, c, v)) && Fits(v.teamed, p)
    ensures Owns(p) || v.live
    ensures !Issue(p, c, v).Unlink?
  {
    if Issue(p, c, v).Unlink? { UnlinksAreReclaims(p, c, v); }
    hide Owns, Advance, Issue;
    if p.pc.In? {
      SectionsKeepOwnership(p, c, v);
    } else if p.pc.OnAgent? {
      AgentStepsKeepOwnership(p, c, v);
    } else {
      OtherStepsOwnNothing(p, c, v);
    }
  }

  /** A descriptor that survives a call was live before or has just been opened. */
  lemma CallKeepsLive(k: Kernel, pid: nat, call: Syscall, key: Key)
    requires Sound(k) && Permitted(k, pid, call) && key in Execute(k, pid, call).fds
    requires key in k.fds ==> Live(k, key)
    requires call != Unlink(Execute(k, pid, call).fds[key].path)
    ensures Live(Execute(k, pid, call), key)
  {
  }

  lemma CallOrphansNone(k: Kernel, pid: nat, call: Syscall, path: Path)
    requires Sound(k) && Permitted(k, pid, call) && NeverOrphaned(k, path)
    requires call == Unlink(path) ==> forall key | key in k.fds :: k.fds[key].path != path
    ensures NeverOrphaned(Execute(k, pid, call), path)
  {
    var after := Execute(k, pid, call);
    forall key | key in after.fds && after.fds[key].path == path
      ensures Live(after, key)
    {
      if call != Unlink(path) { CallKeepsLive(k, pid, call, key); }
    }
  }

  /** Only a reclaim and a teardown unlink, each its own kind of path. */
  lemma UnlinksAreReclaims(p: Process, c: Choice, v: Sight)
    requires Issue(p, c, v).Unlink?
    ensures p.pc.Sweep? || (p.pc == OnAgent(Reclaim) && Issue(p, c, v).path == OwnPath(p))
  {
  }

  lemma SweepMeetsNoStateLock(s: State, pid: nat, key: Key)
    requires Wired(s) && NeverOrphaned(s.kernel, TeamLock)
    requires pid in s.processes && s.processes[pid].pc.Sweep? && key in s.kernel.fds
    ensures s.kernel.fds[key].path == TeamLock
  {
    assert ProcessWired(s.teamed, s.kernel, key.pid, s.processes[key.pid]);
    if key.pid != pid { TeardownIsAlone(s, pid, key.pid); }
    assert key == Key(key.pid, key.slot) && (key.slot.TeamSlot? || key.slot.AgentSlot? || key.slot.StateSlot?);
  }

  lemma SharedPathsAreSwept(s: State, pid: nat, c: Choice)
    requires Possible(s, Step(pid, c))
    ensures Call(s, pid, c) != Unlink(TeamLock)
    ensures Call(s, pid, c) == Unlink(StateLock) ==> s.processes[pid].pc.Sweep?
  {
    var p := s.processes[pid];
    if Call(s, pid, c).Unlink? { UnlinksAreReclaims(p, c, See(s, pid, p, c)); }
  }

  lemma SharedPathsSurvive(s: State, pid: nat, c: Choice)
    requires Wired(s) && Guarded(s) && Possible(s, Step(pid, c))
    ensures NeverOrphaned(Execute(s.kernel, pid, Call(s, pid, c)), TeamLock)
    ensures NeverOrphaned(Execute(s.kernel, pid, Call(s, pid, c)), StateLock)
  {
    var p, call := s.processes[pid], Call(s, pid, c);
    SharedPathsAreSwept(s, pid, c);
    if p.pc.Sweep? {
      forall key | key in s.kernel.fds { SweepMeetsNoStateLock(s, pid, key); }
    }
    hide Issue, See, Enabled, NeverOrphaned, Sound;
    CallOrphansNone(s.kernel, pid, call, TeamLock);
    CallOrphansNone(s.kernel, pid, call, StateLock);
  }

  lemma MoverKeepsOwnership(s: State, pid: nat, c: Choice)
    requires Wired(s) && Guarded(s) && Possible(s, Step(pid, c))
    requires Owns(Moved(s, pid, c))
    ensures Live(Execute(s.kernel, pid, Call(s, pid, c)), Key(pid, AgentSlot))
  {
    StepParts(s, pid, c);
    var p := s.processes[pid];
    assert ProcessWired(s.teamed, s.kernel, pid, p);
    OwnershipHasASource(p, c, See(s, pid, p, c));
    MoverStaysWired(s, pid, c);
    CallKeepsLive(s.kernel, pid, Call(s, pid, c), Key(pid, AgentSlot));
  }

  lemma OtherKeepsOwnership(s: State, pid: nat, c: Choice, other: nat)
    requires Wired(s) && Guarded(s) && Possible(s, Step(pid, c))
    requires other in s.processes && other != pid && Owns(s.processes[other])
    ensures Live(Execute(s.kernel, pid, Call(s, pid, c)), Key(other, AgentSlot))
  {
    StepParts(s, pid, c);
    var p, call := s.processes[pid], Call(s, pid, c);
    assert ProcessWired(s.teamed, s.kernel, other, s.processes[other]);
    if call.Unlink? {
      UnlinksAreReclaims(p, c, See(s, pid, p, c));
      if p.pc.Sweep? {
        TeardownIsAlone(s, pid, other);
      } else if p.target == s.processes[other].target {
        OneOwner(s, pid, other);
      }
    }
    OthersUntouched(s.kernel, pid, call, Key(other, AgentSlot));
  }

  lemma StepKeepsGuarded(s: State, pid: nat, c: Choice)
    requires Wired(s) && Guarded(s) && Possible(s, Step(pid, c))
    ensures Guarded(After(s, Step(pid, c)))
  {
    StepParts(s, pid, c);
    SharedPathsSurvive(s, pid, c);
    var t := After(s, Step(pid, c));
    forall other | other in t.processes && Owns(t.processes[other])
      ensures Live(t.kernel, Key(other, AgentSlot))
    {
      if other == pid { MoverKeepsOwnership(s, pid, c); } else { OtherKeepsOwnership(s, pid, c, other); }
    }
  }

  lemma EventKeepsGuarded(s: State, e: Event)
    requires Wired(s) && Guarded(s) && Possible(s, e)
    ensures Guarded(After(s, e))
  {
    match e
    case Begin(pid, command) =>
    case Step(pid, c) => StepKeepsGuarded(s, pid, c);
    case Die(pid) =>
      var t := After(s, e);
      assert forall key | key in t.kernel.fds :: key in s.kernel.fds && Live(s.kernel, key) == Live(t.kernel, key);
      forall other | other in t.processes && Owns(t.processes[other])
        ensures Live(t.kernel, Key(other, AgentSlot))
      {
        assert ProcessWired(s.teamed, s.kernel, other, s.processes[other]);
      }
  }
}
