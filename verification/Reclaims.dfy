/** Lock files do not pile up: whoever finds its agent gone leaves no live lock file
    behind. */
module Reclaims {
  import opened Common
  import opened Registry
  import opened Flock
  import opened Commands
  import opened Wiring
  import opened Exclusion
  import opened Commits
  import opened Outcomes

  /** Is the process done with the lock of an agent that it deleted or did not find? */
  predicate Leaving(p: Process) {
    && p.pc == OnAgent(AgentUnlock)
    && (p.command.Delete? || ((p.command.Talk? || p.command.Chat?) && p.target !in p.view && !p.gaveUp))
  }

  ghost predicate Reclaimed(s: State) {
    forall pid | pid in s.processes && Leaving(s.processes[pid]) :: !Live(s.kernel, Key(pid, AgentSlot))
  }

  /** What has lost its name does not get it back: a path is never made to name an
      inode somebody has open. */
  lemma DeadStaysDead(k: Kernel, pid: nat, call: Syscall, key: Key)
    requires Sound(k) && Permitted(k, pid, call) && key in k.fds && key.pid != pid && !Live(k, key)
    ensures !Live(Execute(k, pid, call), key)
  {
  }

  lemma SectionsLeaveNothing(p: Process, log: seq<Op>, c: Choice, v: Sight)
    requires p.pc.In? && Fits(v.teamed, p) && Truthful(log, v.abilities, p)
    ensures !Leaving(AdvanceInSection(p, p.pc.section, p.pc.step, c, v))
  {
    hide Ruling, Wrote, Asked;
  }

  lemma LockStepsLeaveNothing(p: Process, log: seq<Op>, c: Choice, v: Sight)
    requires p.pc.OnAgent? && Acquiring(p.pc.agentStep) && Fits(v.teamed, p)
    ensures !Leaving(AdvanceOnAgent(p, p.pc.agentStep, c, v))
  {
    hide AdvanceInSection, HoldOn;
  }

  lemma LeavingSteps(p: Process, log: seq<Op>, c: Choice, v: Sight)
    requires p.pc.OnAgent? && !Acquiring(p.pc.agentStep) && Fits(v.teamed, p) && Truthful(log, v.abilities, p)
    requires Leaving(AdvanceOnAgent(p, p.pc.agentStep, c, v))
    ensures (p.pc.agentStep.LiveCheck? && !v.live) || p.pc.agentStep.Reclaim?
  {
    hide AdvanceInSection, Acquire, Logged, Found;
  }

  lemma LeavingHasASource(p: Process, log: seq<Op>, c: Choice, v: Sight)
    requires Leaving(Advance(p, c, v)) && Fits(v.teamed, p) && Truthful(log, v.abilities, p)
    ensures (p.pc == OnAgent(LiveCheck) && !v.live) || p.pc == OnAgent(Reclaim)
  {
    hide AdvanceInSection, AdvanceOnAgent, Fits, Truthful, Leaving;
    if p.pc.In? {
      SectionsLeaveNothing(p, log, c, v);
    } else if p.pc.OnAgent? {
      if Acquiring(p.pc.agentStep) { LockStepsLeaveNothing(p, log, c, v); } else { LeavingSteps(p, log, c, v); }
    } else {
      OthersLeaveNothing(p, c, v);
    }
  }

  lemma OthersLeaveNothing(p: Process, c: Choice, v: Sight)
    requires !p.pc.In? && !p.pc.OnAgent?
    ensures !Leaving(Advance(p, c, v))
  {
    hide AdvanceInSection, AdvanceOnAgent;
  }

  /** The two ways to leave: nothing live was there to remove, or it has been. */
  lemma LeavesNothing(k: Kernel, pid: nat, p: Process, c: Choice, v: Sight)
    requires Meets(k, Key(pid, AgentSlot), OwnPath(p), AgentWant(p)) && v.live == Live(k, Key(pid, AgentSlot))
    requires (p.pc == OnAgent(LiveCheck) && !v.live) || p.pc == OnAgent(Reclaim)
    requires Permitted(k, pid, Issue(p, c, v))
    ensures !Live(Execute(k, pid, Issue(p, c, v)), Key(pid, AgentSlot))
  {
    assert Issue(p, c, v) == if p.pc == OnAgent(Reclaim) then Unlink(OwnPath(p)) else Nop;
    hide Issue;
  }

  lemma MoverLeavesNothing(s: State, pid: nat, c: Choice)
    requires Wired(s) && Told(s) && Possible(s, Step(pid, c)) && Leaving(Moved(s, pid, c))
    ensures !Live(Execute(s.kernel, pid, Call(s, pid, c)), Key(pid, AgentSlot))
  {
    var p, v := s.processes[pid], See(s, pid, s.processes[pid], c);
    WiredAtAgent(s, pid);
    assert Truthful(s.log, s.abilities, p);
    StepParts(s, pid, c);
    hide Told, Wired, Truthful, Enabled, Leaving, Advance, Meets, Execute, Live, Issue, Effects, After, Fits, Permitted;
    LeavingHasASource(p, s.log, c, v);
    LeavesNothing(s.kernel, pid, p, c, v);
  }

  lemma WiredAtAgent(s: State, pid: nat)
    requires Wired(s) && pid in s.processes
    ensures Fits(s.teamed, s.processes[pid])
    ensures Meets(s.kernel, Key(pid, AgentSlot), OwnPath(s.processes[pid]), AgentWant(s.processes[pid]))
  {
    hide Sound, Meets, Fits;
    assert ProcessWired(s.teamed, s.kernel, pid, s.processes[pid]);
  }

  lemma StepKeepsReclaimed(s: State, pid: nat, c: Choice)
    requires Wired(s) && Told(s) && Reclaimed(s) && Possible(s, Step(pid, c))
    ensures Reclaimed(After(s, Step(pid, c)))
  {
    StepParts(s, pid, c);
    var t := After(s, Step(pid, c));
    hide Effects, Told, Call, Moved, Enabled, After, Execute, Permitted, Fits;
    forall other | other in t.processes && Leaving(t.processes[other]) ensures !Live(t.kernel, Key(other, AgentSlot)) {
      if other == pid {
        MoverLeavesNothing(s, pid, c);
      } else {
        LeavingHolds(s, other);
        DeadStaysDead(s.kernel, pid, Call(s, pid, c), Key(other, AgentSlot));
      }
    }
  }

  lemma LeavingHolds(s: State, pid: nat)
    requires Wired(s) && pid in s.processes && Leaving(s.processes[pid])
    ensures Key(pid, AgentSlot) in s.kernel.fds
  {
    hide Sound, Fits;
    assert ProcessWired(s.teamed, s.kernel, pid, s.processes[pid]);
  }

  lemma EventKeepsReclaimed(s: State, e: Event)
    requires Wired(s) && Told(s) && Reclaimed(s) && Possible(s, e)
    ensures Reclaimed(After(s, e))
  {
    hide Wired, Told;
    match e
    case Begin(pid, command) =>
    case Step(pid, c) => StepKeepsReclaimed(s, pid, c);
    case Die(pid) => ReapOnlyDrops(s.kernel, pid);
  }
}
