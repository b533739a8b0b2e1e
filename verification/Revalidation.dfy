/** The bound on the revalidation loop: an attempt fails only when somebody has
    unlinked the path since it was opened, so giving up is never the fault of a
    quiet path. */
module Revalidation {
  import opened Common
  import opened Registry
  import opened Flock
  import opened Commands
  import opened Wiring

  /** Failed attempts never outrun the unlinks of the path since its first open. */
  ghost predicate Excused(k: Kernel, pid: nat, p: Process) {
    p.command.Talk? || p.command.Chat? ==>
      && (p.attempts > 0 ==> p.firstSeen + p.attempts <= Unlinks(k, OwnPath(p)))
      && (p.pc == OnAgent(AgentWait) || p.pc == OnAgent(Revalidate) ==>
            Key(pid, AgentSlot) in k.fds && p.firstSeen + p.attempts <= k.fds[Key(pid, AgentSlot)].since)
      && (p.gaveUp <==> p.attempts >= MAX_REVALIDATE_ATTEMPTS) && p.attempts <= MAX_REVALIDATE_ATTEMPTS
      && (p.gaveUp ==> Ending(p.pc))
  }

  /** On the way out, from the release of an agent's lock on. */
  predicate Ending(pc: Pc) {
    match pc
    case OnTeam(step) => step.TeamUnlock? || step.TeamClose?
    case OnAgent(step) => step.AgentUnlock? || step.AgentClose?
    case _ => pc.Done?
  }

  ghost predicate Patient(s: State) {
    forall pid | pid in s.processes :: Excused(s.kernel, pid, s.processes[pid])
  }

  lemma UnlinksOnlyGrow(k: Kernel, pid: nat, call: Syscall, path: Path)
    requires Permitted(k, pid, call)
    ensures Unlinks(k, path) <= Unlinks(Execute(k, pid, call), path)
  {
  }

  /** The steps outside the loop leave its counters alone. */
  predicate Unhurried(p: Process, q: Process) {
    && q.command == p.command && q.attempts == p.attempts && q.firstSeen == p.firstSeen && q.gaveUp == p.gaveUp
    && (q.target == p.target || p.command.List?)
    && q.pc != OnAgent(AgentWait) && q.pc != OnAgent(Revalidate)
    && (Ending(p.pc) ==> Ending(q.pc) || p.command.List?)
  }

  predicate InLoop(step: AgentStep) { step.AgentOpen? || step.AgentWait? || step.Revalidate? }

  lemma LockStepsUnhurried(p: Process, step: AgentStep, c: Choice, v: Sight)
    requires p.pc == OnAgent(step) && Acquiring(step) && !InLoop(step) && (step.Probe? ==> p.command.List?)
    ensures Unhurried(p, Acquire(p, step, c, v))
  {
  }

  lemma HoldingUnhurried(p: Process, step: AgentStep, c: Choice, v: Sight)
    requires p.pc == OnAgent(step) && !Acquiring(step)
    ensures Unhurried(p, HoldOn(p, step, c, v))
  {
  }

  lemma AgentStepsUnhurried(p: Process, c: Choice, v: Sight)
    requires Fits(v.teamed, p) && p.pc.OnAgent? && !InLoop(p.pc.agentStep)
    ensures Unhurried(p, Advance(p, c, v))
  {
    hide AdvanceInSection, Acquire, HoldOn, Unhurried;
    if Acquiring(p.pc.agentStep) {
      LockStepsUnhurried(p, p.pc.agentStep, c, v);
    } else {
      HoldingUnhurried(p, p.pc.agentStep, c, v);
    }
  }

  lemma SectionStepsUnhurried(p: Process, c: Choice, v: Sight)
    requires p.pc.In?
    ensures Unhurried(p, Advance(p, c, v))
  {
    SectionsTakeNoPart(p, p.pc.section, p.pc.step, c, v);
    hide AdvanceInSection, Unhurried;
  }

  lemma SectionsTakeNoPart(p: Process, section: Section, step: SectionStep, c: Choice, v: Sight)
    requires p.pc == In(section, step)
    ensures Unhurried(p, AdvanceInSection(p, section, step, c, v))
  {
    LookingFindsTheAgentAlone(p, section);
    if step.StateClose? { SectionsEndOutside(v.teamed, section, step.ok, c); }
    hide Ruling, Looked, AfterSection;
  }

  lemma OtherStepsUnhurried(p: Process, c: Choice, v: Sight)
    requires !p.pc.OnAgent? && !p.pc.In?
    ensures Unhurried(p, Advance(p, c, v))
  {
    if p.pc.OnTeam? { TeamStepsTakeNoPart(p, p.pc.teamStep, v); }
    hide AdvanceOnTeam, AdvanceInSection, AdvanceOnAgent;
  }

  lemma TeamStepsTakeNoPart(p: Process, step: TeamStep, v: Sight)
    requires p.pc == OnTeam(step)
    ensures Unhurried(p, AdvanceOnTeam(p, step, v))
  {
  }

  /** An attempt opens the path, waits for its lock and looks whether the path
      still names what was locked. */
  lemma LoopStep(k: Kernel, pid: nat, p: Process, step: AgentStep, c: Choice, v: Sight)
    requires Sound(k) && Excused(k, pid, p) && Meets(k, Key(pid, AgentSlot), OwnPath(p), AgentWant(p))
    requires p.pc == OnAgent(step) && InLoop(step) && Permitted(k, pid, IssueOnAgent(p, step, c, v))
    requires v.unlinks == Unlinks(k, OwnPath(p)) && v.live == Live(k, Key(pid, AgentSlot))
    ensures Excused(Execute(k, pid, IssueOnAgent(p, step, c, v)), pid, Acquire(p, step, c, v))
  {
    assert UnlinksCounted(k);
    hide Sound, Permitted;
    if step.Revalidate? && !v.live {
      assert k.fds[Key(pid, AgentSlot)].since < Unlinks(k, OwnPath(p));
    }
  }

  lemma LoopStaysExcused(s: State, pid: nat, c: Choice)
    requires Wired(s) && Patient(s) && Possible(s, Step(pid, c))
    requires s.processes[pid].pc.OnAgent? && InLoop(s.processes[pid].pc.agentStep)
    ensures Excused(Execute(s.kernel, pid, Call(s, pid, c)), pid, Moved(s, pid, c))
  {
    hide AdvanceInSection, Acquire, HoldOn, Sound, Meets, IssueOnAgent, Execute, Permitted, Excused;
    var p := s.processes[pid];
    assert ProcessWired(s.teamed, s.kernel, pid, p) && Excused(s.kernel, pid, p);
    LoopStep(s.kernel, pid, p, p.pc.agentStep, c, See(s, pid, p, c));
  }

  lemma MoverStaysExcused(s: State, pid: nat, c: Choice)
    requires Wired(s) && Patient(s) && Possible(s, Step(pid, c))
    ensures Excused(Execute(s.kernel, pid, Call(s, pid, c)), pid, Moved(s, pid, c))
  {
    var p := s.processes[pid];
    assert ProcessWired(s.teamed, s.kernel, pid, p) && Excused(s.kernel, pid, p);
    if p.pc.OnAgent? && InLoop(p.pc.agentStep) {
      LoopStaysExcused(s, pid, c);
    } else {
      UnlinksOnlyGrow(s.kernel, pid, Call(s, pid, c), OwnPath(p));
      if p.pc.OnAgent? {
        AgentStepsUnhurried(p, c, See(s, pid, p, c));
      } else if p.pc.In? {
        SectionStepsUnhurried(p, c, See(s, pid, p, c));
      } else {
        OtherStepsUnhurried(p, c, See(s, pid, p, c));
      }
    }
  }

  lemma OtherStaysExcused(s: State, pid: nat, call: Syscall, other: nat)
    requires Wired(s) && Patient(s) && pid in s.processes && Permitted(s.kernel, pid, call)
    requires other in s.processes && other != pid
    ensures Excused(Execute(s.kernel, pid, call), other, s.processes[other])
  {
    UnlinksOnlyGrow(s.kernel, pid, call, OwnPath(s.processes[other]));
    if Key(other, AgentSlot) in s.kernel.fds { OthersUntouched(s.kernel, pid, call, Key(other, AgentSlot)); }
  }

  lemma StepKeepsPatient(s: State, pid: nat, c: Choice)
    requires Wired(s) && Patient(s) && Possible(s, Step(pid, c))
    ensures Patient(After(s, Step(pid, c)))
  {
    StepParts(s, pid, c);
    MoverStaysExcused(s, pid, c);
    forall other | other in s.processes && other != pid {
      OtherStaysExcused(s, pid, Call(s, pid, c), other);
    }
  }

  lemma EventKeepsPatient(s: State, e: Event)
    requires Wired(s) && Patient(s) && Possible(s, e)
    ensures Patient(After(s, e))
  {
    hide Wired;
    match e
    case Begin(pid, command) =>
    case Die(pid) => ReapOnlyDrops(s.kernel, pid);
    case Step(pid, c) => StepKeepsPatient(s, pid, c);
  }
}
