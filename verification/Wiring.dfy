/** Which descriptors a process has open, and which locks it holds, at every
    program counter: the base on which every other invariant rests. */
module Wiring {
  import opened Common
  import opened Registry
  import opened Flock
  import opened Commands

  datatype Want = Absent | Idle | Has(mode: Mode)

  function TeamWant(teamed: bool, p: Process): Want {
    match p.pc
    case OnTeam(TeamOpen) => Absent
    case OnTeam(TeamWait) => Idle
    case OnTeam(TeamClose) => Idle
    case Done => Absent
    case _ => if teamed then Has(TeamMode(p.command)) else Absent
  }

  function StateWant(p: Process): Want {
    match p.pc
    case In(_, step) =>
      (match step
       case StateOpen => Absent
       case StateWait => Idle
       case StateClose(_) => Idle
       case _ => Has(Exclusive))
    case _ => Absent
  }

  predicate UnderAgentLock(section: Section) { section.Lookup? || section.Commit? }

  function AgentWant(p: Process): Want {
    match p.pc
    case OnAgent(step) =>
      (match step
       case Probe => Absent
       case AgentOpen => Absent
       case AgentWait => Idle
       case AgentClose => Idle
       case StaleClose => Idle
       case _ => Has(AgentMode(p.command)))
    case In(section, _) => if UnderAgentLock(section) then Has(AgentMode(p.command)) else Absent
    case _ => Absent
  }

  predicate Meets(k: Kernel, key: Key, path: Path, want: Want) {
    match want
    case Absent => key !in k.fds
    case Idle => key in k.fds && k.fds[key].path == path && k.fds[key].held == None
    case Has(mode) => key in k.fds && k.fds[key].path == path && k.fds[key].held == Some(mode)
  }

  predicate SectionFits(section: Section, command: Command) {
    match section
    case Spawn => command.Create?
    case ForkEntry => command.Fork?
    case Remove => command.Delete?
    case _ => command.Talk?
  }

  predicate StepFits(step: AgentStep, command: Command) {
    match step
    case Probe => command.List?
    case Revalidate => command.Talk? || command.Chat?
    case StaleUnlock => command.Talk? || command.Chat?
    case StaleClose => command.Talk? || command.Chat?
    case Turn => command.Talk?
    case ChatRead => command.Chat?
    case Chatting => command.Chat?
    case LiveCheck => command.Talk? || command.Chat? || command.Delete?
    case Reclaim => command.Talk? || command.Chat? || command.Delete?
    case _ => command.Talk? || command.Chat? || command.Delete? || command.List?
  }

  /** The steps each command can be at. */
  predicate Fits(teamed: bool, p: Process) {
    && (p.command.Teardown? ==> teamed)
    && (!p.command.List? && !p.command.Teardown? ==> p.target == p.command.name)
    && match p.pc
       case OnTeam(_) => teamed
       case Construct => !p.command.Teardown?
       case In(section, step) => SectionFits(section, p.command) && !(section.Lookup? && step.Replace?)
       case OnAgent(step) => StepFits(step, p.command)
       case Sweep => p.command.Teardown?
       case Done => true
  }

  predicate ProcessWired(teamed: bool, k: Kernel, pid: nat, p: Process) {
    && Fits(teamed, p)
    && Meets(k, Key(pid, TeamSlot), TeamLock, TeamWant(teamed, p))
    && Meets(k, Key(pid, StateSlot), StateLock, StateWant(p))
    && Meets(k, Key(pid, AgentSlot), OwnPath(p), AgentWant(p))
  }

  ghost predicate Wired(s: State) {
    && Sound(s.kernel)
    && (forall key | key in s.kernel.fds :: key.pid in s.processes)
    && (forall pid | pid in s.processes :: ProcessWired(s.teamed, s.kernel, pid, s.processes[pid]))
  }

  lemma InitiallyWired(s: State)
    requires Initial(s)
    ensures Wired(s)
  {
  }

  /** What a system call makes of one slot. */
  function Slotted(slot: Slot, call: Syscall, before: Want): Want {
    match call
    case Open(at, _, _) => if at == slot then Idle else before
    case Lock(at, mode) => if at == slot then Has(mode) else before
    case Unlock(at) => if at == slot then Idle else before
    case Close(at) => if at == slot then Absent else before
    case _ => before
  }

  lemma CallMovesSlot(k: Kernel, pid: nat, slot: Slot, path: Path, call: Syscall, before: Want)
    requires Meets(k, Key(pid, slot), path, before) && Permitted(k, pid, call)
    requires call.Open? && call.slot == slot ==> call.path == path
    ensures Meets(Execute(k, pid, call), Key(pid, slot), path, Slotted(slot, call, before))
  {
  }

  // A step moves the program counter and the descriptors alike: one lemma for
  // each thing that must agree, and for each part of the program.

  lemma SectionEndsFit(p: Process, section: Section, ok: bool, c: Choice, v: Sight)
    requires Fits(v.teamed, p) && p.pc == In(section, StateClose(ok))
    ensures Fits(v.teamed, AdvanceInSection(p, section, StateClose(ok), c, v))
  {
    hide Ruling;
  }

  lemma SectionStepsFit(p: Process, c: Choice, v: Sight)
    requires Fits(v.teamed, p) && p.pc.In?
    ensures Fits(v.teamed, Advance(p, c, v))
  {
    if p.pc.step.StateClose? {
      SectionEndsFit(p, p.pc.section, p.pc.step.ok, c, v);
    } else {
      InnerStepsFit(p, p.pc.section, p.pc.step, c, v);
    }
    hide AdvanceInSection, Fits;
  }

  lemma InnerStepsFit(p: Process, section: Section, step: SectionStep, c: Choice, v: Sight)
    requires Fits(v.teamed, p) && p.pc == In(section, step) && !step.StateClose?
    ensures Fits(v.teamed, AdvanceInSection(p, section, step, c, v))
  {
    LookingFindsTheAgentAlone(p, section);
    hide WriteNew, AfterSection, Looked;
  }

  lemma AcquiringStepsFit(p: Process, c: Choice, v: Sight)
    requires Fits(v.teamed, p) && p.pc.OnAgent? && Acquiring(p.pc.agentStep)
    ensures Fits(v.teamed, Advance(p, c, v))
  {
    AcquireFits(p, p.pc.agentStep, c, v);
    hide AdvanceInSection, Acquire, HoldOn, Fits;
  }

  lemma AcquireFits(p: Process, step: AgentStep, c: Choice, v: Sight)
    requires Fits(v.teamed, p) && p.pc == OnAgent(step) && Acquiring(step)
    ensures Fits(v.teamed, Acquire(p, step, c, v))
  {
  }

  lemma TurnsFit(p: Process, c: Choice, v: Sight)
    requires Fits(v.teamed, p) && (p.pc == OnAgent(Turn) || p.pc == OnAgent(ChatRead))
    ensures Fits(v.teamed, if p.pc == OnAgent(Turn) then Turned(p, c) else Consulted(p, c, v))
  {
  }

  lemma HoldingStepsFit(p: Process, c: Choice, v: Sight)
    requires Fits(v.teamed, p) && p.pc.OnAgent? && !Acquiring(p.pc.agentStep)
    ensures Fits(v.teamed, Advance(p, c, v))
  {
    if p.pc.agentStep.Turn? || p.pc.agentStep.ChatRead? { TurnsFit(p, c, v); }
    hide AdvanceInSection, Acquire, Turned, Consulted;
    assert Fits(v.teamed, HoldOn(p, p.pc.agentStep, c, v));
  }

  lemma OtherStepsFit(p: Process, c: Choice, v: Sight)
    requires Fits(v.teamed, p) && !p.pc.In? && !p.pc.OnAgent?
    ensures Fits(v.teamed, Advance(p, c, v))
  {
    if p.pc.OnTeam? { TeamStepsFit(p, p.pc.teamStep, v); }
    hide AdvanceOnTeam, AdvanceInSection, AdvanceOnAgent;
  }

  lemma TeamStepsFit(p: Process, step: TeamStep, v: Sight)
    requires Fits(v.teamed, p) && p.pc == OnTeam(step)
    ensures Fits(v.teamed, AdvanceOnTeam(p, step, v))
  {
  }

  lemma StepsFit(p: Process, c: Choice, v: Sight)
    requires Fits(v.teamed, p)
    ensures Fits(v.teamed, Advance(p, c, v))
  {
    if p.pc.In? {
      SectionStepsFit(p, c, v);
    } else if !p.pc.OnAgent? {
      OtherStepsFit(p, c, v);
    } else if Acquiring(p.pc.agentStep) {
      AcquiringStepsFit(p, c, v);
    } else {
      HoldingStepsFit(p, c, v);
    }
  }

  lemma TeamSlotMoves(p: Process, c: Choice, v: Sight)
    requires Fits(v.teamed, p) && !p.pc.In? && !p.pc.OnAgent?
    ensures TeamWant(v.teamed, Advance(p, c, v)) == Slotted(TeamSlot, Issue(p, c, v), TeamWant(v.teamed, p))
  {
    hide Fits, AdvanceOnTeam, AdvanceInSection, AdvanceOnAgent, IssueOnTeam, IssueInSection, IssueOnAgent, AfterConstruct;
    if p.pc.OnTeam? { TeamStepMoves(p, p.pc.teamStep, c, v); }
    if p.pc.Construct? { ConstructionGoesOn(p, c); }
  }

  lemma ConstructionGoesOn(p: Process, c: Choice)
    ensures AfterConstruct(p, c).In? || AfterConstruct(p, c).OnAgent? || AfterConstruct(p, c).Sweep?
  {
  }

  lemma TeamStepMoves(p: Process, step: TeamStep, c: Choice, v: Sight)
    requires p.pc == OnTeam(step) && Fits(v.teamed, p)
    ensures TeamWant(v.teamed, AdvanceOnTeam(p, step, v)) == Slotted(TeamSlot, IssueOnTeam(p, step, c, v), TeamWant(v.teamed, p))
  {
  }

  /** Inside a section or at an agent's lock the team lock is not touched. */
  predicate StaysInside(teamed: bool, p: Process, q: Process) {
    q.command == p.command && (q.pc.In? || q.pc.OnAgent? || q.pc == Exit(teamed))
  }

  lemma SectionsStayInside(p: Process, c: Choice, v: Sight)
    requires p.pc.In?
    ensures StaysInside(v.teamed, p, Advance(p, c, v))
  {
    hide AdvanceInSection, AdvanceOnAgent, StaysInside;
    SectionStaysInside(p, p.pc.section, p.pc.step, c, v);
  }

  lemma SectionStaysInside(p: Process, section: Section, step: SectionStep, c: Choice, v: Sight)
    ensures StaysInside(v.teamed, p, AdvanceInSection(p, section, step, c, v))
  {
    LookingFindsTheAgentAlone(p, section);
    if step.StateClose? { SectionsEndOutside(v.teamed, section, step.ok, c); }
    hide Ruling, Looked, AfterSection, Exit;
  }

  lemma AcquiringStaysInside(p: Process, step: AgentStep, c: Choice, v: Sight)
    requires Acquiring(step)
    ensures StaysInside(v.teamed, p, Acquire(p, step, c, v))
  {
  }

  lemma HoldingStaysInside(p: Process, step: AgentStep, c: Choice, v: Sight)
    requires !Acquiring(step)
    ensures StaysInside(v.teamed, p, HoldOn(p, step, c, v))
  {
  }

  lemma AgentStepsStayInside(p: Process, c: Choice, v: Sight)
    requires p.pc.OnAgent?
    ensures StaysInside(v.teamed, p, Advance(p, c, v))
  {
    hide AdvanceInSection, Acquire, HoldOn, StaysInside;
    if Acquiring(p.pc.agentStep) {
      AcquiringStaysInside(p, p.pc.agentStep, c, v);
    } else {
      HoldingStaysInside(p, p.pc.agentStep, c, v);
    }
  }

  lemma TeamSlotStays(p: Process, c: Choice, v: Sight)
    requires Fits(v.teamed, p) && (p.pc.In? || p.pc.OnAgent?)
    ensures TeamWant(v.teamed, Advance(p, c, v)) == Slotted(TeamSlot, Issue(p, c, v), TeamWant(v.teamed, p))
  {
    if p.pc.In? { SectionsStayInside(p, c, v); } else { AgentStepsStayInside(p, c, v); }
    hide Advance, Fits;
  }

  lemma StateSlotMoves(p: Process, c: Choice, v: Sight)
    requires Fits(v.teamed, p) && p.pc.In?
    ensures StateWant(Advance(p, c, v)) == Slotted(StateSlot, Issue(p, c, v), StateWant(p))
  {
    SectionMovesState(p, p.pc.section, p.pc.step, c, v);
    hide AdvanceInSection, IssueInSection, StateWant, Fits;
  }

  lemma SectionMovesState(p: Process, section: Section, step: SectionStep, c: Choice, v: Sight)
    requires Fits(v.teamed, p) && p.pc == In(section, step)
    ensures StateWant(AdvanceInSection(p, section, step, c, v)) == Slotted(StateSlot, IssueInSection(step, c), StateWant(p))
  {
    if step.StateClose? { SectionsEndOutside(v.teamed, section, step.ok, c); }
    hide Ruling, Looked, Fits, AfterSection;
  }

  lemma SectionsEndOutside(teamed: bool, section: Section, ok: bool, c: Choice)
    ensures AfterSection(teamed, section, ok, c) == Exit(teamed) || AfterSection(teamed, section, ok, c).OnAgent?
    ensures AfterSection(teamed, section, ok, c).OnAgent? ==>
              var step := AfterSection(teamed, section, ok, c).agentStep;
              step.AgentOpen? || step.Turn? || step.LiveCheck? || step.AgentUnlock?
  {
  }

  lemma StateSlotStays(p: Process, c: Choice, v: Sight)
    requires Fits(v.teamed, p) && p.pc.OnAgent?
    ensures StateWant(Advance(p, c, v)) == Slotted(StateSlot, Issue(p, c, v), StateWant(p))
  {
    hide Fits, AdvanceInSection, AdvanceOnAgent;
    StateUntouched(p, p.pc.agentStep, c, v);
  }

  lemma StateUntouched(p: Process, step: AgentStep, c: Choice, v: Sight)
    requires p.pc == OnAgent(step)
    ensures StateWant(AdvanceOnAgent(p, step, c, v)) == Absent == StateWant(p)
    ensures Slotted(StateSlot, IssueOnAgent(p, step, c, v), Absent) == Absent
  {
  }

  lemma StateSlotAbsent(p: Process, c: Choice, v: Sight)
    requires Fits(v.teamed, p) && !p.pc.In? && !p.pc.OnAgent?
    ensures StateWant(Advance(p, c, v)) == Slotted(StateSlot, Issue(p, c, v), StateWant(p))
  {
    hide Fits, AdvanceInSection, AdvanceOnAgent;
  }

  lemma AgentSlotAcquires(p: Process, c: Choice, v: Sight)
    requires Fits(v.teamed, p) && p.pc.OnAgent? && Acquiring(p.pc.agentStep)
    ensures AgentWant(Advance(p, c, v)) == Slotted(AgentSlot, Issue(p, c, v), AgentWant(p))
  {
    AcquireMovesSlot(p, p.pc.agentStep, c, v);
    hide Acquire, HoldOn, IssueOnAgent, AgentWant, Acquiring, Fits;
  }

  lemma AcquireMovesSlot(p: Process, step: AgentStep, c: Choice, v: Sight)
    requires p.pc == OnAgent(step) && StepFits(step, p.command) && Acquiring(step)
    ensures AgentWant(Acquire(p, step, c, v)) == Slotted(AgentSlot, IssueOnAgent(p, step, c, v), AgentWant(p))
  {
  }

  lemma AgentSlotHolds(p: Process, c: Choice, v: Sight)
    requires Fits(v.teamed, p) && p.pc.OnAgent? && !Acquiring(p.pc.agentStep)
    ensures AgentWant(Advance(p, c, v)) == Slotted(AgentSlot, Issue(p, c, v), AgentWant(p))
  {
    HoldingMovesSlot(p, p.pc.agentStep, c, v);
    hide Acquire, HoldOn, IssueOnAgent, AgentWant, Acquiring, Fits;
  }

  lemma HoldingMovesSlot(p: Process, step: AgentStep, c: Choice, v: Sight)
    requires p.pc == OnAgent(step) && StepFits(step, p.command) && !Acquiring(step)
    ensures AgentWant(HoldOn(p, step, c, v)) == Slotted(AgentSlot, IssueOnAgent(p, step, c, v), AgentWant(p))
  {
  }

  lemma AgentSlotAtSectionEnd(p: Process, section: Section, ok: bool, c: Choice, v: Sight)
    requires Fits(v.teamed, p) && p.pc == In(section, StateClose(ok))
    ensures AgentWant(AdvanceInSection(p, section, StateClose(ok), c, v)) == AgentWant(p)
  {
  }

  lemma AgentSlotInSection(p: Process, c: Choice, v: Sight)
    requires Fits(v.teamed, p) && p.pc.In?
    ensures AgentWant(Advance(p, c, v)) == Slotted(AgentSlot, Issue(p, c, v), AgentWant(p))
  {
    if p.pc.step.StateClose? { AgentSlotAtSectionEnd(p, p.pc.section, p.pc.step.ok, c, v); }
    hide Ruling, Fits, AfterSection, AdvanceOnAgent;
    var q, call := AdvanceInSection(p, p.pc.section, p.pc.step, c, v), IssueInSection(p.pc.step, c);
    assert AgentWant(q) == Slotted(AgentSlot, call, AgentWant(p));
  }

  lemma AgentSlotAbsent(p: Process, c: Choice, v: Sight)
    requires Fits(v.teamed, p) && !p.pc.In? && !p.pc.OnAgent?
    ensures AgentWant(Advance(p, c, v)) == Slotted(AgentSlot, Issue(p, c, v), AgentWant(p))
  {
    hide Fits, AdvanceOnTeam, AdvanceInSection, AdvanceOnAgent, IssueOnTeam, IssueInSection, IssueOnAgent, AfterConstruct;
    if p.pc.OnTeam? { TeamStepsLockNoAgent(p, p.pc.teamStep, c, v); }
    if p.pc.Construct? { ConstructionLocksNoAgent(p, c); }
  }

  lemma TeamStepsLockNoAgent(p: Process, step: TeamStep, c: Choice, v: Sight)
    ensures AgentWant(AdvanceOnTeam(p, step, v)) == Absent == Slotted(AgentSlot, IssueOnTeam(p, step, c, v), Absent)
  {
  }

  lemma ConstructionLocksNoAgent(p: Process, c: Choice)
    ensures match AfterConstruct(p, c)
            case In(section, _) => !UnderAgentLock(section)
            case OnAgent(step) => step.AgentOpen? || step.Probe?
            case other => other.Sweep?
  {
  }

  function SlotPath(p: Process, slot: Slot): Path {
    match slot
    case TeamSlot => TeamLock
    case StateSlot => StateLock
    case AgentSlot => OwnPath(p)
  }

  lemma PathsStay(p: Process, c: Choice, v: Sight)
    requires Fits(v.teamed, p)
    ensures AgentWant(p) == Absent || OwnPath(Advance(p, c, v)) == OwnPath(p)
    ensures Issue(p, c, v).Open? ==> Issue(p, c, v).path == SlotPath(Advance(p, c, v), Issue(p, c, v).slot)
  {
    if p.pc != OnAgent(Probe) { TargetStays(p, c, v); }
    hide Advance, Fits;
  }

  /** Only a list goes from one agent to the next. */
  lemma TargetStays(p: Process, c: Choice, v: Sight)
    requires p.pc != OnAgent(Probe)
    ensures Advance(p, c, v).target == p.target
  {
    match p.pc
    case In(section, step) => SectionsKeepTheTarget(p, section, step, c, v);
    case OnAgent(step) => if Acquiring(step) { AcquireKeepsTheTarget(p, step, c, v); } else { HoldingKeepsTheTarget(p, step, c, v); }
    case _ =>
    hide AdvanceInSection, Acquire, HoldOn;
  }

  lemma SectionsKeepTheTarget(p: Process, section: Section, step: SectionStep, c: Choice, v: Sight)
    ensures AdvanceInSection(p, section, step, c, v).target == p.target
  {
    LookingFindsTheAgentAlone(p, section);
    hide Ruling, AfterSection, Looked;
  }

  lemma AcquireKeepsTheTarget(p: Process, step: AgentStep, c: Choice, v: Sight)
    requires Acquiring(step) && !step.Probe?
    ensures Acquire(p, step, c, v).target == p.target
  {
  }

  lemma HoldingKeepsTheTarget(p: Process, step: AgentStep, c: Choice, v: Sight)
    requires !Acquiring(step)
    ensures HoldOn(p, step, c, v).target == p.target
  {
  }

  /** A process that moves from `p` to `q` with `call` keeps program counter and
      descriptors together. */
  predicate Agree(teamed: bool, p: Process, q: Process, call: Syscall) {
    && Fits(teamed, q)
    && TeamWant(teamed, q) == Slotted(TeamSlot, call, TeamWant(teamed, p))
    && StateWant(q) == Slotted(StateSlot, call, StateWant(p))
    && AgentWant(q) == Slotted(AgentSlot, call, AgentWant(p))
    && (AgentWant(p) == Absent || OwnPath(q) == OwnPath(p))
    && (call.Open? ==> call.path == SlotPath(q, call.slot))
  }

  lemma StepsAgree(p: Process, c: Choice, v: Sight)
    requires Fits(v.teamed, p)
    ensures Agree(v.teamed, p, Advance(p, c, v), Issue(p, c, v))
  {
    StepsFit(p, c, v);
    PathsStay(p, c, v);
    if p.pc.In? {
      TeamSlotStays(p, c, v);
      StateSlotMoves(p, c, v);
      AgentSlotInSection(p, c, v);
    } else if p.pc.OnAgent? {
      TeamSlotStays(p, c, v);
      StateSlotStays(p, c, v);
      if Acquiring(p.pc.agentStep) { AgentSlotAcquires(p, c, v); } else { AgentSlotHolds(p, c, v); }
    } else {
      TeamSlotMoves(p, c, v);
      StateSlotAbsent(p, c, v);
      AgentSlotAbsent(p, c, v);
    }
    hide *;
  }

  lemma AgreementKeepsWired(teamed: bool, k: Kernel, pid: nat, p: Process, q: Process, call: Syscall)
    requires ProcessWired(teamed, k, pid, p) && Permitted(k, pid, call) && Agree(teamed, p, q, call)
    ensures ProcessWired(teamed, Execute(k, pid, call), pid, q)
  {
    CallMovesSlot(k, pid, TeamSlot, TeamLock, call, TeamWant(teamed, p));
    CallMovesSlot(k, pid, StateSlot, StateLock, call, StateWant(p));
    CallMovesSlot(k, pid, AgentSlot, OwnPath(q), call, AgentWant(p));
  }

  /** The process that moves stays wired at its new step. */
  lemma MoverStaysWired(s: State, pid: nat, c: Choice)
    requires Wired(s) && pid in s.processes && Permitted(s.kernel, pid, Call(s, pid, c))
    ensures ProcessWired(s.teamed, Execute(s.kernel, pid, Call(s, pid, c)), pid, Moved(s, pid, c))
  {
    StepsAgree(s.processes[pid], c, See(s, pid, s.processes[pid], c));
    AgreementKeepsWired(s.teamed, s.kernel, pid, s.processes[pid], Moved(s, pid, c), Call(s, pid, c));
  }

  lemma OtherStaysWired(s: State, pid: nat, call: Syscall, other: nat)
    requires Wired(s) && pid in s.processes && Permitted(s.kernel, pid, call)
    requires other in s.processes && other != pid
    ensures ProcessWired(s.teamed, Execute(s.kernel, pid, call), other, s.processes[other])
  {
    forall slot | Key(other, slot) in s.kernel.fds {
      OthersUntouched(s.kernel, pid, call, Key(other, slot));
    }
  }

  /** One process makes one call and moves to a step wired for it. */
  lemma MoveKeepsWired(s: State, pid: nat, call: Syscall, t: State)
    requires Wired(s) && pid in s.processes && Permitted(s.kernel, pid, call) && pid in t.processes
    requires t.teamed == s.teamed && t.kernel == Execute(s.kernel, pid, call)
    requires t.processes == s.processes[pid := t.processes[pid]]
    requires ProcessWired(t.teamed, t.kernel, pid, t.processes[pid])
    ensures Wired(t)
  {
    hide Sound, ProcessWired, Execute, Permitted;
    ExecuteKeepsSound(s.kernel, pid, call);
    ExecuteTouchesOwn(s.kernel, pid, call);
    forall other | other in s.processes && other != pid
      ensures ProcessWired(t.teamed, t.kernel, other, t.processes[other])
    {
      OtherStaysWired(s, pid, call, other);
    }
  }

  lemma StepKeepsWired(s: State, pid: nat, c: Choice)
    requires Wired(s) && Possible(s, Step(pid, c))
    ensures Wired(After(s, Step(pid, c)))
  {
    StepParts(s, pid, c);
    hide Wired, After, Execute, Permitted, Call, Moved, Effects, Enabled;
    MoverStaysWired(s, pid, c);
    MoveKeepsWired(s, pid, Call(s, pid, c), After(s, Step(pid, c)));
  }

  lemma DeathSparesOthers(teamed: bool, k: Kernel, pid: nat, other: nat, p: Process)
    requires ProcessWired(teamed, k, other, p) && other != pid
    ensures ProcessWired(teamed, Reap(k, pid), other, p)
  {
    assert forall slot :: Key(other, slot) in k.fds <==> Key(other, slot) in Reap(k, pid).fds;
    hide Fits, TeamWant, StateWant, AgentWant;
  }

  lemma DeathKeepsWired(s: State, pid: nat, t: State)
    requires Wired(s) && t.teamed == s.teamed && t.kernel == Reap(s.kernel, pid) && t.processes == s.processes - {pid}
    ensures Wired(t)
  {
    hide Sound, ProcessWired, Reap;
    ReapKeepsSound(s.kernel, pid);
    ReapOnlyDrops(s.kernel, pid);
    forall other | other in t.processes ensures ProcessWired(t.teamed, t.kernel, other, t.processes[other]) {
      DeathSparesOthers(s.teamed, s.kernel, pid, other, s.processes[other]);
    }
  }

  lemma StartIsWired(s: State, pid: nat, command: Command)
    requires Wired(s) && Possible(s, Begin(pid, command))
    ensures Wired(After(s, Begin(pid, command)))
  {
    hide Sound;
    assert forall slot :: Key(pid, slot) !in s.kernel.fds;
  }

  lemma EventKeepsWired(s: State, e: Event)
    requires Wired(s) && Possible(s, e)
    ensures Wired(After(s, e))
  {
    match e
    case Begin(pid, command) => StartIsWired(s, pid, command);
    case Step(pid, c) => StepKeepsWired(s, pid, c);
    case Die(pid) =>
      hide Wired;
      DeathKeepsWired(s, pid, After(s, e));
  }
}
