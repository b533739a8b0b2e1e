/** Which agent locks a command has asked for: a list asks for those of all the
    agents it has read, and no talk, chat or delete ends well without its own. */
module Probing {
  import opened Common
  import opened Registry
  import opened Flock
  import opened Commands
  import opened Wiring
  import opened Exclusion
  import opened Outcomes

  /** What a list has still to find out, and what it has. */
  function Covered(p: Process, step: AgentStep): set<Name> {
    p.todo + p.busy.Keys + (if step.AgentOpen? || step.AgentWait? then {p.target} else {})
  }

  /** Has a command that is done, unless it failed, asked for the locks it is to
      ask for? */
  predicate AskedAll(p: Process) {
    match p.command
    case List => p.busy.Keys == p.view.Keys
    case Talk(name, _, _, _) => name in p.busy
    case Chat(name) => name in p.busy
    case Delete(name) => name in p.busy
    case _ => true
  }

  predicate Thorough(p: Process) {
    match p.pc
    case OnTeam(step) => if step.TeamOpen? || step.TeamWait? then p.busy == map[] else p.failed || AskedAll(p)
    case Construct => p.busy == map[]
    case In(section, _) => if section.Lookup? || section.Commit? then p.command.Talk? && AskedAll(p) else p.busy == map[]
    case OnAgent(step) =>
      if p.command.List? then Covered(p, step) == p.view.Keys
      else step.AgentOpen? || step.AgentWait? || AskedAll(p)
    case Sweep => true
    case Done => p.failed || AskedAll(p)
  }

  ghost predicate Probed(s: State) {
    forall pid | pid in s.processes :: Thorough(s.processes[pid])
  }

  lemma SectionsAskNothing(p: Process, section: Section, step: SectionStep, c: Choice, v: Sight)
    requires p.pc == In(section, step) && Fits(v.teamed, p) && Thorough(p)
    requires step.StateClose? ==> p.failed == !step.ok
    ensures Thorough(AdvanceInSection(p, section, step, c, v))
  {
  }

  lemma AcquiringAsks(p: Process, step: AgentStep, c: Choice, v: Sight)
    requires p.pc == OnAgent(step) && Acquiring(step) && Fits(v.teamed, p) && Thorough(p)
    requires step.Probe? ==> p.todo == {} || c.name in p.todo
    ensures Thorough(Acquire(p, step, c, v))
  {
  }

  lemma HoldingAsksNoMore(p: Process, step: AgentStep, c: Choice, v: Sight)
    requires p.pc == OnAgent(step) && !Acquiring(step) && Fits(v.teamed, p) && Thorough(p)
    ensures Thorough(HoldOn(p, step, c, v))
  {
  }

  lemma OthersAskNothing(p: Process, c: Choice, v: Sight)
    requires !p.pc.In? && !p.pc.OnAgent? && Fits(v.teamed, p) && Thorough(p)
    requires p.pc == OnTeam(TeamWait) ==> v.granted || p.command.Teardown?
    ensures Thorough(Advance(p, c, v))
  {
    hide AdvanceInSection, AdvanceOnAgent;
  }

  lemma StepsStayThorough(p: Process, log: seq<Op>, c: Choice, v: Sight)
    requires Fits(v.teamed, p) && Truthful(log, v.abilities, p) && Thorough(p)
    requires p.pc == OnTeam(TeamWait) ==> v.granted || p.command.Teardown?
    requires p.pc == OnAgent(Probe) ==> p.todo == {} || c.name in p.todo
    ensures Thorough(Advance(p, c, v))
  {
    if p.pc.In? {
      SectionsAskNothing(p, p.pc.section, p.pc.step, c, v);
    } else if !p.pc.OnAgent? {
      OthersAskNothing(p, c, v);
    } else if Acquiring(p.pc.agentStep) {
      AcquiringAsks(p, p.pc.agentStep, c, v);
    } else {
      HoldingAsksNoMore(p, p.pc.agentStep, c, v);
    }
    hide Thorough, Fits, Truthful, AdvanceInSection, AdvanceOnTeam, Acquire, HoldOn;
  }

  lemma MoverStaysThorough(s: State, pid: nat, c: Choice)
    requires Wired(s) && Told(s) && Probed(s) && Possible(s, Step(pid, c))
    ensures Thorough(Moved(s, pid, c))
  {
    var p, v := s.processes[pid], See(s, pid, s.processes[pid], c);
    assert Fits(s.teamed, p) by {
      hide Sound, Meets;
      assert ProcessWired(s.teamed, s.kernel, pid, p);
    }
    assert Truthful(s.log, s.abilities, p) && Thorough(p);
    assert v.abilities == s.abilities && v.teamed == s.teamed;
    assert p.pc == OnTeam(TeamWait) ==> v.granted || p.command.Teardown?;
    assert p.pc == OnAgent(Probe) ==> p.todo == {} || c.name in p.todo;
    StepsStayThorough(p, s.log, c, v);
    hide *;
  }

  lemma EventKeepsProbed(s: State, e: Event)
    requires Wired(s) && Told(s) && Probed(s) && Possible(s, e)
    ensures Probed(After(s, e))
  {
    match e
    case Begin(pid, command) =>
      hide Wired, Told;
    case Die(pid) =>
      hide Wired, Told;
    case Step(pid, c) =>
      StepParts(s, pid, c);
      MoverStaysThorough(s, pid, c);
    hide Wired, Told, Enabled, Effects, Call, Moved, Execute, Permitted;
  }

  /** Has some command other than a list, other than `pid`, the agent's lock? */
  ghost predicate Taken(s: State, pid: nat, name: Name) {
    exists other | other in s.processes ::
      other != pid && !s.processes[other].command.List? && s.processes[other].target == name
      && AgentWant(s.processes[other]) == Has(Exclusive)
  }

  lemma OnlyAgentSlotsHoldAgentLocks(teamed: bool, k: Kernel, key: Key, p: Process, name: Name)
    requires ProcessWired(teamed, k, key.pid, p) && key in k.fds && k.fds[key].path == AgentLock(name)
    ensures key.slot.AgentSlot? && p.target == name
    ensures k.fds[key].held.Some? ==> AgentWant(p) == Has(k.fds[key].held.value)
  {
    hide Fits, TeamWant, StateWant, AgentWant;
    assert key == Key(key.pid, key.slot);
  }

  lemma LocksAreTakenInTheirMode(p: Process)
    requires AgentWant(p).Has?
    ensures AgentWant(p) == Has(if p.command.List? then Shared else Exclusive)
  {
  }

  /** A lock that a list is refused is another command's. */
  lemma RefusedListsMeetATurn(s: State, pid: nat)
    requires Wired(s) && pid in s.processes && s.processes[pid].command.List?
    requires s.processes[pid].pc == OnAgent(AgentWait) && !Grantable(s.kernel, Key(pid, AgentSlot), Shared)
    ensures Taken(s, pid, s.processes[pid].target)
  {
    var p, key := s.processes[pid], Key(pid, AgentSlot);
    assert ProcessWired(s.teamed, s.kernel, pid, p);
    assert key in s.kernel.fds && s.kernel.fds[key].path == AgentLock(p.target) && OnePathPerInode(s.kernel);
    var other :| other in s.kernel.fds && Conflicts(s.kernel, key, other, Shared);
    assert other.pid in s.processes && ProcessWired(s.teamed, s.kernel, other.pid, s.processes[other.pid]);
    hide Wired, ProcessWired, AgentWant, Sound;
    OnlyAgentSlotsHoldAgentLocks(s.teamed, s.kernel, other, s.processes[other.pid], p.target);
    LocksAreTakenInTheirMode(s.processes[other.pid]);
    assert other == Key(other.pid, AgentSlot);
  }

  /** And one that has opened the lock file there is does not miss a turn. */
  lemma TurnsRefuseLists(s: State, pid: nat, other: nat)
    requires Wired(s) && Guarded(s) && pid in s.processes && s.processes[pid].command.List?
    requires s.processes[pid].pc == OnAgent(AgentWait) && Live(s.kernel, Key(pid, AgentSlot))
    requires other in s.processes && Owns(s.processes[other]) && s.processes[other].target == s.processes[pid].target
    ensures !Grantable(s.kernel, Key(pid, AgentSlot), Shared)
  {
    assert ProcessWired(s.teamed, s.kernel, pid, s.processes[pid]);
    assert ProcessWired(s.teamed, s.kernel, other, s.processes[other]);
    assert Live(s.kernel, Key(other, AgentSlot));
    assert AgentWant(s.processes[other]) == Has(Exclusive);
    hide Fits, Sound, AgentWant, TeamWant, StateWant;
    assert Conflicts(s.kernel, Key(pid, AgentSlot), Key(other, AgentSlot), Shared);
  }
}
