/** One conversation, one agent: a session id belongs to the name whose turn
    reported it, even when that name is deleted and made again mid-turn. */
module Sessions {
  import opened Common
  import opened Registry
  import opened Flock
  import opened Commands
  import opened Wiring
  import opened Exclusion
  import opened Commits

  ghost predicate SessionOwned(name: Name, session: Option<SessionId>, pending: Option<SessionId>, owner: map<SessionId, Name>) {
    && (session.Some? ==> session.value in owner && owner[session.value] == name)
    && (pending.Some? ==> pending.value in owner && session.None?)
  }

  /** The agent a process carries through its turns, and the turn it is about to
      commit. */
  ghost predicate Carries(p: Process, owner: map<SessionId, Name>) {
    && SessionOwned(p.target, p.session, p.pending, owner)
    && (p.command.List? ==> p.session.None? && p.pending.None?)
    && (p.pc.In? && p.pc.step.Replace? && p.op.TurnDone? ==>
          p.op.name == p.target && p.op.session == p.session && p.op.pending == p.pending)
    && (p.pc == OnAgent(Chatting) ==> p.pending.None?)
  }

  ghost predicate Settled(s: State) {
    && Owned(s.file, s.owner)
    && forall pid | pid in s.processes :: Carries(s.processes[pid], s.owner)
  }

  ghost predicate Grows(owner: map<SessionId, Name>, later: map<SessionId, Name>) {
    forall id | id in owner :: id in later && later[id] == owner[id]
  }

  lemma ApplyKeepsOwned(agents: Agents, op: Op, owner: map<SessionId, Name>)
    requires Owned(agents, owner) && Allowed(agents, op)
    requires op.TurnDone? ==> SessionOwned(op.name, op.session, op.pending, owner)
    ensures Owned(Apply(agents, op), owner)
  {
  }

  lemma EffectsKeepOwned(s: State, p: Process, c: Choice)
    requires Owned(s.file, s.owner) && Carries(p, s.owner) && WriterFits(s.file, s.tmp, p)
    ensures var t := Effects(s, p, c); Owned(t.file, t.owner) && Grows(s.owner, t.owner)
  {
    if p.pc.In? && p.pc.step.Replace? { ApplyKeepsOwned(s.file, p.op, s.owner); }
  }

  lemma TurnKeepsCarrying(s: State, p: Process, c: Choice)
    requires Carries(p, s.owner) && p.pc == OnAgent(Turn) && p.command.Talk?
    requires c.yes || BackendContract(s, p, c.reported)
    ensures Carries(Turned(p, c), Effects(s, p, c).owner)
  {
    hide Ruling, Apply;
    var owner := Effects(s, p, c).owner;
    assert owner == if c.yes || c.reported.None? || c.reported.value in s.owner then s.owner
                    else s.owner[c.reported.value := p.target];
    hide Effects;
  }

  lemma DecidingKeepsCarrying(p: Process, section: Section, c: Choice, v: Sight, owner: map<SessionId, Name>)
    requires Carries(p, owner) && Owned(v.file, owner) && p.view == v.file
    requires p.pc == In(section, Decide) && SectionFits(section, p.command)
    ensures Carries(AdvanceInSection(p, section, Decide, c, v), owner)
  {
    LookingFindsTheAgentAlone(p, section);
    if section.Lookup? { LookingCarries(p, v, owner); } else { LookingElsewhere(p, section); }
    TurnsAreCommittedAsCarried(section, p, c, v.abilities);
    hide Ruling, Looked, Owned, SessionOwned;
  }

  lemma LookingElsewhere(p: Process, section: Section)
    requires !section.Lookup?
    ensures Looked(section, p).session == p.session && Looked(section, p).pending == p.pending
  {
  }

  lemma TurnsAreCommittedAsCarried(section: Section, p: Process, c: Choice, abilities: Abilities)
    ensures var ruling := Ruling(section, p, c, abilities);
            ruling.Write? && ruling.op.TurnDone? ==>
              ruling.op.name == p.target && ruling.op.session == p.session && ruling.op.pending == p.pending
  {
  }

  lemma LookingCarries(p: Process, v: Sight, owner: map<SessionId, Name>)
    requires Carries(p, owner) && Owned(v.file, owner) && p.view == v.file && p.command.Talk?
    ensures SessionOwned(p.target, Looked(Lookup, p).session, Looked(Lookup, p).pending, owner)
  {
  }

  lemma ConsultingKeepsCarrying(p: Process, c: Choice, v: Sight, owner: map<SessionId, Name>)
    requires Carries(p, owner) && Owned(v.file, owner) && p.command.Chat?
    ensures Carries(Consulted(p, c, v), owner)
  {
  }

  /** The steps that leave the carried agent as it is. */
  predicate CarriesOn(p: Process, q: Process) {
    && q.command == p.command && (q.target == p.target || p.command.List?)
    && q.session == p.session && q.pending == p.pending
    && !(q.pc.In? && q.pc.step.Replace?) && q.pc != OnAgent(Chatting)
  }

  lemma MostSectionStepsCarryOn(p: Process, c: Choice, v: Sight)
    requires p.pc.In? && !p.pc.step.Decide?
    ensures CarriesOn(p, Advance(p, c, v))
  {
    MostSectionSteps(p, p.pc.section, p.pc.step, c, v);
    hide AdvanceInSection, CarriesOn;
  }

  lemma MostSectionSteps(p: Process, section: Section, step: SectionStep, c: Choice, v: Sight)
    requires !step.Decide?
    ensures CarriesOn(p, AdvanceInSection(p, section, step, c, v))
  {
    if step.StateClose? { SectionsEndOutside(v.teamed, section, step.ok, c); }
    hide Ruling, Looked, AfterSection;
  }

  lemma AcquiringCarriesOn(p: Process, step: AgentStep, c: Choice, v: Sight)
    requires Acquiring(step) && (step.Probe? ==> p.command.List?)
    ensures CarriesOn(p, Acquire(p, step, c, v))
  {
  }

  lemma HoldingCarriesOn(p: Process, step: AgentStep, c: Choice, v: Sight)
    requires !Acquiring(step) && !step.Turn? && !step.ChatRead?
    ensures CarriesOn(p, HoldOn(p, step, c, v))
  {
    hide Turned, Consulted;
  }

  lemma MostAgentStepsCarryOn(p: Process, c: Choice, v: Sight)
    requires p.pc.OnAgent? && !p.pc.agentStep.Turn? && !p.pc.agentStep.ChatRead?
    requires p.pc.agentStep.Probe? ==> p.command.List?
    ensures CarriesOn(p, Advance(p, c, v))
  {
    hide AdvanceInSection, Acquire, HoldOn, CarriesOn;
    if Acquiring(p.pc.agentStep) {
      AcquiringCarriesOn(p, p.pc.agentStep, c, v);
    } else {
      HoldingCarriesOn(p, p.pc.agentStep, c, v);
    }
  }

  lemma OtherStepsCarryOn(p: Process, c: Choice, v: Sight)
    requires !p.pc.In? && !p.pc.OnAgent?
    ensures CarriesOn(p, Advance(p, c, v))
  {
    if p.pc.OnTeam? { TeamStepsCarryOn(p, p.pc.teamStep, v); }
    hide AdvanceOnTeam, AdvanceInSection, AdvanceOnAgent;
  }

  lemma TeamStepsCarryOn(p: Process, step: TeamStep, v: Sight)
    ensures CarriesOn(p, AdvanceOnTeam(p, step, v))
  {
  }

  lemma CarryingOnKeepsCarrying(p: Process, q: Process, owner: map<SessionId, Name>)
    requires Carries(p, owner) && CarriesOn(p, q)
    ensures Carries(q, owner)
  {
  }

  lemma OnlyTurnsReport(s: State, p: Process, c: Choice)
    requires p.pc != OnAgent(Turn)
    ensures Effects(s, p, c).owner == s.owner
  {
  }

  lemma MoverKeepsCarrying(s: State, pid: nat, c: Choice)
    requires Wired(s) && Committed(s) && Settled(s) && Possible(s, Step(pid, c))
    ensures Carries(Moved(s, pid, c), Effects(s, s.processes[pid], c).owner)
  {
    var p, q := s.processes[pid], Moved(s, pid, c);
    var v := See(s, pid, p, c);
    assert ProcessWired(s.teamed, s.kernel, pid, p) && WriterFits(s.file, s.tmp, p);
    if p.pc == OnAgent(Turn) {
      TurnKeepsCarrying(s, p, c);
    } else {
      OnlyTurnsReport(s, p, c);
      if p.pc.In? && p.pc.step.Decide? {
        DecidingKeepsCarrying(p, p.pc.section, c, v, s.owner);
      } else if p.pc == OnAgent(ChatRead) {
        ConsultingKeepsCarrying(p, c, v, s.owner);
      } else {
        if p.pc.In? {
          MostSectionStepsCarryOn(p, c, v);
        } else if p.pc.OnAgent? {
          MostAgentStepsCarryOn(p, c, v);
        } else {
          OtherStepsCarryOn(p, c, v);
        }
        CarryingOnKeepsCarrying(p, q, s.owner);
      }
    }
  }

  lemma CarriesWithMoreOwners(p: Process, owner: map<SessionId, Name>, later: map<SessionId, Name>)
    requires Carries(p, owner) && Grows(owner, later)
    ensures Carries(p, later)
  {
  }

  lemma EventKeepsSettled(s: State, e: Event)
    requires Wired(s) && Committed(s) && Settled(s) && Possible(s, e)
    ensures Settled(After(s, e))
  {
    match e
    case Begin(pid, command) =>
    case Die(pid) =>
    case Step(pid, c) =>
      StepParts(s, pid, c);
      var owner := Effects(s, s.processes[pid], c).owner;
      EffectsKeepOwned(s, s.processes[pid], c) by { assert WriterFits(s.file, s.tmp, s.processes[pid]); }
      MoverKeepsCarrying(s, pid, c);
      hide Effects, Wired, Committed, Call, Moved, Enabled, Owned, Carries, Grows;
      forall other | other in s.processes && other != pid ensures Carries(s.processes[other], owner) {
        CarriesWithMoreOwners(s.processes[other], s.owner, owner);
      }
  }

  /** A turn or a chat that continues a session rather than forking it. */
  predicate Resumes(p: Process, session: SessionId) {
    && (p.pc == OnAgent(Turn) || p.pc == OnAgent(Chatting))
    && p.pending.None? && p.session == Some(session)
  }

  lemma OneResumer(s: State, pid: nat, other: nat, session: SessionId)
    requires Wired(s) && Guarded(s) && Settled(s)
    requires pid in s.processes && Resumes(s.processes[pid], session)
    requires other in s.processes && Resumes(s.processes[other], session)
    ensures pid == other
  {
    OneOwner(s, pid, other);
  }
}
