/** What a command that ends has done: one that ends well has committed what it was
    asked for, and one that refuses had a reason to, in the registry it read. */
module Outcomes {
  import opened Common
  import opened Registry
  import opened Flock
  import opened Commands
  import opened Wiring
  import opened Exclusion
  import opened Commits

  /** Is it the operation a section is there to commit, with the command's own
      arguments? */
  predicate Asked(section: Section, p: Process, op: Op) {
    match section
    case Spawn => p.command.Create? && op.Created? && op.name == p.command.name && op.config == p.command.config
    case Ensure => p.command.Talk? && op.Created? && op.name == p.command.name && op.config == p.command.config
    case ForkEntry =>
      p.command.Fork? && op.Forked? && op.name == p.command.name && op.source == p.command.source
    case Commit =>
      p.command.Talk? && op.TurnDone? && op.name == p.command.name && op.session == p.session && op.pending == p.pending
    case Remove => p.command.Delete? && op.Removed? && op.name == p.command.name
    case Lookup => false
  }

  /** Why a section refuses, in the registry as it was read. */
  predicate Refusable(section: Section, p: Process, abilities: Abilities) {
    match section
    case Spawn => p.target in p.view
    case Ensure =>
      p.command.Talk? && p.target in p.view && p.command.explicit && p.view[p.target].config != p.command.config
    case ForkEntry =>
      p.command.Fork? &&
      (|| p.command.source !in p.view
       || p.view[p.command.source].session.None?
       || p.view[p.command.source].config.backend !in abilities.forkable
       || p.target in p.view)
    case _ => p.target !in p.view
  }

  /** Did the process commit, right on what it had read? */
  predicate Wrote(log: seq<Op>, section: Section, p: Process) {
    p.wrote == Some(p.readAt) && p.readAt < |log| && Asked(section, p, log[p.readAt])
  }

  /** The answer of a section that has made up its mind. */
  predicate Answered(log: seq<Op>, abilities: Abilities, section: Section, ok: bool, p: Process) {
    && (ok <==> !Refusable(section, p, abilities))
    && (ok ==>
          match section
          case Lookup => p.session == p.view[p.target].session && p.pending == p.view[p.target].pending
          case Ensure => p.target in p.view || Wrote(log, section, p)
          case _ => Wrote(log, section, p))
    && (p.failed <==> !ok)
  }

  /** Has a command that did not fail done what it was asked for? */
  predicate Finished(log: seq<Op>, p: Process) {
    match p.command
    case Create(_, _) => Logged(log, Spawn, p)
    case Fork(_, _) => Logged(log, ForkEntry, p)
    case Talk(_, _, _, _) => Logged(log, Commit, p)
    case Delete(_) => Logged(log, Remove, p)
    case _ => true
  }

  predicate Logged(log: seq<Op>, section: Section, p: Process) {
    p.wrote.Some? && p.wrote.value < |log| && Asked(section, p, log[p.wrote.value])
  }

  /** Was the agent a creating talk is after there, or has the talk created it? */
  predicate Found(log: seq<Op>, p: Process) {
    p.command.Talk? && p.command.creates ==> p.target in p.view || Logged(log, Ensure, p)
  }

  /** What a process at an agent's lock may say of itself. */
  predicate TruthfulAtAgent(log: seq<Op>, abilities: Abilities, step: AgentStep, p: Process) {
    match p.command
    case Talk(_, _, _, _) =>
      if Acquiring(step) then !p.failed && Found(log, p)
      else if step.Turn? then !p.failed && p.target in p.view
      else if step.AgentUnlock? || step.AgentClose? then p.failed || Finished(log, p)
      else p.failed
    case Chat(_) =>
      if Acquiring(step) || step.ChatRead? then !p.failed
      else if step.Chatting? then
        && !p.failed && p.target in p.view && p.session.Some? && p.view[p.target].session == p.session
        && p.view[p.target].pending.None? && p.view[p.target].config.backend in abilities.chattable
      else step.AgentUnlock? || step.AgentClose? || p.failed
    case Delete(_) => Logged(log, Remove, p)
    case _ => true
  }

  /** What a process may say of itself at each program counter. */
  predicate Truthful(log: seq<Op>, abilities: Abilities, p: Process) {
    match p.pc
    case OnTeam(step) => if step.TeamOpen? || step.TeamWait? then !p.failed else p.failed || Finished(log, p)
    case Done => p.failed || Finished(log, p)
    case In(section, step) =>
      (match step
       case Replace => !p.failed && Asked(section, p, p.op) && !Refusable(section, p, abilities)
       case StateUnlock(ok) => Answered(log, abilities, section, ok, p)
       case StateClose(ok) => Answered(log, abilities, section, ok, p)
       case _ => !p.failed)
    case OnAgent(step) => TruthfulAtAgent(log, abilities, step, p)
    case _ => !p.failed
  }

  /** A process that decides has read all there is. */
  predicate UpToDate(log: seq<Op>, p: Process) { Deciding(p) ==> p.readAt == |log| }

  ghost predicate Told(s: State) {
    forall pid | pid in s.processes ::
      Truthful(s.log, s.abilities, s.processes[pid]) && UpToDate(s.log, s.processes[pid])
  }

  lemma LongerLogsTellTheSame(log: seq<Op>, longer: seq<Op>, abilities: Abilities, p: Process)
    requires log <= longer && Truthful(log, abilities, p)
    ensures Truthful(longer, abilities, p)
  {
    assert forall i | 0 <= i < |log| :: longer[i] == log[i];
    hide Refusable, Asked;
  }

  /** The same command, with the same commit behind it. */
  predicate SameStory(p: Process, q: Process) {
    && q.command == p.command && q.wrote == p.wrote && q.failed == p.failed
    && q.session == p.session && q.pending == p.pending
  }

  lemma SameStorySameEnd(log: seq<Op>, p: Process, q: Process)
    requires SameStory(p, q)
    ensures Finished(log, q) == Finished(log, p) && forall section :: Logged(log, section, q) == Logged(log, section, p)
  {
  }

  // What each kind of step makes of it.

  lemma TeamStepsAreTruthful(p: Process, step: TeamStep, log: seq<Op>, c: Choice, v: Sight)
    requires p.pc == OnTeam(step) && Truthful(log, v.abilities, p)
    requires step.TeamWait? ==> v.granted || p.command.Teardown?
    ensures Truthful(log, v.abilities, AdvanceOnTeam(p, step, v))
  {
    var q := AdvanceOnTeam(p, step, v);
    if SameStory(p, q) { SameStorySameEnd(log, p, q); }
    hide Finished;
  }

  lemma StartIsTruthful(p: Process, log: seq<Op>, c: Choice, v: Sight)
    requires (p.pc.Construct? || p.pc.Sweep?) && Fits(v.teamed, p) && Truthful(log, v.abilities, p)
    ensures Truthful(log, v.abilities, Advance(p, c, v))
  {
    hide AdvanceInSection, AdvanceOnAgent, Logged, Refusable, Answered;
  }

  lemma DecisionsAreTruthful(p: Process, section: Section, log: seq<Op>, c: Choice, v: Sight)
    requires p.pc == In(section, Decide) && Fits(v.teamed, p) && !p.failed
    ensures Truthful(log, v.abilities, AdvanceInSection(p, section, Decide, c, v))
  {
    hide Wrote;
  }

  lemma ReplacesAreTruthful(p: Process, section: Section, log: seq<Op>, longer: seq<Op>, c: Choice, v: Sight)
    requires p.pc == In(section, Replace) && Fits(v.teamed, p) && Truthful(log, v.abilities, p)
    requires p.readAt == |log| == v.commits && longer == log + [p.op]
    ensures Truthful(longer, v.abilities, AdvanceInSection(p, section, Replace, c, v))
  {
    var q := AdvanceInSection(p, section, Replace, c, v);
    assert longer[p.readAt] == p.op;
    assert Refusable(section, q, v.abilities) == Refusable(section, p, v.abilities);
    assert Asked(section, q, p.op) == Asked(section, p, p.op);
    hide Refusable, Asked;
  }

  lemma UnlocksAreTruthful(p: Process, section: Section, ok: bool, log: seq<Op>, c: Choice, v: Sight)
    requires p.pc == In(section, StateUnlock(ok)) && Truthful(log, v.abilities, p)
    ensures Truthful(log, v.abilities, AdvanceInSection(p, section, StateUnlock(ok), c, v))
  {
    var q := AdvanceInSection(p, section, StateUnlock(ok), c, v);
    assert Refusable(section, q, v.abilities) == Refusable(section, p, v.abilities);
    assert Wrote(log, section, q) == Wrote(log, section, p);
    hide Refusable, Wrote;
  }

  lemma SectionEndsAreTruthful(p: Process, section: Section, ok: bool, log: seq<Op>, c: Choice, v: Sight)
    requires p.pc == In(section, StateClose(ok)) && Fits(v.teamed, p) && Truthful(log, v.abilities, p)
    ensures Truthful(log, v.abilities, AdvanceInSection(p, section, StateClose(ok), c, v))
  {
    var q := AdvanceInSection(p, section, StateClose(ok), c, v);
    SameStorySameEnd(log, p, q);
    hide Refusable, Asked;
  }

  lemma EarlySectionStepsAreTruthful(p: Process, section: Section, step: SectionStep, log: seq<Op>, c: Choice, v: Sight)
    requires p.pc == In(section, step) && (step.StateOpen? || step.StateWait? || step.Load?) && !p.failed
    ensures Truthful(log, v.abilities, AdvanceInSection(p, section, step, c, v))
  {
    hide Ruling, Answered, Asked, Refusable;
  }

  lemma AcquiringStepsAreTruthful(p: Process, step: AgentStep, log: seq<Op>, c: Choice, v: Sight)
    requires p.pc == OnAgent(step) && Acquiring(step) && Fits(v.teamed, p) && Truthful(log, v.abilities, p)
    requires step.AgentWait? ==> v.granted || !p.command.Talk?
    ensures Truthful(log, v.abilities, AdvanceOnAgent(p, step, c, v))
  {
    AcquiringIsNoNews(p, step, c, v);
    if !step.Probe? { SameStoryStillFound(log, p, Acquire(p, step, c, v)); }
    hide Logged, Found, Finished, AdvanceInSection, HoldOn;
  }

  lemma AcquiringIsNoNews(p: Process, step: AgentStep, c: Choice, v: Sight)
    requires Acquiring(step)
    ensures var q := Acquire(p, step, c, v);
            && q.command == p.command && q.wrote == p.wrote && q.session == p.session && q.pending == p.pending
            && q.view == p.view && (!step.Probe? ==> q.target == p.target)
  {
  }

  lemma SameStoryStillFound(log: seq<Op>, p: Process, q: Process)
    requires q.command == p.command && q.wrote == p.wrote && q.session == p.session && q.pending == p.pending
    requires q.view == p.view && q.target == p.target
    ensures Found(log, q) == Found(log, p) && Finished(log, q) == Finished(log, p)
    ensures Logged(log, Remove, q) == Logged(log, Remove, p)
  {
  }

  lemma HoldingStepsAreTruthful(p: Process, step: AgentStep, log: seq<Op>, c: Choice, v: Sight)
    requires p.pc == OnAgent(step) && !Acquiring(step) && Fits(v.teamed, p) && Truthful(log, v.abilities, p)
    ensures Truthful(log, v.abilities, AdvanceOnAgent(p, step, c, v))
  {
    if !step.Turn? && !step.ChatRead? {
      HoldingIsNoNews(p, step, c, v);
      SameStoryStillFound(log, p, HoldOn(p, step, c, v));
    }
    hide Logged, Found, Finished, AdvanceInSection, Acquire;
  }

  lemma HoldingIsNoNews(p: Process, step: AgentStep, c: Choice, v: Sight)
    requires !Acquiring(step) && !step.Turn? && !step.ChatRead?
    ensures var q := HoldOn(p, step, c, v);
            && q.command == p.command && q.wrote == p.wrote && q.session == p.session && q.pending == p.pending
            && q.view == p.view && q.target == p.target
  {
    hide Turned, Consulted;
  }

  lemma MoverStaysTruthful(s: State, pid: nat, c: Choice)
    requires Wired(s) && Committed(s) && Told(s) && Possible(s, Step(pid, c))
    ensures Truthful(Effects(s, s.processes[pid], c).log, s.abilities, Moved(s, pid, c))
  {
    var p, v := s.processes[pid], See(s, pid, s.processes[pid], c);
    assert Fits(s.teamed, p) by {
      hide Sound, Meets;
      assert ProcessWired(s.teamed, s.kernel, pid, p);
    }
    assert Truthful(s.log, s.abilities, p) && UpToDate(s.log, p) && WriterFits(s.file, s.tmp, p);
    assert v.abilities == s.abilities && v.commits == |s.log| && v.teamed == s.teamed;
    assert p.pc == OnTeam(TeamWait) ==> v.granted || p.command.Teardown?;
    assert p.pc == OnAgent(AgentWait) ==> v.granted || !p.command.Talk?;
    if p.pc.In? && p.pc.step.Replace? {
      ReplaceCommits(s, p, c);
      ReplacesAreTruthful(p, p.pc.section, s.log, s.log + [p.op], c, v);
    } else {
      OnlyReplacesCommit(s, p, c);
      OtherMovesAreTruthful(p, s.log, c, v);
      LongerLogsTellTheSame(s.log, Effects(s, p, c).log, s.abilities, Advance(p, c, v));
    }
    hide *;
  }

  lemma OtherMovesAreTruthful(p: Process, log: seq<Op>, c: Choice, v: Sight)
    requires Fits(v.teamed, p) && Truthful(log, v.abilities, p) && !(p.pc.In? && p.pc.step.Replace?)
    requires p.pc == OnTeam(TeamWait) ==> v.granted || p.command.Teardown?
    requires p.pc == OnAgent(AgentWait) ==> v.granted || !p.command.Talk?
    ensures Truthful(log, v.abilities, Advance(p, c, v))
  {
    match p.pc
    case OnTeam(step) => TeamStepsAreTruthful(p, step, log, c, v);
    case In(section, step) =>
      match step {
        case Decide => DecisionsAreTruthful(p, section, log, c, v);
        case StateUnlock(ok) => UnlocksAreTruthful(p, section, ok, log, c, v);
        case StateClose(ok) => SectionEndsAreTruthful(p, section, ok, log, c, v);
        case _ => EarlySectionStepsAreTruthful(p, section, step, log, c, v);
      }
    case OnAgent(step) =>
      if Acquiring(step) { AcquiringStepsAreTruthful(p, step, log, c, v); } else { HoldingStepsAreTruthful(p, step, log, c, v); }
    case Done =>
    case _ => StartIsTruthful(p, log, c, v);
  }

  lemma MoverStaysUpToDate(s: State, pid: nat, c: Choice)
    requires Told(s) && Possible(s, Step(pid, c))
    ensures UpToDate(Effects(s, s.processes[pid], c).log, Moved(s, pid, c))
  {
    var p, v := s.processes[pid], See(s, pid, s.processes[pid], c);
    var q := Advance(p, c, v);
    assert UpToDate(s.log, p);
    if Deciding(q) {
      if !p.pc.In? { OnlySectionsDecide(p, c, v); }
      SectionsDecideAfterLoading(p, c, v);
      assert q == AdvanceInSection(p, p.pc.section, p.pc.step, c, v);
      OnlyReplacesCommit(s, p, c);
    }
    hide Effects;
  }

  lemma OtherStaysTold(s: State, pid: nat, c: Choice, other: nat)
    requires Wired(s) && Guarded(s) && Committed(s) && Told(s) && Possible(s, Step(pid, c))
    requires other in s.processes && other != pid
    ensures var log := Effects(s, s.processes[pid], c).log;
            Truthful(log, s.abilities, s.processes[other]) && UpToDate(log, s.processes[other])
  {
    var p, q := s.processes[pid], s.processes[other];
    var t := Effects(s, p, c);
    assert Truthful(s.log, s.abilities, q) && UpToDate(s.log, q) && WriterFits(s.file, s.tmp, p);
    EffectsExtendLog(s, p, c);
    LongerLogsTellTheSame(s.log, t.log, s.abilities, q);
    if Deciding(q) {
      assert Writing(q);
      if Writing(p) {
        OneWriter(s, pid, other);
      } else if p.pc.Sweep? {
        TeardownIsAlone(s, pid, other);
      } else {
        EffectsNeedTheLock(s, p, c);
      }
    }
    hide Effects, Truthful, Wired, Guarded, Committed, Told, Enabled, ProcessWired, Writing;
  }

  lemma EventKeepsTold(s: State, e: Event)
    requires Wired(s) && Guarded(s) && Committed(s) && Told(s) && Possible(s, e)
    ensures Told(After(s, e))
  {
    match e
    case Begin(pid, command) => BeginIsTold(s, pid, command);
    case Die(pid) =>
    case Step(pid, c) => StepKeepsTold(s, pid, c);
  }

  lemma BeginIsTold(s: State, pid: nat, command: Command)
    requires Told(s) && Possible(s, Begin(pid, command))
    ensures Told(After(s, Begin(pid, command)))
  {
    assert Truthful(s.log, s.abilities, Started(s.teamed, command));
    hide Truthful;
  }

  lemma StepKeepsTold(s: State, pid: nat, c: Choice)
    requires Wired(s) && Guarded(s) && Committed(s) && Told(s) && Possible(s, Step(pid, c))
    ensures Told(After(s, Step(pid, c)))
  {
    StepParts(s, pid, c);
    MoverStaysTruthful(s, pid, c);
    MoverStaysUpToDate(s, pid, c);
    hide Effects, Guarded, Wired, Committed, Call, Moved, Enabled, Truthful, UpToDate;
    forall other | other in s.processes && other != pid
      ensures Truthful(Effects(s, s.processes[pid], c).log, s.abilities, s.processes[other])
      ensures UpToDate(Effects(s, s.processes[pid], c).log, s.processes[other])
    {
      OtherStaysTold(s, pid, c, other);
    }
  }
}
