/** The registry: every commit lands on the registry the last one left, and a
    reader without the lock sees some committed registry whole. */
module Commits {
  import opened Common
  import opened Registry
  import opened Flock
  import opened Commands
  import opened Wiring
  import opened Exclusion

  /** Between taking the state lock and letting it go. */
  predicate Writing(p: Process) { StateWant(p) == Has(Exclusive) }

  lemma OneWriter(s: State, pid: nat, other: nat)
    requires Wired(s) && Guarded(s)
    requires pid in s.processes && Writing(s.processes[pid])
    requires other in s.processes && Writing(s.processes[other])
    ensures pid == other
  {
    assert ProcessWired(s.teamed, s.kernel, pid, s.processes[pid]);
    assert ProcessWired(s.teamed, s.kernel, other, s.processes[other]);
    OneExclusiveHolder(s.kernel, Key(pid, StateSlot), Key(other, StateSlot));
  }

  /** A writer has read the current file, and has staged exactly one operation
      on it when it reaches the replace. */
  ghost predicate WriterFits(file: Agents, tmp: Option<Agents>, p: Process) {
    match p.pc
    case In(_, Decide) => p.view == file
    case In(_, Replace) => Allowed(file, p.op) && tmp == Some(Apply(file, p.op))
    case _ => true
  }

  /** What a command last read is the registry as some prefix of the log left
      it, whether it read under the state lock or not. */
  ghost predicate SawCommit(start: Agents, log: seq<Op>, p: Process) {
    p.pc.In? || p.pc.OnAgent? ==>
      p.readAt <= |log| && Legal(start, log[..p.readAt]) && p.view == Replay(start, log[..p.readAt])
  }

  ghost predicate Committed(s: State) {
    && Legal(s.start, s.log)
    && s.file == Replay(s.start, s.log)
    && (forall pid | pid in s.processes ::
          WriterFits(s.file, s.tmp, s.processes[pid]) && SawCommit(s.start, s.log, s.processes[pid]))
  }

  /** The files change under the state lock or in a teardown, nowhere else. */
  lemma EffectsNeedTheLock(s: State, p: Process, c: Choice)
    requires !Writing(p) && !p.pc.Sweep?
    ensures var t := Effects(s, p, c); t.file == s.file && t.tmp == s.tmp && t.log == s.log
  {
  }

  /** A replace puts the staged registry in place and logs its operation. */
  lemma ReplaceCommits(s: State, p: Process, c: Choice)
    requires p.pc.In? && p.pc.step.Replace? && WriterFits(s.file, s.tmp, p)
    ensures var t := Effects(s, p, c);
            t.log == s.log + [p.op] && t.start == s.start && Allowed(s.file, p.op) && t.file == Apply(s.file, p.op)
  {
    hide Apply, Ruling;
  }

  lemma OnlyReplacesCommit(s: State, p: Process, c: Choice)
    requires !(p.pc.In? && p.pc.step.Replace?)
    ensures var t := Effects(s, p, c);
            && t.start == s.start
            && (if p.pc.Sweep? && c.path.None? && c.yes then t.log == s.log + [TornDown] && t.file == map[]
                else t.log == s.log && t.file == s.file)
  {
    hide Apply, Ruling;
  }

  /** Whatever a step does to the log, it appends at most one legal operation. */
  lemma EffectsExtendLog(s: State, p: Process, c: Choice)
    requires Legal(s.start, s.log) && s.file == Replay(s.start, s.log) && WriterFits(s.file, s.tmp, p)
    ensures var t := Effects(s, p, c);
            && s.log <= t.log && |t.log| <= |s.log| + 1
            && Legal(t.start, t.log) && t.file == Replay(t.start, t.log)
  {
    if p.pc.In? && p.pc.step.Replace? {
      ReplaceCommits(s, p, c);
      ReplayExtends(s.start, s.log, p.op);
    } else {
      OnlyReplacesCommit(s, p, c);
      if p.pc.Sweep? && c.path.None? && c.yes { ReplayExtends(s.start, s.log, TornDown); }
    }
    hide Effects, Replay, Legal;
  }

  predicate Deciding(p: Process) { p.pc.In? && (p.pc.step.Decide? || p.pc.step.Replace?) }

  lemma SectionsDecideAfterLoading(p: Process, c: Choice, v: Sight)
    requires p.pc.In? && Deciding(Advance(p, c, v))
    ensures p.pc.step.Load? || p.pc.step.Decide?
  {
    OtherSectionStepsDecideNothing(p, p.pc.section, p.pc.step, c, v);
    hide AdvanceInSection, Deciding;
  }

  lemma OtherSectionStepsDecideNothing(p: Process, section: Section, step: SectionStep, c: Choice, v: Sight)
    ensures step.Load? || step.Decide? || !Deciding(AdvanceInSection(p, section, step, c, v))
  {
    if step.StateClose? { SectionsEndOutside(v.teamed, section, step.ok, c); }
    hide Ruling, Looked, AfterSection;
  }

  lemma OnlySectionsDecide(p: Process, c: Choice, v: Sight)
    requires !p.pc.In?
    ensures !Deciding(Advance(p, c, v))
  {
    if p.pc.OnAgent? { AgentStepsDoNotDecide(p, p.pc.agentStep, c, v); }
    hide AdvanceInSection, AdvanceOnAgent;
  }

  lemma AgentStepsDoNotDecide(p: Process, step: AgentStep, c: Choice, v: Sight)
    ensures !Deciding(AdvanceOnAgent(p, step, c, v))
  {
    if Acquiring(step) { AcquiringDecidesNothing(p, step, c, v); } else { HoldingDecidesNothing(p, step, c, v); }
    hide Acquire, HoldOn, Deciding;
  }

  lemma AcquiringDecidesNothing(p: Process, step: AgentStep, c: Choice, v: Sight)
    requires Acquiring(step)
    ensures !Deciding(Acquire(p, step, c, v))
  {
  }

  lemma HoldingDecidesNothing(p: Process, step: AgentStep, c: Choice, v: Sight)
    requires !Acquiring(step)
    ensures !Deciding(HoldOn(p, step, c, v))
  {
  }

  lemma MoverFitsFiles(s: State, p: Process, c: Choice, v: Sight)
    requires WriterFits(s.file, s.tmp, p) && v.file == s.file && v.abilities == s.abilities
    ensures var t := Effects(s, p, c); WriterFits(t.file, t.tmp, Advance(p, c, v))
  {
    if p.pc.In? {
      if p.pc.step.Load? || p.pc.step.Decide? {
        DecisionsFitFiles(s, p, p.pc.section, p.pc.step, c, v);
      } else {
        OtherSectionStepsDecideNothing(p, p.pc.section, p.pc.step, c, v);
      }
    } else {
      OnlySectionsDecide(p, c, v);
    }
    hide AdvanceInSection, AdvanceOnTeam, AdvanceOnAgent, Effects;
  }

  lemma DecisionsFitFiles(s: State, p: Process, section: Section, step: SectionStep, c: Choice, v: Sight)
    requires WriterFits(s.file, s.tmp, p) && v.file == s.file && v.abilities == s.abilities
    requires p.pc == In(section, step) && (step.Load? || step.Decide?)
    ensures var t := Effects(s, p, c); WriterFits(t.file, t.tmp, AdvanceInSection(p, section, step, c, v))
  {
    if step.Decide? { RulingsAreAllowed(section, p, c, v.abilities); }
    hide Ruling, Looked, Allowed, Apply;
  }

  lemma RulingsAreAllowed(section: Section, p: Process, c: Choice, abilities: Abilities)
    ensures Ruling(section, p, c, abilities).Write? ==> Allowed(p.view, Ruling(section, p, c, abilities).op)
  {
  }

  predicate Reads(p: Process, q: Process, v: Sight) {
    || (q.view == v.file && q.readAt == v.commits)
    || (q.view == p.view && q.readAt == p.readAt)
  }

  lemma SectionStepsRead(p: Process, c: Choice, v: Sight)
    requires p.pc.In?
    ensures Reads(p, Advance(p, c, v), v)
  {
    LookingFindsTheAgentAlone(p, p.pc.section);
    hide Ruling, Looked, AfterSection;
  }

  lemma AcquiringReads(p: Process, step: AgentStep, c: Choice, v: Sight)
    requires Acquiring(step)
    ensures Reads(p, Acquire(p, step, c, v), v)
  {
  }

  lemma HoldingReads(p: Process, step: AgentStep, c: Choice, v: Sight)
    requires !Acquiring(step)
    ensures Reads(p, HoldOn(p, step, c, v), v)
  {
  }

  lemma AgentStepsRead(p: Process, c: Choice, v: Sight)
    requires p.pc.OnAgent?
    ensures Reads(p, Advance(p, c, v), v)
  {
    hide AdvanceInSection, Acquire, HoldOn, Reads;
    if Acquiring(p.pc.agentStep) { AcquiringReads(p, p.pc.agentStep, c, v); } else { HoldingReads(p, p.pc.agentStep, c, v); }
  }

  lemma OtherStepsRead(p: Process, c: Choice, v: Sight)
    requires !p.pc.In? && !p.pc.OnAgent?
    ensures Reads(p, Advance(p, c, v), v)
    ensures p.pc.Construct? || !(Advance(p, c, v).pc.In? || Advance(p, c, v).pc.OnAgent?)
  {
    if p.pc.OnTeam? { TeamStepsReadNothing(p, p.pc.teamStep, v); }
    hide AdvanceOnTeam, AdvanceInSection, AdvanceOnAgent;
  }

  lemma TeamStepsReadNothing(p: Process, step: TeamStep, v: Sight)
    ensures var q := AdvanceOnTeam(p, step, v);
            q.view == p.view && q.readAt == p.readAt && !q.pc.In? && !q.pc.OnAgent?
  {
  }

  lemma MoverReads(p: Process, c: Choice, v: Sight)
    ensures Reads(p, Advance(p, c, v), v)
    ensures p.pc.In? || p.pc.OnAgent? || p.pc.Construct? || !(Advance(p, c, v).pc.In? || Advance(p, c, v).pc.OnAgent?)
  {
    hide Advance, Reads;
    if p.pc.In? {
      SectionStepsRead(p, c, v);
    } else if p.pc.OnAgent? {
      AgentStepsRead(p, c, v);
    } else {
      OtherStepsRead(p, c, v);
    }
  }

  lemma {:induction false} PrefixSurvives(start: Agents, log: seq<Op>, longer: seq<Op>, p: Process)
    requires SawCommit(start, log, p) && log <= longer
    ensures SawCommit(start, longer, p)
  {
    if p.pc.In? || p.pc.OnAgent? { assert longer[..p.readAt] == log[..p.readAt]; }
  }

  /** Whoever reads, reads the registry the log has led to. */
  lemma ReadIsCommitted(s: State, p: Process, q: Process, v: Sight)
    requires SawCommit(s.start, s.log, p) && Legal(s.start, s.log) && s.file == Replay(s.start, s.log)
    requires Reads(p, q, v) && v.file == s.file && v.commits == |s.log|
    requires p.pc.In? || p.pc.OnAgent? || p.pc.Construct? || !(q.pc.In? || q.pc.OnAgent?)
    requires p.pc.Construct? ==> q.view == v.file && q.readAt == v.commits
    ensures SawCommit(s.start, s.log, q)
  {
    hide Replay, Legal;
    assert s.log[..|s.log|] == s.log;
  }

  lemma MoverStaysCommitted(s: State, pid: nat, c: Choice)
    requires Wired(s) && Committed(s) && Possible(s, Step(pid, c))
    ensures var t := Effects(s, s.processes[pid], c);
            WriterFits(t.file, t.tmp, Moved(s, pid, c)) && SawCommit(t.start, t.log, Moved(s, pid, c))
  {
    var p := s.processes[pid];
    var t, v, q := Effects(s, p, c), See(s, pid, p, c), Moved(s, pid, c);
    MoverFitsFiles(s, p, c, v);
    MoverReads(p, c, v);
    EffectsExtendLog(s, p, c);
    EffectsKeepStart(s, p, c);
    assert SawCommit(s.start, s.log, p) && WriterFits(s.file, s.tmp, p);
    assert v.file == s.file && v.commits == |s.log|;
    assert q == Advance(p, c, v);
    hide Effects, Advance, Wired, Enabled, See, WriterFits, Replay, Legal;
    ReadIsCommitted(s, p, q, v);
    PrefixSurvives(s.start, s.log, t.log, q);
  }

  lemma OtherStaysCommitted(s: State, pid: nat, c: Choice, other: nat)
    requires Wired(s) && Guarded(s) && Committed(s) && Possible(s, Step(pid, c))
    requires other in s.processes && other != pid
    ensures var t := Effects(s, s.processes[pid], c);
            WriterFits(t.file, t.tmp, s.processes[other]) && SawCommit(t.start, t.log, s.processes[other])
  {
    var p, q := s.processes[pid], s.processes[other];
    EffectsExtendLog(s, p, c);
    PrefixSurvives(s.start, s.log, Effects(s, p, c).log, q);
    EffectsKeepStart(s, p, c);
    if Writing(p) {
      if Writing(q) { OneWriter(s, pid, other); }
    } else if p.pc.Sweep? {
      TeardownIsAlone(s, pid, other);
    } else {
      EffectsNeedTheLock(s, p, c);
    }
    if !Writing(q) { OnlyWritersMustFit(Effects(s, p, c).file, Effects(s, p, c).tmp, q); }
    hide Effects, SawCommit, Legal, Replay, WriterFits, Guarded, ProcessWired, Enabled;
  }

  lemma OnlyWritersMustFit(file: Agents, tmp: Option<Agents>, p: Process)
    requires !Writing(p)
    ensures WriterFits(file, tmp, p)
  {
  }

  lemma EventKeepsCommitted(s: State, e: Event)
    requires Wired(s) && Guarded(s) && Committed(s) && Possible(s, e)
    ensures Committed(After(s, e))
  {
    match e
    case Begin(pid, command) =>
    case Die(pid) =>
    case Step(pid, c) =>
      StepParts(s, pid, c);
      EffectsExtendLog(s, s.processes[pid], c);
      MoverStaysCommitted(s, pid, c);
      hide Effects, Guarded, Wired, Replay, Legal, WriterFits, SawCommit, Call, Moved, Enabled;
      forall other | other in s.processes && other != pid {
        OtherStaysCommitted(s, pid, c, other);
      }
  }
}
