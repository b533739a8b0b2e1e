/** What holds in every state any interleaving of commands can reach, deaths
    included. */
module Runs {
  import opened Common
  import opened Registry
  import opened Flock
  import opened Commands
  import opened Wiring
  import opened Exclusion
  import opened Commits
  import opened Outcomes
  import opened Reclaims
  import opened Probing
  import opened Sessions
  import opened Revalidation
  import opened Progress

  ghost predicate Invariant(s: State) {
    Wired(s) && Guarded(s) && Committed(s) && Settled(s) && Patient(s) && Told(s) && Reclaimed(s) && Probed(s)
  }

  lemma EventKeepsInvariant(s: State, e: Event)
    requires Invariant(s) && Possible(s, e)
    ensures Invariant(After(s, e))
  {
    EventKeepsWired(s, e);
    EventKeepsGuarded(s, e);
    EventKeepsCommitted(s, e);
    EventKeepsSettled(s, e);
    EventKeepsPatient(s, e);
    EventKeepsTold(s, e);
    EventKeepsReclaimed(s, e);
    EventKeepsProbed(s, e);
    hide *;
  }

  lemma InitiallyInvariant(s: State)
    requires Initial(s)
    ensures Invariant(s)
  {
    InitiallyWired(s);
  }

  lemma {:induction false} InvariantHolds(start: State, events: seq<Event>)
    requires Initial(start) && Feasible(start, events)
    ensures Invariant(Final(start, events))
  {
    if events == [] {
      InitiallyInvariant(start);
    } else {
      var before := events[..|events| - 1];
      InvariantHolds(start, before);
      EventKeepsInvariant(Final(start, before), events[|events| - 1]);
    }
  }

  /** Some interleaving of commands, from some registry, leads here. */
  ghost predicate Reachable(s: State) {
    exists start, events :: Initial(start) && Feasible(start, events) && s == Final(start, events)
  }

  lemma ReachableIsInvariant(s: State)
    requires Reachable(s)
    ensures Invariant(s)
  {
    var start, events :| Initial(start) && Feasible(start, events) && s == Final(start, events);
    InvariantHolds(start, events);
  }

  /** For one agent, at most one process is ever between a validated acquire of
      its lock and the release or the unlink. */
  lemma TurnsNeverOverlap(s: State, pid: nat, other: nat)
    requires Reachable(s)
    requires pid in s.processes && Owns(s.processes[pid])
    requires other in s.processes && Owns(s.processes[other])
    requires s.processes[pid].target == s.processes[other].target
    ensures pid == other
  {
    ReachableIsInvariant(s);
    OneOwner(s, pid, other);
  }

  lemma UnlinkStepHitsOwnInode(s: State, pid: nat, c: Choice, path: Path)
    requires Wired(s) && Guarded(s) && Possible(s, Step(pid, c)) && Call(s, pid, c) == Unlink(path)
    requires path in s.kernel.dir
    ensures || HoldsInode(s.kernel, Key(pid, AgentSlot), s.kernel.dir[path])
            || (s.processes[pid].pc.Sweep? && forall key | key in s.kernel.fds :: s.kernel.fds[key].inode != s.kernel.dir[path])
  {
    var p := s.processes[pid];
    UnlinksAreReclaims(p, c, See(s, pid, p, c));
    if p.pc.Sweep? {
      SweepSparesTheOpen(s, pid, c, path);
    } else {
      ReclaimsHold(s, pid, c, path);
    }
    hide *;
  }

  lemma SweepSparesTheOpen(s: State, pid: nat, c: Choice, path: Path)
    requires Wired(s) && Guarded(s) && Possible(s, Step(pid, c)) && Call(s, pid, c) == Unlink(path)
    requires path in s.kernel.dir && s.processes[pid].pc.Sweep?
    ensures forall key | key in s.kernel.fds :: s.kernel.fds[key].inode != s.kernel.dir[path]
  {
    assert path != TeamLock;
    assert OnePathPerInode(s.kernel) && NeverOrphaned(s.kernel, TeamLock);
    hide Enabled, Call, Guarded;
    forall key | key in s.kernel.fds ensures s.kernel.fds[key].inode != s.kernel.dir[path] {
      SweepMeetsNoStateLock(s, pid, key);
    }
  }

  lemma ReclaimsHold(s: State, pid: nat, c: Choice, path: Path)
    requires Wired(s) && Guarded(s) && Possible(s, Step(pid, c)) && path == OwnPath(s.processes[pid])
    requires path in s.kernel.dir && s.processes[pid].pc == OnAgent(Reclaim)
    ensures HoldsInode(s.kernel, Key(pid, AgentSlot), s.kernel.dir[path])
  {
    var p := s.processes[pid];
    assert Owns(p) && Live(s.kernel, Key(pid, AgentSlot));
    assert Meets(s.kernel, Key(pid, AgentSlot), OwnPath(p), Has(Exclusive)) by {
      assert ProcessWired(s.teamed, s.kernel, pid, p);
    }
    hide Wired, Guarded, Enabled;
  }

  predicate HoldsInode(k: Kernel, key: Key, inode: nat) {
    key in k.fds && k.fds[key].held == Some(Exclusive) && k.fds[key].inode == inode
  }

  /** A step that takes a lock file away takes the inode its own process has
      locked exclusively, or belongs to a teardown and takes one nobody has open. */
  lemma UnlinksHitOwnInode(s: State, pid: nat, c: Choice, path: Path)
    requires Reachable(s) && Possible(s, Step(pid, c))
    requires path in s.kernel.dir && path !in After(s, Step(pid, c)).kernel.dir
    ensures || HoldsInode(s.kernel, Key(pid, AgentSlot), s.kernel.dir[path])
            || (s.processes[pid].pc.Sweep? && forall key | key in s.kernel.fds :: s.kernel.fds[key].inode != s.kernel.dir[path])
  {
    ReachableIsInvariant(s);
    StepParts(s, pid, c);
    OnlyUnlinksRemove(s.kernel, pid, Call(s, pid, c), path);
    hide Reachable, Wired, Guarded, Committed, Settled, Patient, Told, Reclaimed, Call, Moved, Effects, Enabled, Execute, After, HoldsInode;
    UnlinkStepHitsOwnInode(s, pid, c, path);
  }

  /** A talk or a chat that found no agent always finds its lock file still live. */
  lemma NotFoundHandlerSeesItsOwnFile(s: State, pid: nat)
    requires Reachable(s)
    requires pid in s.processes && s.processes[pid].pc == OnAgent(LiveCheck) && !s.processes[pid].command.Delete?
    ensures Live(s.kernel, Key(pid, AgentSlot))
  {
    ReachableIsInvariant(s);
    assert Owns(s.processes[pid]);
  }

  /** Two agents never store one session, and an entry still to be forked has
      none of its own. */
  lemma SessionsAreUnique(s: State, name: Name, other: Name)
    requires Reachable(s) && name in s.file && other in s.file
    ensures s.file[name].session.Some? && s.file[name].session == s.file[other].session ==> name == other
    ensures s.file[name].pending.Some? ==> s.file[name].session.None?
  {
    ReachableIsInvariant(s);
  }

  /** No two commands continue one session at a time, not even when its agent is
      deleted and created again behind a turn. */
  lemma OneConversationPerSession(s: State, pid: nat, other: nat, session: SessionId)
    requires Reachable(s)
    requires pid in s.processes && Resumes(s.processes[pid], session)
    requires other in s.processes && Resumes(s.processes[other], session)
    ensures pid == other
  {
    ReachableIsInvariant(s);
    OneResumer(s, pid, other, session);
  }

  /** The file is the committed operations applied one at a time to the registry
      the run began with, and every counter is the number of turns committed on
      its name. */
  lemma RegistryIsItsLog(s: State)
    requires Reachable(s)
    ensures Legal(s.start, s.log) && s.file == Replay(s.start, s.log)
    ensures forall name | name in s.file && Born(s.log, name) ::
              s.file[name].turns.GetOr(0) == TurnsSince(s.log, name)
    ensures forall name | name in s.file && !Born(s.log, name) ::
              name in s.start && s.file[name].turns.GetOr(0) == s.start[name].turns.GetOr(0) + TurnsSince(s.log, name)
  {
    ReachableIsInvariant(s);
    forall name | name in s.file {
      TurnsCountCommits(s.start, s.log, name);
    }
  }

  /** No update is lost: a replace appends its operation to the log and applies
      it to the very file the last commit left. */
  lemma CommitsLandOnTheLastOne(s: State, pid: nat, c: Choice)
    requires Reachable(s) && Possible(s, Step(pid, c))
    requires s.processes[pid].pc.In? && s.processes[pid].pc.step.Replace?
    ensures var t, op := After(s, Step(pid, c)), s.processes[pid].op;
            t.log == s.log + [op] && Allowed(s.file, op) && t.file == Apply(s.file, op)
  {
    ReachableIsInvariant(s);
    assert WriterFits(s.file, s.tmp, s.processes[pid]);
    StepParts(s, pid, c);
    ReplaceCommits(s, s.processes[pid], c);
    hide *;
  }

  /** Whatever a command has read, locked or not, at any point between two steps
      of the others, is a registry that was committed as a whole. */
  lemma ReadersSeeCommits(s: State, pid: nat)
    requires Reachable(s)
    requires pid in s.processes && (s.processes[pid].pc.In? || s.processes[pid].pc.OnAgent?)
    ensures exists n: nat :: n <= |s.log| && Legal(s.start, s.log[..n]) && s.processes[pid].view == Replay(s.start, s.log[..n])
  {
    ReachableIsInvariant(s);
    assert SawCommit(s.start, s.log, s.processes[pid]);
  }

  /** Where a process stands, and what it may say of itself there. */
  lemma Standing(s: State, pid: nat)
    requires Reachable(s) && pid in s.processes
    ensures Fits(s.teamed, s.processes[pid]) && Truthful(s.log, s.abilities, s.processes[pid])
  {
    ReachableIsInvariant(s);
    hide Sound, Meets, Reachable, Guarded, Committed, Settled, Patient, Reclaimed, Truthful, Fits;
    assert ProcessWired(s.teamed, s.kernel, pid, s.processes[pid]);
  }

  predicate Creation(op: Op, name: Name, config: Config) { op.Created? && op.name == name && op.config == config }

  predicate Forking(op: Op, source: Name, name: Name) { op.Forked? && op.source == source && op.name == name }

  predicate TurnOf(op: Op, name: Name, session: Option<SessionId>, pending: Option<SessionId>) {
    op.TurnDone? && op.name == name && op.session == session && op.pending == pending
  }

  /** A section that says it succeeded has committed its command's own operation, on
      the registry it had read. */
  lemma SectionsThatSucceedHaveCommitted(s: State, pid: nat)
    requires Reachable(s) && pid in s.processes
    requires s.processes[pid].pc.In? && (s.processes[pid].pc.step.StateUnlock? || s.processes[pid].pc.step.StateClose?)
    requires s.processes[pid].pc.step.ok
    ensures var p := s.processes[pid];
            match p.pc.section
            case Spawn =>
              p.command.Create? && p.readAt < |s.log| && Creation(s.log[p.readAt], p.command.name, p.command.config)
            case ForkEntry =>
              p.command.Fork? && p.readAt < |s.log| && Forking(s.log[p.readAt], p.command.source, p.command.name)
            case Remove =>
              p.command.Delete? && p.readAt < |s.log| && s.log[p.readAt] == Removed(p.command.name)
            case Commit =>
              p.command.Talk? && p.readAt < |s.log| && TurnOf(s.log[p.readAt], p.command.name, p.session, p.pending)
            case Ensure =>
              p.command.Talk?
              && (|| (p.target in p.view && (p.command.explicit ==> p.view[p.target].config == p.command.config))
                  || (p.readAt < |s.log| && Creation(s.log[p.readAt], p.command.name, p.command.config)))
            case Lookup =>
              && p.target in p.view && p.session == p.view[p.target].session && p.pending == p.view[p.target].pending
              && (p.pending.Some? ==> ResumeFrom(p) == p.pending) && (p.pending.None? ==> ResumeFrom(p) == p.session)
  {
    Standing(s, pid);
    hide Reachable;
  }

  /** A section that refuses has a reason to in the registry it read: the name is
      taken or unknown, the agent is configured otherwise, or the source has no
      session or a backend that cannot fork. */
  lemma RefusalsHaveReasons(s: State, pid: nat)
    requires Reachable(s) && pid in s.processes
    requires s.processes[pid].pc.In? && (s.processes[pid].pc.step.StateUnlock? || s.processes[pid].pc.step.StateClose?)
    ensures var p := s.processes[pid];
            !p.pc.step.ok <==>
              match p.pc.section
              case Spawn => p.target in p.view
              case Ensure =>
                p.command.Talk? && p.target in p.view && p.command.explicit && p.view[p.target].config != p.command.config
              case ForkEntry =>
                p.command.Fork?
                && (|| p.command.source !in p.view || p.view[p.command.source].session.None?
                    || p.view[p.command.source].config.backend !in s.abilities.forkable || p.target in p.view)
              case _ => p.target !in p.view
  {
    Standing(s, pid);
    hide Reachable;
  }

  /** A turn that worked, and that was no fork come back as its source, is carried
      straight to the commit: the reported session if there is one, the one there was
      if not. */
  lemma WorkedTurnsAreCarriedToTheCommit(s: State, pid: nat, c: Choice)
    requires Reachable(s) && Possible(s, Step(pid, c)) && s.processes[pid].pc == OnAgent(Turn)
    requires !c.yes && (c.reported.None? || c.reported != s.processes[pid].pending)
    ensures var p, q := s.processes[pid], After(s, Step(pid, c)).processes[pid];
            && q.pc == In(Commit, StateOpen) && !q.failed
            && q.session == (if c.reported.Some? then c.reported else p.session)
            && q.pending == (if c.reported.Some? then None else p.pending)
  {
    Standing(s, pid);
    StepParts(s, pid, c);
    hide Reachable, Effects, After, Call, AdvanceInSection, Enabled;
  }

  /** A command that ends without an error has done what it was asked for: its
      operation is in the log, and a talk's turn is. */
  lemma FinishedCommandsAreInTheLog(s: State, pid: nat)
    requires Reachable(s) && pid in s.processes && s.processes[pid].pc.Done? && !s.processes[pid].failed
    ensures var p := s.processes[pid];
            match p.command
            case Create(name, config) => exists i | 0 <= i < |s.log| :: Creation(s.log[i], name, config)
            case Fork(source, name) => exists i | 0 <= i < |s.log| :: Forking(s.log[i], source, name)
            case Talk(name, _, _, _) => exists i | 0 <= i < |s.log| :: TurnOf(s.log[i], name, p.session, p.pending)
            case Delete(name) => exists i | 0 <= i < |s.log| :: s.log[i] == Removed(name)
            case _ => true
  {
    Standing(s, pid);
    hide Reachable;
    var p := s.processes[pid];
    if p.wrote.Some? && p.wrote.value < |s.log| { var op := s.log[p.wrote.value]; }
  }

  /** Once a talk has committed, it either lets the agent's lock go or has another
      turn, under the same lock and from what it has just committed. */
  lemma RetriesGoOnFromTheCommit(s: State, pid: nat, c: Choice)
    requires Reachable(s) && Possible(s, Step(pid, c)) && s.processes[pid].pc == In(Commit, StateClose(true))
    ensures var p, t := s.processes[pid], After(s, Step(pid, c));
            var q := t.processes[pid];
            && q.pc == (if c.yes then OnAgent(Turn) else OnAgent(AgentUnlock))
            && q.session == p.session && q.pending == p.pending && !q.failed
            && Live(t.kernel, Key(pid, AgentSlot)) && Owns(p)
            && p.command.Talk? && p.readAt < |s.log| && TurnOf(s.log[p.readAt], p.command.name, q.session, q.pending)
  {
    SectionsThatSucceedHaveCommitted(s, pid);
    Standing(s, pid);
    OwnersAreLive(s, pid);
    StepParts(s, pid, c);
    hide Reachable, Effects, After, Enabled, Truthful, Fits, Advance;
    var p, v := s.processes[pid], See(s, pid, s.processes[pid], c);
    assert Call(s, pid, c) == Close(StateSlot) && Moved(s, pid, c) == Advance(p, c, v);
    CommitsEndAsTheyMay(p, c, v, s.log);
    ClosingStateKeepsTheAgent(s.kernel, pid);
    hide *;
  }

  lemma OwnersAreLive(s: State, pid: nat)
    requires Reachable(s) && pid in s.processes && Owns(s.processes[pid])
    ensures Live(s.kernel, Key(pid, AgentSlot))
  {
    ReachableIsInvariant(s);
  }

  lemma CommitsEndAsTheyMay(p: Process, c: Choice, v: Sight, log: seq<Op>)
    requires p.pc == In(Commit, StateClose(true)) && Truthful(log, v.abilities, p)
    ensures var q := Advance(p, c, v);
            && q.pc == (if c.yes then OnAgent(Turn) else OnAgent(AgentUnlock))
            && q.session == p.session && q.pending == p.pending && !q.failed && Owns(p)
  {
    hide AdvanceOnAgent, Wrote, Refusable;
  }

  lemma ClosingStateKeepsTheAgent(k: Kernel, pid: nat)
    requires Live(k, Key(pid, AgentSlot)) && Permitted(k, pid, Close(StateSlot))
    ensures Live(Execute(k, pid, Close(StateSlot)), Key(pid, AgentSlot))
  {
  }

  /** A chat that has looked its agent up starts exactly if the agent is there, with a
      session, no fork still to be made and a backend that can chat. */
  lemma ChatsStartIff(s: State, pid: nat, c: Choice)
    requires Reachable(s) && Possible(s, Step(pid, c)) && s.processes[pid].pc == OnAgent(ChatRead)
    ensures var name, q := s.processes[pid].target, After(s, Step(pid, c)).processes[pid];
            && (q.pc == OnAgent(Chatting) <==>
                  && name in s.file && s.file[name].session.Some? && s.file[name].pending.None?
                  && s.file[name].config.backend in s.abilities.chattable)
            && (q.pc == OnAgent(Chatting) <==> !q.failed)
  {
    Standing(s, pid);
    StepParts(s, pid, c);
    hide Reachable, Effects, After, Call, AdvanceInSection, Enabled;
  }

  /** What a command that ends without an error has asked about: a list every agent it
      read, and any other its own agent's lock. */
  lemma FinishedCommandsHaveAsked(s: State, pid: nat)
    requires Reachable(s) && pid in s.processes && s.processes[pid].pc.Done? && !s.processes[pid].failed
    ensures var p := s.processes[pid];
            && (p.command.List? ==> p.busy.Keys == p.view.Keys)
            && (p.command.Talk? || p.command.Chat? || p.command.Delete? ==> p.command.name in p.busy)
  {
    ReachableIsInvariant(s);
    assert Thorough(s.processes[pid]);
  }

  /** A list calls an agent busy only if another command than a list has its lock, and
      if a turn is in flight, unless the list's own file has been removed under it. */
  lemma BusyMeansInUse(s: State, pid: nat, c: Choice)
    requires Reachable(s) && Possible(s, Step(pid, c))
    requires s.processes[pid].command.List? && s.processes[pid].pc == OnAgent(AgentWait)
    ensures var name, q := s.processes[pid].target, After(s, Step(pid, c)).processes[pid];
            && name in q.busy
            && (q.busy[name] ==> Taken(s, pid, name))
            && (forall other | other in s.processes && Owns(s.processes[other]) && s.processes[other].target == name ::
                  Live(s.kernel, Key(pid, AgentSlot)) ==> q.busy[name])
  {
    ReachableIsInvariant(s);
    StepParts(s, pid, c);
    var p := s.processes[pid];
    assert See(s, pid, p, c).granted == Grantable(s.kernel, Key(pid, AgentSlot), Shared);
    if !Grantable(s.kernel, Key(pid, AgentSlot), Shared) { RefusedListsMeetATurn(s, pid); }
    AskingNotesTheAnswer(p, c, See(s, pid, p, c));
    hide Reachable, Effects, After, Call, Advance, Enabled, Invariant, Wired, Guarded, Taken, Grantable, Live, See;
    forall other | other in s.processes && Owns(s.processes[other]) && s.processes[other].target == p.target
      ensures Live(s.kernel, Key(pid, AgentSlot)) ==> !Grantable(s.kernel, Key(pid, AgentSlot), Shared)
    {
      if Live(s.kernel, Key(pid, AgentSlot)) { TurnsRefuseLists(s, pid, other); }
    }
  }

  /** A list passes an agent over, as not busy, only where there is no lock file, and
      then no turn on it is in flight. */
  lemma PassedOverMeansIdle(s: State, pid: nat, c: Choice)
    requires Reachable(s) && Possible(s, Step(pid, c))
    requires s.processes[pid].pc == OnAgent(Probe) && s.processes[pid].todo != {}
    ensures var q := After(s, Step(pid, c)).processes[pid];
            && (AgentLock(c.name) in s.kernel.dir <==> q.pc == OnAgent(AgentOpen) && q.target == c.name)
            && (AgentLock(c.name) !in s.kernel.dir ==>
                  && q.pc == OnAgent(Probe) && c.name in q.busy && !q.busy[c.name]
                  && forall other | other in s.processes && Owns(s.processes[other]) :: s.processes[other].target != c.name)
  {
    ReachableIsInvariant(s);
    StepParts(s, pid, c);
    ProbingLooksFirst(s.processes[pid], c, See(s, pid, s.processes[pid], c));
    hide Reachable, Effects, After, Call, Advance, Enabled, Invariant;
    forall other | other in s.processes && Owns(s.processes[other]) ensures AgentLock(s.processes[other].target) in s.kernel.dir {
      OwnersAreLive(s, other);
      OwnersHaveTheirPath(s, other);
    }
  }

  lemma OwnersHaveTheirPath(s: State, pid: nat)
    requires Reachable(s) && pid in s.processes && Owns(s.processes[pid]) && Key(pid, AgentSlot) in s.kernel.fds
    ensures s.kernel.fds[Key(pid, AgentSlot)].path == AgentLock(s.processes[pid].target)
  {
    ReachableIsInvariant(s);
    hide Sound, Fits;
    assert ProcessWired(s.teamed, s.kernel, pid, s.processes[pid]);
  }

  lemma ProbingLooksFirst(p: Process, c: Choice, v: Sight)
    requires p.pc == OnAgent(Probe) && p.todo != {}
    ensures var q := Advance(p, c, v);
            if v.lockFile then q.pc == OnAgent(AgentOpen) && q.target == c.name
            else q.pc == OnAgent(Probe) && q.busy == p.busy[c.name := false]
  {
    hide AdvanceInSection, HoldOn;
  }

  lemma AskingNotesTheAnswer(p: Process, c: Choice, v: Sight)
    requires p.pc == OnAgent(AgentWait)
    ensures Advance(p, c, v).busy == p.busy[p.target := !v.granted]
  {
    hide AdvanceInSection, HoldOn;
  }

  /** A chat runs on the session its agent stores, and on no fork still to be made. */
  lemma ChatsRunOnTheStoredSession(s: State, pid: nat)
    requires Reachable(s) && pid in s.processes && s.processes[pid].pc == OnAgent(Chatting)
    ensures var p := s.processes[pid];
            && p.target in p.view && p.session.Some? && p.view[p.target].session == p.session
            && p.view[p.target].pending.None? && p.view[p.target].config.backend in s.abilities.chattable
  {
    Standing(s, pid);
    hide Reachable;
  }

  /** A creating talk waits for the lock of an agent that was there when it looked or
      that it has created. */
  lemma CreatingTalksHaveAnAgent(s: State, pid: nat)
    requires Reachable(s) && pid in s.processes && s.processes[pid].command.Talk? && s.processes[pid].command.creates
    requires s.processes[pid].pc == OnAgent(AgentOpen) || s.processes[pid].pc == OnAgent(AgentWait)
    ensures var p := s.processes[pid];
            p.target in p.view || exists i | 0 <= i < |s.log| :: Creation(s.log[i], p.target, p.command.config)
  {
    Standing(s, pid);
    hide Reachable;
    var p := s.processes[pid];
    if p.wrote.Some? && p.wrote.value < |s.log| { var op := s.log[p.wrote.value]; }
  }

  /** Whoever deletes an agent, or finds it gone, leaves no lock file of it behind
      that is still its own. */
  lemma NoLockFileIsLeftBehind(s: State, pid: nat)
    requires Reachable(s) && pid in s.processes && Leaving(s.processes[pid])
    ensures !Live(s.kernel, Key(pid, AgentSlot))
  {
    ReachableIsInvariant(s);
  }

  /** A teardown that is done removing files has left none but the team's lock, and
      an empty registry. */
  lemma TeardownsLeaveNothing(s: State, pid: nat, c: Choice)
    requires Reachable(s) && Possible(s, Step(pid, c)) && s.processes[pid].pc.Sweep?
    requires !After(s, Step(pid, c)).processes[pid].pc.Sweep?
    ensures var t := After(s, Step(pid, c)); t.kernel.dir.Keys <= {TeamLock} && t.file == map[]
  {
    StepParts(s, pid, c);
    hide Reachable, After;
  }

  /** As long as any command is unfinished, some command can take a step. */
  lemma NoDeadlock(s: State, pid: nat)
    requires Reachable(s) && Unfinished(s, pid)
    ensures exists runner, c :: Possible(s, Step(runner, c))
  {
    ReachableIsInvariant(s);
    var runner, c := SomebodyRuns(s, pid);
  }

  /** Giving up on an agent lock takes a hundred unlinks of its path since it was
      first opened, and it is given up then and not before. */
  lemma GivingUpTakesUnlinks(s: State, pid: nat)
    requires Reachable(s)
    requires pid in s.processes && (s.processes[pid].command.Talk? || s.processes[pid].command.Chat?)
    ensures var p := s.processes[pid];
            var unlinked := Unlinks(s.kernel, AgentLock(p.target)) - p.firstSeen;
            && (p.attempts > 0 ==> p.attempts <= unlinked) && (p.gaveUp ==> 100 <= unlinked)
            && p.attempts <= 100 && (p.gaveUp <==> p.attempts == 100)
  {
    ReachableIsInvariant(s);
    assert Excused(s.kernel, pid, s.processes[pid]);
  }

  /** While a teardown removes the team's files no other command of the team is
      past the team lock or has a state or an agent lock file open. */
  lemma TeardownIsIsolated(s: State, pid: nat, other: nat)
    requires Reachable(s)
    requires pid in s.processes && s.processes[pid].pc.Sweep?
    requires other in s.processes && other != pid
    ensures !Inside(s.processes[other])
    ensures Key(other, StateSlot) !in s.kernel.fds && Key(other, AgentSlot) !in s.kernel.fds
  {
    ReachableIsInvariant(s);
    TeardownIsAlone(s, pid, other);
  }

  /** The state lock never needs to revalidate: across teardowns and re-creations
      of its file, one process at a time is in a critical section. */
  lemma OneWriterEver(s: State, pid: nat, other: nat)
    requires Reachable(s)
    requires pid in s.processes && Writing(s.processes[pid])
    requires other in s.processes && Writing(s.processes[other])
    ensures pid == other
  {
    ReachableIsInvariant(s);
    OneWriter(s, pid, other);
  }
}
