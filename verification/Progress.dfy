/** No deadlock: blocking waits go team, agent, state, in that order, and the
    rest of the lock requests give up instead of waiting. */
module Progress {
  import opened Common
  import opened Registry
  import opened Flock
  import opened Commands
  import opened Wiring
  import opened Exclusion
  import opened Commits

  /** Is the process waiting for a lock that somebody else holds? */
  predicate Blocked(s: State, pid: nat)
    requires pid in s.processes
  {
    var p := s.processes[pid];
    match p.pc
    case OnTeam(TeamWait) => !p.command.Teardown? && !Grantable(s.kernel, Key(pid, TeamSlot), TeamMode(p.command))
    case In(_, StateWait) => !Grantable(s.kernel, Key(pid, StateSlot), Exclusive)
    case OnAgent(AgentWait) => p.command.Talk? && !Grantable(s.kernel, Key(pid, AgentSlot), AgentMode(p.command))
    case _ => false
  }

  predicate Unfinished(s: State, pid: nat) { pid in s.processes && !s.processes[pid].pc.Done? }

  // The call a process is about to make is one the kernel allows, unless it
  // would wait.

  lemma AgentCallsPermitted(s: State, pid: nat, c: Choice)
    requires Wired(s) && pid in s.processes && s.processes[pid].pc.OnAgent? && Free(s.kernel, c.inode)
    ensures Permitted(s.kernel, pid, Call(s, pid, c))
  {
    var p := s.processes[pid];
    assert Meets(s.kernel, Key(pid, AgentSlot), OwnPath(p), AgentWant(p)) by {
      assert ProcessWired(s.teamed, s.kernel, pid, p);
    }
    var call := IssueOnAgent(p, p.pc.agentStep, c, See(s, pid, p, c));
    assert Permitted(s.kernel, pid, call);
  }

  lemma SectionCallsPermitted(s: State, pid: nat, c: Choice)
    requires Wired(s) && pid in s.processes && s.processes[pid].pc.In? && Free(s.kernel, c.inode)
    requires !Blocked(s, pid)
    ensures Permitted(s.kernel, pid, Call(s, pid, c))
  {
    var p := s.processes[pid];
    assert Meets(s.kernel, Key(pid, StateSlot), StateLock, StateWant(p)) by {
      hide Sound, Fits;
      assert ProcessWired(s.teamed, s.kernel, pid, p);
    }
    hide Wired, Free, Grantable;
    assert Permitted(s.kernel, pid, IssueInSection(p.pc.step, c));
  }

  lemma TeamSlotMeets(s: State, pid: nat)
    requires Wired(s) && pid in s.processes
    ensures Meets(s.kernel, Key(pid, TeamSlot), TeamLock, TeamWant(s.teamed, s.processes[pid]))
    ensures s.processes[pid].pc.OnTeam? ==> s.teamed
  {
    hide Sound;
    assert ProcessWired(s.teamed, s.kernel, pid, s.processes[pid]);
  }

  lemma TeamCallsPermitted(s: State, pid: nat, c: Choice)
    requires Wired(s) && pid in s.processes && s.processes[pid].pc.OnTeam? && Free(s.kernel, c.inode)
    requires !Blocked(s, pid)
    ensures Permitted(s.kernel, pid, Call(s, pid, c))
  {
    hide Wired, Grantable;
    var p := s.processes[pid];
    TeamSlotMeets(s, pid);
    assert Permitted(s.kernel, pid, IssueOnTeam(p, p.pc.teamStep, c, See(s, pid, p, c)));
  }

  lemma OtherCallsPermitted(s: State, pid: nat, c: Choice)
    requires Wired(s) && pid in s.processes && !s.processes[pid].pc.OnAgent? && Free(s.kernel, c.inode)
    requires !Blocked(s, pid)
    ensures Permitted(s.kernel, pid, Call(s, pid, c))
  {
    hide Wired, Free, Blocked, Grantable;
    if s.processes[pid].pc.In? {
      SectionCallsPermitted(s, pid, c);
    } else if s.processes[pid].pc.OnTeam? {
      TeamCallsPermitted(s, pid, c);
    }
  }

  /** A process that does not wait can take a step, whatever it is doing. */
  lemma UnblockedRuns(s: State, pid: nat) returns (c: Choice)
    requires Wired(s) && Unfinished(s, pid) && !Blocked(s, pid)
    ensures Possible(s, Step(pid, c))
  {
    var p := s.processes[pid];
    var inode := FreeInodeExists(s.kernel);
    c := Choice(s.file != map[], inode, "", None, "", None);
    if p.pc == OnAgent(Probe) && p.todo != {} {
      var name :| name in p.todo;
      c := c.(name := name);
    } else if p.pc.Sweep? && !(s.kernel.dir.Keys <= {TeamLock}) {
      var path :| path in s.kernel.dir && path != TeamLock;
      c := c.(path := Some(path));
    }
    if p.pc.OnAgent? { AgentCallsPermitted(s, pid, c); } else { OtherCallsPermitted(s, pid, c); }
  }

  /** Whoever stands in the way of a lock request holds the same kind of lock on
      the same inode. */
  lemma HolderOf(s: State, pid: nat, slot: Slot, mode: Mode) returns (other: nat)
    requires Wired(s) && pid in s.processes && Key(pid, slot) in s.kernel.fds
    requires !Grantable(s.kernel, Key(pid, slot), mode)
    ensures other in s.processes && other != pid
    ensures Key(other, slot) in s.kernel.fds && Conflicts(s.kernel, Key(pid, slot), Key(other, slot), mode)
  {
    var key :| key in s.kernel.fds && Conflicts(s.kernel, Key(pid, slot), key, mode);
    other := key.pid;
    assert key == Key(other, key.slot);
    assert ProcessWired(s.teamed, s.kernel, pid, s.processes[pid]);
    assert ProcessWired(s.teamed, s.kernel, other, s.processes[other]);
    assert (slot.TeamSlot? || slot.AgentSlot? || slot.StateSlot?) && (key.slot.TeamSlot? || key.slot.AgentSlot? || key.slot.StateSlot?);
    assert s.kernel.fds[key].path == s.kernel.fds[Key(pid, slot)].path;
  }

  lemma StateWaitersHaveARunner(s: State, pid: nat) returns (runner: nat)
    requires Wired(s) && Unfinished(s, pid) && Blocked(s, pid) && s.processes[pid].pc.In?
    ensures Unfinished(s, runner) && !Blocked(s, runner)
  {
    assert ProcessWired(s.teamed, s.kernel, pid, s.processes[pid]);
    runner := HolderOf(s, pid, StateSlot, Exclusive);
    assert ProcessWired(s.teamed, s.kernel, runner, s.processes[runner]);
    assert StateWant(s.processes[runner]).Has?;
  }

  lemma AgentWaitersHaveARunner(s: State, pid: nat) returns (runner: nat)
    requires Wired(s) && Unfinished(s, pid) && Blocked(s, pid) && s.processes[pid].pc.OnAgent?
    ensures Unfinished(s, runner) && !Blocked(s, runner)
  {
    assert ProcessWired(s.teamed, s.kernel, pid, s.processes[pid]);
    runner := HolderOf(s, pid, AgentSlot, AgentMode(s.processes[pid].command));
    assert ProcessWired(s.teamed, s.kernel, runner, s.processes[runner]);
    assert AgentWant(s.processes[runner]).Has?;
    if Blocked(s, runner) { runner := StateWaitersHaveARunner(s, runner); }
  }

  lemma TeamHolder(s: State, pid: nat)
    requires Wired(s) && pid in s.processes && Key(pid, TeamSlot) in s.kernel.fds
    ensures s.kernel.fds[Key(pid, TeamSlot)].held.Some? ==>
              s.kernel.fds[Key(pid, TeamSlot)].held == Some(TeamMode(s.processes[pid].command))
              && !s.processes[pid].pc.Done? && s.processes[pid].pc != OnTeam(TeamWait)
  {
    hide Wired;
    TeamSlotMeets(s, pid);
  }

  lemma TeamWaiterWaits(s: State, pid: nat)
    requires Wired(s) && Unfinished(s, pid) && Blocked(s, pid) && s.processes[pid].pc.OnTeam?
    ensures Key(pid, TeamSlot) in s.kernel.fds && !Grantable(s.kernel, Key(pid, TeamSlot), Shared)
  {
    assert ProcessWired(s.teamed, s.kernel, pid, s.processes[pid]);
    hide Wired;
  }

  lemma TeardownsFit(s: State, pid: nat)
    requires Wired(s) && pid in s.processes && s.processes[pid].command.Teardown?
    ensures !s.processes[pid].pc.In? && !s.processes[pid].pc.OnAgent?
  {
    hide Sound, Meets;
    assert Fits(s.teamed, s.processes[pid]) by {
      assert ProcessWired(s.teamed, s.kernel, pid, s.processes[pid]);
    }
    hide Wired;
  }

  lemma TeamWaitersHaveARunner(s: State, pid: nat) returns (runner: nat)
    requires Wired(s) && Unfinished(s, pid) && Blocked(s, pid) && s.processes[pid].pc.OnTeam?
    ensures Unfinished(s, runner) && !Blocked(s, runner)
  {
    TeamWaiterWaits(s, pid);
    runner := HolderOf(s, pid, TeamSlot, Shared);
    TeamHolder(s, runner);
    assert s.processes[runner].command.Teardown?;
    TeardownsFit(s, runner);
    hide Wired, Grantable;
  }

  lemma SomebodyRuns(s: State, pid: nat) returns (runner: nat, c: Choice)
    requires Wired(s) && Unfinished(s, pid)
    ensures Possible(s, Step(runner, c))
  {
    runner := pid;
    if Blocked(s, pid) {
      match s.processes[pid].pc
      case In(_, _) => runner := StateWaitersHaveARunner(s, pid);
      case OnAgent(_) => runner := AgentWaitersHaveARunner(s, pid);
      case OnTeam(_) => runner := TeamWaitersHaveARunner(s, pid);
    }
    c := UnblockedRuns(s, runner);
  }
}
