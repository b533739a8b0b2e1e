/** The orchestrator's own objects: live agents, the registry that holds them and
    the file they are read from and written to. Each method is one critical
    section, run to its end; what interleaving does to them is the business of
    the process model. */
module Orchestrators {
  import opened Common
  import opened Registry
  import opened Entries

  const DEFAULT_BACKEND := "claude"

  datatype Error =
    | BadRegistry
    | UnknownBackend(backend: string)
    | AgentExists(name: Name)
    | AgentNotFound(name: Name)
    | NoSession(name: Name)
    | CannotFork(name: Name)
    | ForkDidNotHappen(name: Name)
    | TurnFailed

  /** What a backend made of one turn. */
  datatype Outcome = Failed | Replied(session: Option<SessionId>, reply: string)

  class StateFile {
    var entries: map<Name, Entry>

    constructor (entries: map<Name, Entry>)
      ensures this.entries == entries
    {
      this.entries := entries;
    }
  }

  class Agent {
    const name: Name
    const config: Config
    var session: Option<SessionId>
    var pending: Option<SessionId>
    var created: Option<Instant>
    var lastTurn: Option<Instant>
    var turns: Option<nat>

    constructor (name: Name, record: Record)
      ensures this.name == name && ToRecord() == record
    {
      this.name := name;
      config := record.config;
      session, pending := record.session, record.pending;
      created, lastTurn, turns := record.created, record.lastTurn, record.turns;
    }

    function ToRecord(): Record
      reads this
    {
      Record(config, session, pending, created, lastTurn, turns)
    }

    /** Store what a turn left of the agent, and count the turn. */
    method Settle(session: Option<SessionId>, pending: Option<SessionId>, now: Instant)
      modifies this
      ensures ToRecord() == old(ToRecord()).(session := session, pending := pending, lastTurn := Some(now),
                                             turns := Some(old(turns).GetOr(0) + 1))
    {
      this.session, this.pending := session, pending;
      lastTurn := Some(now);
      turns := Some(turns.GetOr(0) + 1);
    }

    /** The session the next turn is handed: the source's while a fork is due. */
    function ResumesFrom(): Option<SessionId>
      reads this
    {
      if pending.Some? then pending else session
    }

    /** Take in what a turn reported. A fork that reports its source's own id is
        refused with nothing stored; no id at all keeps the one there was. */
    method Talk(outcome: Outcome) returns (error: Option<Error>)
      modifies this
      ensures error == if outcome.Failed? then Some(TurnFailed)
                       else if outcome.session.Some? && outcome.session == old(pending) then Some(ForkDidNotHappen(name))
                       else None
      ensures error.Some? || outcome.session.None? ==> ToRecord() == old(ToRecord())
      ensures error.None? && outcome.session.Some? ==>
                ToRecord() == old(ToRecord()).(session := outcome.session, pending := None)
      ensures error.None? ==> session.Some? || old(session).None?
    {
      if outcome.Failed? { return Some(TurnFailed); }
      if outcome.session.Some? {
        if outcome.session == pending { return Some(ForkDidNotHappen(name)); }
        session := outcome.session;
        pending := None;
      }
      error := None;
    }
  }

  lemma ForkingIs(agents: Agents, source: Name, dest: Name, now: Instant)
    ensures Allowed(agents, Forked(source, dest, now)) <==>
              source in agents && agents[source].session.Some? && dest !in agents
    ensures Allowed(agents, Forked(source, dest, now)) ==>
              Apply(agents, Forked(source, dest, now))
              == agents[dest := Record(agents[source].config, None, agents[source].session, Some(now), None, Some(0))]
  {
  }

  class Orchestrator {
    const file: StateFile
    const known: set<string>      // the registered backends
    const forkable: set<string>   // those of them that can fork a session
    var agents: map<Name, Agent>

    ghost predicate Valid()
      reads this, agents.Values
    {
      && (forall name | name in agents :: agents[name].name == name)
      && (forall name | name in agents :: agents[name].config.backend in known)
    }

    ghost function View(): Agents
      reads this, agents.Values
    {
      map name | name in agents :: agents[name].ToRecord()
    }

    constructor (file: StateFile, known: set<string>, forkable: set<string>)
      ensures Valid() && this.file == file && this.known == known && this.forkable == forkable && agents == map[]
    {
      this.file, this.known, this.forkable, this.agents := file, known, forkable, map[];
    }

    /** Replace every live agent by a new one read from the file. Nothing held
        from before is connected to the registry any longer. */
    method Reload() returns (error: Option<Error>)
      modifies this`agents
      ensures error.None? <==> Readable(file.entries, known)
      ensures error.None? ==> Valid() && View() == Decode(file.entries)
      ensures error.None? ==> forall name | name in agents :: fresh(agents[name])
      ensures error.None? ==> agents.Keys == file.entries.Keys
      ensures error.Some? ==> agents == old(agents) && (error.value.BadRegistry? || error.value.UnknownBackend?)
    {
      hide FromEntry, ToEntry, Agent.ToRecord;
      var loaded := LoadAll(file.entries);
      if loaded.Err? { return Some(loaded.error); }
      agents := loaded.value;
      error := None;
      assert forall name | name in agents :: Loads(name, file.entries[name], agents[name]);
    }

    method LoadAll(entries: map<Name, Entry>) returns (result: Result<map<Name, Agent>, Error>)
      ensures result.Ok? <==> Readable(entries, known)
      ensures result.Ok? ==> result.value.Keys == entries.Keys
      ensures result.Ok? ==> forall name | name in result.value ::
                fresh(result.value[name]) && Loads(name, entries[name], result.value[name])
      ensures result.Err? ==> result.error.BadRegistry? || result.error.UnknownBackend?
    {
      var loaded: map<Name, Agent> := map[];
      var todo := entries.Keys;
      while todo != {}
        invariant todo <= entries.Keys && loaded.Keys == entries.Keys - todo
        invariant forall name | name in loaded :: fresh(loaded[name]) && Loads(name, entries[name], loaded[name])
        invariant forall name | name in loaded :: Usable(entries[name], known)
        decreases todo
      {
        var name :| name in todo;
        var agent := IntoAgent(name, entries[name]);
        if agent.Err? { return Err(agent.error); }
        loaded := loaded[name := agent.value];
        todo := todo - {name};
      }
      result := Ok(loaded);
    }

    /** Build the live agent an entry describes. */
    method IntoAgent(name: Name, entry: Entry) returns (result: Result<Agent, Error>)
      ensures result.Ok? <==> Usable(entry, known)
      ensures result.Err? ==> result.error.BadRegistry? || result.error.UnknownBackend?
      ensures result.Ok? ==> fresh(result.value) && Loads(name, entry, result.value)
    {
      var record := FromEntry(entry);
      if record.None? { return Err(BadRegistry); }
      var backend := record.value.config.backend;
      if backend !in known { return Err(UnknownBackend(backend)); }
      var agent := new Agent(name, record.value);
      result := Ok(agent);
    }

    /** Is the agent the one the entry describes, on a backend that exists? */
    ghost predicate Loads(name: Name, entry: Entry, agent: Agent)
      reads agent
    {
      && FromEntry(entry) == Some(agent.ToRecord())
      && agent.name == name && agent.config.backend in known
    }

    method Persist()
      requires Valid()
      modifies file
      ensures file.entries == Encode(View())
    {
      file.entries := map name | name in agents :: ToEntry(agents[name].ToRecord());
    }

    method Create(name: Name, backend: Option<string>, model: Option<string>, effort: Option<string>,
                  pending: Option<SessionId>, now: Instant)
      returns (result: Result<Agent, Error>)
      requires Valid()
      modifies this`agents, file
      ensures Valid()
      ensures result.Ok? <==> backend.GetOr(DEFAULT_BACKEND) in known
      ensures result.Ok? ==>
                && fresh(result.value) && result.value.name == name
                && result.value.ToRecord()
                   == Record(Config(backend.GetOr(DEFAULT_BACKEND), model, effort), None, pending, Some(now), None, Some(0))
                && name in agents && agents[name] == result.value
                && View() == old(View())[name := result.value.ToRecord()]
                && file.entries == Encode(View())
      ensures result.Err? ==> agents == old(agents) && file.entries == old(file.entries)
    {
      hide ToEntry, FromEntry, Encode, View;
      var chosen := backend.GetOr(DEFAULT_BACKEND);
      if chosen !in known { return Err(UnknownBackend(chosen)); }
      var agent := new Agent(name, NewRecord(Config(chosen, model, effort), pending, now));
      Register(agent);
      result := Ok(agent);
    }

    method Register(agent: Agent)
      requires Valid() && agent.config.backend in known
      modifies this`agents, file
      ensures Valid() && agents == old(agents)[agent.name := agent]
      ensures View() == old(View())[agent.name := agent.ToRecord()] && file.entries == Encode(View())
    {
      hide ToEntry, FromEntry, Encode;
      agents := agents[agent.name := agent];
      assert View() == old(View())[agent.name := agent.ToRecord()];
      Persist();
    }

    /** Exactly the operation this section commits, or no change to the file. */
    twostate predicate Committed(op: Op, done: bool)
      reads this, agents.Values, file
    {
      if done then
        && old(Readable(file.entries, known)) && Allowed(Decode(old(file.entries)), op)
        && View() == Apply(Decode(old(file.entries)), op)
        && file.entries == Encode(View())
      else file.entries == old(file.entries)
    }

    method Spawn(name: Name, backend: Option<string>, model: Option<string>, effort: Option<string>, now: Instant)
      returns (result: Result<Agent, Error>)
      requires Valid()
      modifies this`agents, file
      ensures Valid()
      ensures Committed(Created(name, Config(backend.GetOr(DEFAULT_BACKEND), model, effort), now), result.Ok?)
      ensures result.Ok? <==>
                && Readable(old(file.entries), known) && name !in old(file.entries)
                && backend.GetOr(DEFAULT_BACKEND) in known
      ensures Readable(old(file.entries), known) && name in old(file.entries) ==> result == Err(AgentExists(name))
      ensures result.Ok? ==>
                && result.value.name == name
                && result.value.ToRecord() == Record(Config(backend.GetOr("claude"), model, effort), None, None, Some(now), None, Some(0))
                && View() == Decode(old(file.entries))[name := result.value.ToRecord()]
    {
      var error := Reload();
      if error.Some? { return Err(error.value); }
      if name in agents { return Err(AgentExists(name)); }
      result := Create(name, backend, model, effort, None, now);
    }

    method Ensure(name: Name, backend: Option<string>, model: Option<string>, effort: Option<string>, now: Instant)
      returns (result: Result<(Agent, bool), Error>)
      requires Valid()
      modifies this`agents, file
      ensures Valid()
      ensures Committed(Created(name, Config(backend.GetOr(DEFAULT_BACKEND), model, effort), now), result.Ok? && result.value.1)
      ensures result.Ok? ==>
                && result.value.0.name == name && (result.value.1 <==> name !in old(file.entries))
                && (!result.value.1 ==> Some(result.value.0.ToRecord()) == FromEntry(old(file.entries)[name]))
                && (result.value.1 ==>
                      && result.value.0.ToRecord()
                         == Record(Config(backend.GetOr("claude"), model, effort), None, None, Some(now), None, Some(0))
                      && View() == Decode(old(file.entries))[name := result.value.0.ToRecord()])
      ensures result.Err? <==>
                !Readable(old(file.entries), known)
                || (name !in old(file.entries) && backend.GetOr(DEFAULT_BACKEND) !in known)
    {
      var error := Reload();
      if error.Some? { return Err(error.value); }
      if name in agents {
        assert View()[name] == Decode(file.entries)[name];
        return Ok((agents[name], false));
      }
      var created := Create(name, backend, model, effort, None, now);
      match created
      case Ok(agent) => result := Ok((agent, true));
      case Err(e) => result := Err(e);
    }

    /** Register a copy that is still to be forked. Every reason to refuse comes
        before anything is created. */
    method Fork(source: Name, dest: Name, now: Instant) returns (result: Result<Agent, Error>)
      requires Valid()
      modifies this`agents, file
      ensures Valid()
      ensures Committed(Forked(source, dest, now), result.Ok?)
      ensures result.Ok? <==>
                && Readable(old(file.entries), known)
                && Allowed(Decode(old(file.entries)), Forked(source, dest, now))
                && Decode(old(file.entries))[source].config.backend in forkable
      ensures result.Ok? ==>
                var origin := Decode(old(file.entries))[source];
                && result.value.name == dest && origin.session.Some? && result.value.ResumesFrom() == origin.session
                && result.value.ToRecord() == Record(origin.config, None, origin.session, Some(now), None, Some(0))
                && View() == Decode(old(file.entries))[dest := result.value.ToRecord()]
      ensures result.Err? && Readable(old(file.entries), known) ==>
                result.error ==
                  if source !in old(file.entries) then AgentNotFound(source)
                  else if Decode(old(file.entries))[source].session.None? then NoSession(source)
                  else if Decode(old(file.entries))[source].config.backend !in forkable then CannotFork(source)
                  else AgentExists(dest)
    {
      hide FromEntry, ToEntry, Readable, Encode, Apply, Allowed;
      var error := Reload();
      if error.Some? { return Err(error.value); }
      ghost var before := View();
      ForkingIs(before, source, dest, now);
      if source !in agents { return Err(AgentNotFound(source)); }
      var origin := agents[source];
      assert before[source] == origin.ToRecord();
      if origin.session.None? { return Err(NoSession(source)); }
      if origin.config.backend !in forkable { return Err(CannotFork(source)); }
      if dest in agents { return Err(AgentExists(dest)); }
      result := Create(dest, Some(origin.config.backend), origin.config.model, origin.config.effort, origin.session, now);
    }

    /** The registry half of delete; the lock file is reclaimed afterwards. */
    method Delete(name: Name) returns (result: Result<Agent, Error>)
      requires Valid()
      modifies this`agents, file
      ensures Valid()
      ensures Committed(Removed(name), result.Ok?)
      ensures Readable(old(file.entries), known) && name !in old(file.entries) ==> result == Err(AgentNotFound(name))
      ensures result.Ok? ==> Some(result.value.ToRecord()) == FromEntry(old(file.entries)[name])
      ensures result.Ok? <==> Readable(old(file.entries), known) && name in old(file.entries)
    {
      hide FromEntry, ToEntry, Encode;
      var error := Reload();
      if error.Some? { return Err(error.value); }
      if name !in agents { return Err(AgentNotFound(name)); }
      var agent := Pop(name);
      result := Ok(agent);
    }

    method Pop(name: Name) returns (agent: Agent)
      requires Valid() && name in agents
      modifies this`agents, file
      ensures Valid() && agent == old(agents[name])
      ensures View() == old(View()) - {name} && file.entries == Encode(View())
    {
      agent := agents[name];
      ghost var before := View();
      agents := agents - {name};
      assert View() == before - {name};
      Persist();
    }

    /** The commit of a turn: the agent talked to is no part of the registry any
        more, and its session goes to the entry that has its name by now. */
    method Commit(agent: Agent, now: Instant) returns (error: Option<Error>)
      requires Valid()
      modifies this`agents, file
      ensures error.None? <==> Readable(old(file.entries), known) && agent.name in old(file.entries)
      ensures error.None? ==> Valid()
      ensures error.Some? ==> !error.value.TurnFailed? && !error.value.ForkDidNotHappen?
      ensures Committed(TurnDone(agent.name, agent.session, agent.pending, now), error.None?)
    {
      error := Reload();
      if error.Some? { return; }
      if agent.name !in agents { return Some(AgentNotFound(agent.name)); }
      Store(agent, now);
    }

    method Store(agent: Agent, now: Instant)
      requires Valid() && agent.name in agents && agent !in agents.Values
      modifies agents[agent.name], file
      ensures Valid() && file.entries == Encode(View())
      ensures View() == Apply(old(View()), TurnDone(agent.name, agent.session, agent.pending, now))
    {
      ghost var before := View();
      var entry := agents[agent.name];
      entry.Settle(agent.session, agent.pending, now);
      assert View() == before[agent.name := entry.ToRecord()];
      Persist();
    }

    /** One turn. `meanwhile` is what other processes have made of the file by the
        time the turn is over. */
    method Turn(agent: Agent, outcome: Outcome, meanwhile: map<Name, Entry>, now: Instant) returns (error: Option<Error>)
      requires Valid()
      modifies this`agents, file, agent
      ensures error.None? <==>
                && outcome.Replied? && (outcome.session.None? || outcome.session != old(agent.pending))
                && Readable(meanwhile, known) && agent.name in meanwhile
      ensures error.None? ==>
                && Valid()
                && View() == Apply(Decode(meanwhile), TurnDone(agent.name, agent.session, agent.pending, now))
                && file.entries == Encode(View())
                && agent.session == (if outcome.session.Some? then outcome.session else old(agent.session))
                && agent.pending == (if outcome.session.Some? then None else old(agent.pending))
      ensures error.Some? ==> file.entries == if error.value.TurnFailed? || error.value.ForkDidNotHappen?
                                              then old(file.entries) else meanwhile
    {
      error := agent.Talk(outcome);
      if error.Some? { return; }
      file.entries := meanwhile;
      label finished:
      error := Commit(agent, now);
    }
  }
}
