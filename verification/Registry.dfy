/** What the registry file holds, and what each command does to it. */
module Registry {
  import opened Common

  type Name = string
  type SessionId = string
  type Instant = string

  datatype Config = Config(backend: string, model: Option<string>, effort: Option<string>)

  datatype Record = Record(
    config: Config,
    session: Option<SessionId>,
    pending: Option<SessionId>,
    created: Option<Instant>,
    lastTurn: Option<Instant>,
    turns: Option<nat>)

  type Agents = map<Name, Record>

  /** One committed change to the registry. */
  datatype Op =
    | Created(name: Name, config: Config, at: Instant)
    | Forked(source: Name, name: Name, at: Instant)
    | Removed(name: Name)
    | TurnDone(name: Name, session: Option<SessionId>, pending: Option<SessionId>, at: Instant)
    | TornDown

  function NewRecord(config: Config, pending: Option<SessionId>, at: Instant): Record {
    Record(config, None, pending, Some(at), None, Some(0))
  }

  predicate Allowed(agents: Agents, op: Op) {
    match op
    case Created(name, _, _) => name !in agents
    case Forked(source, name, _) =>
      source in agents && agents[source].session.Some? && name !in agents
    case Removed(name) => name in agents
    case TurnDone(name, _, _, _) => name in agents
    case TornDown => true
  }

  function Apply(agents: Agents, op: Op): Agents
    requires Allowed(agents, op)
  {
    match op
    case Created(name, config, at) => agents[name := NewRecord(config, None, at)]
    case Forked(source, name, at) =>
      agents[name := NewRecord(agents[source].config, agents[source].session, at)]
    case Removed(name) => agents - {name}
    case TurnDone(name, session, pending, at) =>
      var entry := agents[name];
      agents[name := entry.(session := session, pending := pending, lastTurn := Some(at),
                            turns := Some(entry.turns.GetOr(0) + 1))]
    case TornDown => map[]
  }

  /** Every operation of the log was allowed when its turn came. */
  ghost predicate Legal(start: Agents, log: seq<Op>)
    decreases |log|, 0
  {
    log == [] ||
    (Legal(start, log[..|log| - 1]) && Allowed(Replay(start, log[..|log| - 1]), log[|log| - 1]))
  }

  /** The operations of the log, applied one at a time. */
  ghost function Replay(start: Agents, log: seq<Op>): Agents
    requires Legal(start, log)
    decreases |log|, 1
  {
    if log == [] then start else Apply(Replay(start, log[..|log| - 1]), log[|log| - 1])
  }

  lemma {:induction false} LegalPrefix(start: Agents, log: seq<Op>, n: nat)
    requires Legal(start, log) && n <= |log|
    ensures Legal(start, log[..n])
  {
    if n < |log| {
      LegalPrefix(start, log[..|log| - 1], n);
      assert log[..|log| - 1][..n] == log[..n];
    } else {
      assert log[..n] == log;
    }
  }

  lemma ReplayExtends(start: Agents, log: seq<Op>, op: Op)
    requires Legal(start, log) && Allowed(Replay(start, log), op)
    ensures Legal(start, log + [op])
    ensures Replay(start, log + [op]) == Apply(Replay(start, log), op)
  {
    assert (log + [op])[..|log|] == log;
  }

  /** What one more operation makes of the entries: one entry is set or goes, and
      every other one stays as it was. */
  lemma LogsSetOneEntryAtATime(start: Agents, log: seq<Op>, op: Op)
    requires Legal(start, log + [op])
    ensures Legal(start, log)
    ensures var before, after := Replay(start, log), Replay(start, log + [op]);
            && (op.Created? ==>
                  op.name !in before && after == before[op.name := Record(op.config, None, None, Some(op.at), None, Some(0))])
            && (op.Forked? ==>
                  && op.source in before && before[op.source].session.Some? && op.name !in before
                  && after == before[op.name := Record(before[op.source].config, None, before[op.source].session,
                                                       Some(op.at), None, Some(0))])
            && (op.Removed? ==> op.name in before && after == before - {op.name})
            && (op.TurnDone? ==>
                  && op.name in before
                  && after == before[op.name := Record(before[op.name].config, op.session, op.pending, before[op.name].created,
                                                       Some(op.at), Some(before[op.name].turns.GetOr(0) + 1))])
            && (op.TornDown? ==> after == map[])
  {
    assert (log + [op])[..|log|] == log;
    ReplayExtends(start, log, op);
  }

  /** The turns committed on `name` since the log last created it. */
  ghost function TurnsSince(log: seq<Op>, name: Name): nat {
    if log == [] then 0
    else
      var rest, last := log[..|log| - 1], log[|log| - 1];
      if last.TornDown? || last.name != name then TurnsSince(rest, name)
      else if last.TurnDone? then TurnsSince(rest, name) + 1
      else 0
  }

  /** Did the log itself bring `name` into being? Otherwise it was there before. */
  ghost predicate Born(log: seq<Op>, name: Name) {
    log != [] &&
    (var last := log[|log| - 1];
     (!last.TornDown? && last.name == name && (last.Created? || last.Forked?)) || Born(log[..|log| - 1], name))
  }

  /** The stored counter is exact: turn commits since creation, or for an entry
      older than the log, those on top of what it said then. */
  lemma {:induction false} TurnsCountCommits(start: Agents, log: seq<Op>, name: Name)
    requires Legal(start, log) && name in Replay(start, log)
    ensures Replay(start, log)[name].turns.GetOr(0)
         == TurnsSince(log, name) + (if Born(log, name) then 0 else if name in start then start[name].turns.GetOr(0) else 0)
    ensures !Born(log, name) ==> name in start
  {
    if log != [] {
      var rest, last := log[..|log| - 1], log[|log| - 1];
      if name in Replay(start, rest) {
        TurnsCountCommits(start, rest, name);
      }
    }
  }

  /** A turn that outlives its agent, deleted and created again meanwhile, is
      committed onto the new entry: its session lands there, under the new
      configuration, as that entry's first turn. */
  lemma LateTurnsLandOnTheNewEntry(start: Agents, turn: Op, config: Config, at: Instant)
    requires turn.TurnDone? && turn.name in start
    ensures var log := [Removed(turn.name), Created(turn.name, config, at), turn];
            && Legal(start, log)
            && Replay(start, log)[turn.name]
               == Record(config, turn.session, turn.pending, Some(at), Some(turn.at), Some(1))
  {
    var name := turn.name;
    var removed, created := [Removed(name)], [Removed(name), Created(name, config, at)];
    ReplayExtends(start, [], Removed(name));
    assert [] + removed == removed;
    ReplayExtends(start, removed, Created(name, config, at));
    assert removed + [Created(name, config, at)] == created;
    ReplayExtends(start, created, turn);
    assert created + [turn] == [Removed(name), Created(name, config, at), turn];
  }
}
