/** Every command of the orchestrator as a process that issues one system call,
    reads one file or makes one decision at a time. Any number of processes
    interleave; any of them may die between two steps. */
module Commands {
  import opened Common
  import opened Registry
  import opened Flock

  // A talk may create its agent first, and then, if any of its configuration was
  // given explicitly, an agent that is there already has to agree with it.
  datatype Command =
    | Create(name: Name, config: Config)
    | Fork(source: Name, name: Name)
    | Talk(name: Name, config: Config, explicit: bool, creates: bool)
    | Chat(name: Name)
    | List
    | Delete(name: Name)
    | Teardown

  // The critical sections under the state lock.
  datatype Section = Spawn | ForkEntry | Ensure | Lookup | Commit | Remove

  datatype TeamStep = TeamOpen | TeamWait | TeamUnlock | TeamClose

  datatype SectionStep =
    | StateOpen | StateWait | Load | Decide | Replace | StateUnlock(ok: bool) | StateClose(ok: bool)

  datatype AgentStep =
    | Probe | AgentOpen | AgentWait | Revalidate | StaleUnlock | StaleClose
    | Turn | ChatRead | Chatting
    | LiveCheck | Reclaim | AgentUnlock | AgentClose

  datatype Pc =
    | Construct
    | OnTeam(teamStep: TeamStep)
    | In(section: Section, step: SectionStep)
    | OnAgent(agentStep: AgentStep)
    | Sweep
    | Done

  /** `view` is the registry as last read, and `readAt` how long the log was
      then; `session` and `pending` are the agent a turn or a chat runs on.
      `attempts` and `firstSeen` belong to the revalidation loop. `failed` says that
      the command is to end with an error, and `wrote` where in the log its last
      commit is. `busy` says of each agent lock it has asked for whether somebody
      else had it. */
  datatype Process = Process(
    command: Command, pc: Pc, target: Name,
    view: Agents, readAt: nat, todo: set<Name>,
    session: Option<SessionId>, pending: Option<SessionId>, op: Op,
    attempts: nat, firstSeen: nat, gaveUp: bool,
    failed: bool, wrote: Option<nat>, busy: map<Name, bool>)

  /** The backends that can fork a session, and those that can chat. */
  datatype Abilities = Abilities(forkable: set<string>, chattable: set<string>)

  /** `owner` remembers every session id that exists and whose turn reported it.
      `start` and `log` are the registry before the run and its commits since. */
  datatype State = State(
    teamed: bool, abilities: Abilities, kernel: Kernel, processes: map<nat, Process>,
    file: Agents, tmp: Option<Agents>,
    start: Agents, log: seq<Op>, owner: map<SessionId, Name>)

  // What a step leaves open: failures, retries and ends of loops (`yes`), a new inode,
  // the clock, the backend's reported session, and what comes next in a loop.
  datatype Choice = Choice(
    yes: bool, inode: nat, now: Instant, reported: Option<SessionId>, name: Name, path: Option<Path>)

  /** All that one step of a process can see of the world. */
  datatype Sight = Sight(
    teamed: bool, abilities: Abilities, granted: bool, live: bool, lockFile: bool, unlinks: nat,
    file: Agents, commits: nat)

  datatype Event = Begin(pid: nat, command: Command) | Step(pid: nat, choice: Choice) | Die(pid: nat)

  const MAX_REVALIDATE_ATTEMPTS := 100

  function Entry(teamed: bool): Pc { if teamed then OnTeam(TeamOpen) else Construct }
  function Exit(teamed: bool): Pc { if teamed then OnTeam(TeamUnlock) else Done }

  function Started(teamed: bool, command: Command): Process {
    var name := if command.List? || command.Teardown? then "" else command.name;
    Process(command, Entry(teamed), name, map[], 0, {}, None, None, TornDown, 0, 0, false, false, None, map[])
  }

  function TeamMode(command: Command): Mode { if command.Teardown? then Exclusive else Shared }
  function AgentMode(command: Command): Mode { if command.List? then Shared else Exclusive }
  function OwnPath(p: Process): Path { AgentLock(p.target) }

  function See(s: State, pid: nat, p: Process, c: Choice): Sight {
    Sight(
      s.teamed,
      s.abilities,
      match p.pc
      case OnTeam(_) => Grantable(s.kernel, Key(pid, TeamSlot), TeamMode(p.command))
      case In(_, _) => Grantable(s.kernel, Key(pid, StateSlot), Exclusive)
      case _ => Grantable(s.kernel, Key(pid, AgentSlot), AgentMode(p.command)),
      Live(s.kernel, Key(pid, AgentSlot)),
      AgentLock(c.name) in s.kernel.dir,
      Unlinks(s.kernel, OwnPath(p)),
      s.file,
      |s.log|)
  }

  /** The system call a process issues at its current step. A lock that is not
      granted either blocks (see Enabled) or is given up. */
  function Issue(p: Process, c: Choice, v: Sight): Syscall {
    match p.pc
    case OnTeam(step) => IssueOnTeam(p, step, c, v)
    case In(_, step) => IssueInSection(step, c)
    case OnAgent(step) => IssueOnAgent(p, step, c, v)
    case Sweep => if c.path.Some? then Unlink(c.path.value) else Nop
    case _ => Nop
  }

  function IssueOnTeam(p: Process, step: TeamStep, c: Choice, v: Sight): Syscall {
    match step
    case TeamOpen => Open(TeamSlot, TeamLock, c.inode)
    case TeamWait => if v.granted then Lock(TeamSlot, TeamMode(p.command)) else Nop
    case TeamUnlock => Unlock(TeamSlot)
    case TeamClose => Close(TeamSlot)
  }

  function IssueInSection(step: SectionStep, c: Choice): Syscall {
    match step
    case StateOpen => Open(StateSlot, StateLock, c.inode)
    case StateWait => Lock(StateSlot, Exclusive)
    case StateUnlock(_) => Unlock(StateSlot)
    case StateClose(_) => Close(StateSlot)
    case _ => Nop
  }

  function IssueOnAgent(p: Process, step: AgentStep, c: Choice, v: Sight): Syscall {
    match step
    case AgentOpen => Open(AgentSlot, OwnPath(p), c.inode)
    case AgentWait => if v.granted then Lock(AgentSlot, AgentMode(p.command)) else Nop
    case StaleUnlock => Unlock(AgentSlot)
    case StaleClose => Close(AgentSlot)
    case Reclaim => Unlink(OwnPath(p))
    case AgentUnlock => Unlock(AgentSlot)
    case AgentClose => Close(AgentSlot)
    case _ => Nop
  }

  function ResumeFrom(p: Process): Option<SessionId> {
    if p.pending.Some? then p.pending else p.session
  }

  /** A backend names no session, one nobody has seen, or the one it was handed. */
  predicate BackendContract(s: State, p: Process, reported: Option<SessionId>) {
    reported.None? || reported.value !in s.owner || reported == ResumeFrom(p)
  }

  /** Teardown waits for nothing, and only a talk waits for an agent lock. */
  predicate Enabled(s: State, pid: nat, p: Process, c: Choice) {
    var v := See(s, pid, p, c);
    && Permitted(s.kernel, pid, Issue(p, c, v))
    && match p.pc
       case OnTeam(TeamWait) => v.granted || p.command.Teardown?
       case OnAgent(AgentWait) => v.granted || !p.command.Talk?
       case OnAgent(Probe) => p.todo == {} || c.name in p.todo
       case OnAgent(Turn) => c.yes || BackendContract(s, p, c.reported)
       case Sweep =>
         (match c.path
          case Some(path) => path in s.kernel.dir && path != TeamLock
          case None => if c.yes then s.file != map[] else s.kernel.dir.Keys <= {TeamLock} && s.file == map[])
       case Done => false
       case _ => true
  }

  datatype Verdict = Write(op: Op) | Skip(ok: bool)

  /** What a critical section does about the registry it has just read. */
  function Ruling(section: Section, p: Process, c: Choice, abilities: Abilities): Verdict {
    var known := p.target in p.view;
    match section
    case Spawn => if known then Skip(false) else WriteNew(p, c)
    case Ensure => if known then Skip(Agrees(p.command, p.view[p.target].config)) else WriteNew(p, c)
    case ForkEntry =>
      if !p.command.Fork? || p.command.source !in p.view then Skip(false)
      else if p.view[p.command.source].session.None? then Skip(false)
      else if p.view[p.command.source].config.backend !in abilities.forkable then Skip(false)
      else if known then Skip(false)
      else Write(Forked(p.command.source, p.target, c.now))
    case Lookup => Skip(known)
    case Commit => if known then Write(TurnDone(p.target, p.session, p.pending, c.now)) else Skip(false)
    case Remove => if known then Write(Removed(p.target)) else Skip(false)
  }

  /** Is the configuration a talk was given, if any was, the one the agent has? */
  predicate Agrees(command: Command, config: Config) {
    command.Talk? ==> !command.explicit || command.config == config
  }

  function WriteNew(p: Process, c: Choice): Verdict {
    match p.command
    case Create(_, config) => Write(Created(p.target, config, c.now))
    case Talk(_, config, _, _) => Write(Created(p.target, config, c.now))
    case _ => Skip(false)
  }

  function AfterConstruct(p: Process, c: Choice): Pc {
    match p.command
    case Create(_, _) => In(Spawn, StateOpen)
    case Fork(_, _) => In(ForkEntry, StateOpen)
    case Talk(_, _, _, creates) => if creates then In(Ensure, StateOpen) else OnAgent(AgentOpen)
    case Chat(_) => OnAgent(AgentOpen)
    case List => OnAgent(Probe)
    case Delete(_) => In(Remove, StateOpen)
    case Teardown => Sweep
  }

  function AfterSection(teamed: bool, section: Section, ok: bool, c: Choice): Pc {
    match section
    case Spawn => Exit(teamed)
    case ForkEntry => Exit(teamed)
    case Ensure => if ok then OnAgent(AgentOpen) else Exit(teamed)
    case Lookup => if ok then OnAgent(Turn) else OnAgent(LiveCheck)
    case Commit => if !ok then OnAgent(LiveCheck) else if c.yes then OnAgent(Turn) else OnAgent(AgentUnlock)
    case Remove => if ok then OnAgent(AgentOpen) else Exit(teamed)
  }

  function AfterAgentLock(p: Process): AgentStep {
    match p.command
    case Delete(_) => LiveCheck
    case List => AgentUnlock
    case _ => Revalidate
  }

  /** The process after its step. */
  function Advance(p: Process, c: Choice, v: Sight): Process {
    match p.pc
    case Construct => p.(view := v.file, readAt := v.commits, todo := v.file.Keys, pc := AfterConstruct(p, c))
    case OnTeam(step) => AdvanceOnTeam(p, step, v)
    case In(section, step) => AdvanceInSection(p, section, step, c, v)
    case OnAgent(step) => AdvanceOnAgent(p, step, c, v)
    case Sweep => if c.path.None? && !c.yes then p.(pc := Exit(v.teamed)) else p
    case Done => p
  }

  function AdvanceOnTeam(p: Process, step: TeamStep, v: Sight): Process {
    match step
    case TeamOpen => p.(pc := OnTeam(TeamWait))
    case TeamWait =>
      p.(failed := !v.granted,
         pc := if !v.granted then OnTeam(TeamClose) else if p.command.Teardown? then Sweep else Construct)
    case TeamUnlock => p.(pc := OnTeam(TeamClose))
    case TeamClose => p.(pc := Done)
  }

  function AdvanceInSection(p: Process, section: Section, step: SectionStep, c: Choice, v: Sight): Process {
    match step
    case StateOpen => p.(pc := In(section, StateWait))
    case StateWait => p.(pc := In(section, Load))
    case Load => p.(view := v.file, readAt := v.commits, pc := In(section, Decide))
    case Decide =>
      (match Ruling(section, p, c, v.abilities)
       case Write(op) => p.(op := op, pc := In(section, Replace))
       case Skip(ok) => Looked(section, p).(failed := p.failed || !ok, pc := In(section, StateUnlock(ok))))
    case Replace => p.(wrote := Some(v.commits), pc := In(section, StateUnlock(true)))
    case StateUnlock(ok) => p.(pc := In(section, StateClose(ok)))
    case StateClose(ok) => p.(pc := AfterSection(v.teamed, section, ok, c))
  }

  /** The call and the new process of one step, from what it sees. */
  function Call(s: State, pid: nat, c: Choice): Syscall
    requires pid in s.processes
  {
    Issue(s.processes[pid], c, See(s, pid, s.processes[pid], c))
  }

  function Moved(s: State, pid: nat, c: Choice): Process
    requires pid in s.processes
  {
    Advance(s.processes[pid], c, See(s, pid, s.processes[pid], c))
  }

  /** A talk works on the agent it found when it looked its name up. */
  function Looked(section: Section, p: Process): Process {
    if section.Lookup? && p.target in p.view
    then p.(session := p.view[p.target].session, pending := p.view[p.target].pending)
    else p
  }

  lemma LookingFindsTheAgentAlone(p: Process, section: Section)
    ensures var q := Looked(section, p);
            && q.command == p.command && q.target == p.target && q.view == p.view && q.readAt == p.readAt
            && q.attempts == p.attempts && q.firstSeen == p.firstSeen && q.gaveUp == p.gaveUp
            && q.wrote == p.wrote && q.failed == p.failed && q.busy == p.busy && q.todo == p.todo
  {
  }

  /** Up to the lock, and from there on. */
  predicate Acquiring(step: AgentStep) {
    step.Probe? || step.AgentOpen? || step.AgentWait? || step.Revalidate? || step.StaleUnlock? || step.StaleClose?
  }

  function AdvanceOnAgent(p: Process, step: AgentStep, c: Choice, v: Sight): Process {
    if Acquiring(step) then Acquire(p, step, c, v) else HoldOn(p, step, c, v)
  }

  function Acquire(p: Process, step: AgentStep, c: Choice, v: Sight): Process
    requires Acquiring(step)
  {
    match step
    case Probe =>
      if p.todo == {} then p.(pc := Exit(v.teamed))
      else if v.lockFile then p.(target := c.name, todo := p.todo - {c.name}, pc := OnAgent(AgentOpen))
      else p.(target := c.name, todo := p.todo - {c.name}, busy := p.busy[c.name := false], pc := OnAgent(Probe))
    case AgentOpen =>
      p.(firstSeen := if p.attempts == 0 then v.unlinks else p.firstSeen, pc := OnAgent(AgentWait))
    case AgentWait =>
      if v.granted then p.(busy := p.busy[p.target := false], pc := OnAgent(AfterAgentLock(p)))
      else p.(busy := p.busy[p.target := true], failed := p.failed || p.command.Chat?, pc := OnAgent(AgentClose))
    case Revalidate =>
      if v.live then p.(pc := if p.command.Talk? then In(Lookup, StateOpen) else OnAgent(ChatRead))
      else
        var spent := p.attempts + 1 >= MAX_REVALIDATE_ATTEMPTS;
        p.(attempts := p.attempts + 1, gaveUp := spent, failed := p.failed || spent,
           pc := OnAgent(if spent then AgentUnlock else StaleUnlock))
    case StaleUnlock => p.(pc := OnAgent(StaleClose))
    case StaleClose => p.(pc := OnAgent(AgentOpen))
  }

  function HoldOn(p: Process, step: AgentStep, c: Choice, v: Sight): Process
    requires !Acquiring(step)
  {
    match step
    case Turn => Turned(p, c)
    case ChatRead => Consulted(p, c, v)
    case Chatting => p.(pc := OnAgent(AgentUnlock))
    case LiveCheck => p.(pc := OnAgent(if v.live then Reclaim else AgentUnlock))
    case Reclaim => p.(pc := OnAgent(AgentUnlock))
    case AgentUnlock => p.(pc := OnAgent(AgentClose))
    case AgentClose => p.(pc := if p.command.List? then OnAgent(Probe) else Exit(v.teamed))
  }

  /** A failed turn, and a fork that came back as its source, store nothing. A
      turn that named no session keeps the one it had. */
  function Turned(p: Process, c: Choice): Process {
    if c.yes || (c.reported.Some? && c.reported == p.pending) then p.(failed := true, pc := OnAgent(AgentUnlock))
    else if c.reported.Some? then p.(session := c.reported, pending := None, pc := In(Commit, StateOpen))
    else p.(pc := In(Commit, StateOpen))
  }

  /** A chat reads the registry without the state lock. */
  function Consulted(p: Process, c: Choice, v: Sight): Process {
    var q := p.(view := v.file, readAt := v.commits);
    if p.target !in v.file then q.(failed := true, pc := OnAgent(LiveCheck))
    else
      var entry := v.file[p.target];
      if entry.session.None? || entry.pending.Some? || entry.config.backend !in v.abilities.chattable then
        q.(failed := true, pc := OnAgent(AgentUnlock))
      else q.(session := entry.session, pending := entry.pending, pc := OnAgent(Chatting))
  }

  /** The files and the sessions in existence after a step. */
  function Effects(s: State, p: Process, c: Choice): State {
    match p.pc
    case In(section, Decide) =>
      (match Ruling(section, p, c, s.abilities)
       case Write(op) => if Allowed(p.view, op) then s.(tmp := Some(Apply(p.view, op))) else s
       case Skip(_) => s)
    case In(_, Replace) =>
      if s.tmp.Some? then s.(file := s.tmp.value, tmp := None, log := s.log + [p.op]) else s
    case OnAgent(Turn) =>
      if c.yes || c.reported.None? || c.reported.value in s.owner then s
      else s.(owner := s.owner[c.reported.value := p.target])
    case Sweep =>
      if c.path.None? && c.yes then s.(file := map[], tmp := None, log := s.log + [TornDown]) else s
    case _ => s
  }

  predicate Possible(s: State, e: Event) {
    match e
    case Begin(pid, command) => pid !in s.processes && (command.Teardown? ==> s.teamed)
    case Step(pid, c) => pid in s.processes && Enabled(s, pid, s.processes[pid], c)
    case Die(pid) => pid in s.processes
  }

  function After(s: State, e: Event): State
    requires Possible(s, e)
  {
    match e
    case Begin(pid, command) => s.(processes := s.processes[pid := Started(s.teamed, command)])
    case Step(pid, c) =>
      Effects(s, s.processes[pid], c).(kernel := Execute(s.kernel, pid, Call(s, pid, c)),
                                       processes := s.processes[pid := Moved(s, pid, c)])
    case Die(pid) => s.(kernel := Reap(s.kernel, pid), processes := s.processes - {pid})
  }

  lemma StepParts(s: State, pid: nat, c: Choice)
    requires Possible(s, Step(pid, c))
    ensures var t := After(s, Step(pid, c));
            && t.teamed == s.teamed && t.abilities == s.abilities && t.start == s.start
            && (var e := Effects(s, s.processes[pid], c);
                t.file == e.file && t.tmp == e.tmp && t.log == e.log && t.owner == e.owner)
            && Permitted(s.kernel, pid, Call(s, pid, c))
            && t.kernel == Execute(s.kernel, pid, Call(s, pid, c))
            && t.processes == s.processes[pid := Moved(s, pid, c)]
  {
    EffectsKeepStart(s, s.processes[pid], c);
    hide Effects, Execute, Issue, Advance, See;
  }

  lemma EffectsKeepStart(s: State, p: Process, c: Choice)
    ensures Effects(s, p, c).start == s.start && Effects(s, p, c).teamed == s.teamed
    ensures Effects(s, p, c).abilities == s.abilities
  {
    hide Ruling, Apply;
  }

  /** Sessions recorded in a registry belong to the names that hold them; an
      entry still to be forked has none of its own. */
  ghost predicate Owned(agents: Agents, owner: map<SessionId, Name>) {
    forall name | name in agents ::
      && (agents[name].session.Some? ==>
            agents[name].session.value in owner && owner[agents[name].session.value] == name)
      && (agents[name].pending.Some? ==>
            agents[name].pending.value in owner && agents[name].session.None?)
  }

  /** No command is running. Lock files, a stale temporary file and an older
      registry may be lying about. */
  ghost predicate Initial(s: State) {
    && s.processes == map[]
    && s.kernel.fds == map[]
    && DistinctNames(s.kernel)
    && s.start == s.file
    && s.log == []
    && Owned(s.file, s.owner)
  }

  ghost predicate Feasible(s: State, events: seq<Event>)
    decreases |events|, 0
  {
    events == [] ||
    (Feasible(s, events[..|events| - 1])
     && Possible(Final(s, events[..|events| - 1]), events[|events| - 1]))
  }

  ghost function Final(s: State, events: seq<Event>): State
    requires Feasible(s, events)
    decreases |events|, 1
  {
    if events == [] then s
    else After(Final(s, events[..|events| - 1]), events[|events| - 1])
  }
}
