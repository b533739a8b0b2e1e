/** The planning run of the workflow driver: a breadth-first walk of an issue
    tree that debates every leaf. What the issues, the agents and the orchestrator
    do is arbitrary; what the driver asks of them is not. */
module Planning {
  import opened Common

  datatype Role = Owen | Spectacle | Doku

  const ROLES := [Owen, Spectacle, Doku]

  datatype Agent = Primer | Fork(role: Role, issue: nat)

  datatype Backend = Claude | Opencode

  const PRIMER_BACKEND := Claude
  const PLAN_CAP := 12

  function BackendOf(role: Role): Backend {
    match role
    case Doku => Opencode
    case _ => Claude
  }

  datatype Label =
    | OwenHappy | OwenRejects | OwenBlocked | OwenSplit
    | SpectacleHappy | SpectacleBlocked
    | Closed | Other(name: string)

  const OWEN_VERDICTS := {OwenHappy, OwenRejects, OwenBlocked, OwenSplit}

  predicate Blocked(labels: set<Label>) { OwenBlocked in labels || SpectacleBlocked in labels }

  predicate Converged(labels: set<Label>) { OwenHappy in labels && SpectacleHappy in labels }

  datatype Verdict = ClosedAsNotPlanned | IsBlocked | IsConverged | IsUnconverged

  // Every command either works or ends the run; 1 is an uncaught failure, 5 no
  // clone, 9 a tree that cannot be planned.
  datatype Outcome = Done | Failed(code: nat)

  /** The team as the orchestrator has it. Its methods do anything at all within
      their contracts, and what they require is what the driver must never miss. */
  class Team {
    var registered: set<Agent>
    var sessions: set<Agent>      // the agents that have a session of their own
    ghost var spoken: seq<Agent>  // the turns of role agents, in order
    ghost var primings: nat       // the turns of the primer
    const answers: nat -> bool    // which commands work, in the order they are given
    var commands: nat
    ghost var failed: bool        // has a command failed that must work?

    constructor (answers: nat -> bool)
      ensures registered == sessions == {} && spoken == [] && primings == 0 && !failed && this.answers == answers
    {
      this.answers := answers;
      registered, sessions, spoken, primings, commands, failed := {}, {}, [], 0, 0, false;
    }

    /** A command that must work. */
    method Command() returns (works: bool)
      requires !failed
      modifies this`commands, this`failed
      ensures works == answers(old(commands)) && commands == old(commands) + 1 && failed == !works
    {
      works := answers(commands);
      commands, failed := commands + 1, !works;
    }

    /** Backend flags go with an agent's first turn and with no other: without
        them it would come up on the default backend, and later they are void. A
        turn that works leaves the agent with a session. */
    method Talk(agent: Agent, flags: Option<Backend>) returns (works: bool)
      requires !failed && (flags.None? <==> agent in registered)
      requires agent.Fork? && flags.Some? ==> flags == Some(BackendOf(agent.role))
      modifies this
      ensures registered == old(registered) + {agent} && failed == !works
      ensures if works then sessions == old(sessions) + {agent} else old(sessions) <= sessions <= old(sessions) + {agent}
      ensures if agent.Primer? then spoken == old(spoken) && primings == old(primings) + 1
              else spoken == old(spoken) + [agent] && primings == old(primings)
    {
      registered := registered + {agent};
      if agent.Primer? { primings := primings + 1; } else { spoken := spoken + [agent]; }
      works := Command();
      var reported := *;
      if works || reported { sessions := sessions + {agent}; }
    }

    /** Forking needs a registered source with a session, and a name that is free.
        It may fail, and the run goes on. */
    method ForkPrimer(dest: Agent) returns (works: bool)
      requires Primer in registered && Primer in sessions && dest !in registered
      modifies this`registered, this`commands
      ensures works == answers(old(commands)) && commands == old(commands) + 1
      ensures registered == if works then old(registered) + {dest} else old(registered)
    {
      works := answers(commands);
      commands := commands + 1;
      if works { registered := registered + {dest}; }
    }

    method Delete(agent: Agent) returns (works: bool)
      requires agent in registered && !failed
      modifies this`registered, this`sessions, this`commands, this`failed
      ensures failed == !works
      ensures registered == if works then old(registered) - {agent} else old(registered)
      ensures sessions == if works then old(sessions) - {agent} else old(sessions)
    {
      works := Command();
      if works { registered, sessions := registered - {agent}, sessions - {agent}; }
    }
  }

  // ---- What the labels make of an issue -----------------------------------

  /** The labels, each time they are asked for. */
  type Readings = nat -> set<Label>

  /** Who speaks in a debate, as far as it goes: spectacle and owen in turn, with
      a round of its own for a rejection. */
  function Script(issue: nat, rejected: bool): seq<Agent> {
    var spectacle, owen := Fork(Spectacle, issue), Fork(Owen, issue);
    if rejected then [spectacle, owen, spectacle, owen, spectacle] else [spectacle, owen, spectacle]
  }

  function Said(labels: set<Label>): Verdict {
    if Blocked(labels) then IsBlocked else if Converged(labels) then IsConverged else IsUnconverged
  }

  /** How a debate came out, after how many turns and readings. */
  datatype Debated = Debated(verdict: Verdict, turns: nat, looks: nat)

  /** From the critique on, reading `k` being the one after it. */
  function Argued(labels: Readings, k: nat): (d: Debated)
    ensures 1 <= d.turns <= 3 && 1 <= d.looks
  {
    if Blocked(labels(k)) then Debated(IsBlocked, 1, 1)
    else if Converged(labels(k)) then Debated(Said(labels(k + 1)), 1, 2)
    else if Blocked(labels(k + 1)) then Debated(IsBlocked, 2, 2)
    else Debated(Said(labels(k + 2)), 3, 3)
  }

  /** The whole debate, reading `k` being its first. */
  function DebateFrom(labels: Readings, k: nat, rejected: bool): (d: Debated)
    ensures d.turns <= (if rejected then 5 else 3) && 1 <= d.looks
  {
    if rejected && Closed in labels(k) then Debated(ClosedAsNotPlanned, 1, 1)
    else
      var opening, heard := if rejected then 1 else 0, if rejected then 2 else 0;
      if Blocked(labels(k + opening)) then Debated(IsBlocked, heard, opening + 1)
      else
        var rest := Argued(labels, k + opening + 1);
        Debated(rest.verdict, heard + rest.turns, opening + 1 + rest.looks)
  }

  /** The turns an issue gets, the readings it takes, and whether it was split. */
  datatype Course = Course(turns: seq<Agent>, looks: nat, splits: bool)

  predicate NeedsNothing(labels: set<Label>) { Converged(labels) || Closed in labels }

  predicate Judged(labels: set<Label>) { labels * OWEN_VERDICTS != {} }

  /** A leaf is debated, and a converged one gets doku's brief. */
  function LeafOf(labels: Readings, k: nat, issue: nat, rejected: bool): Course {
    var d := DebateFrom(labels, k, rejected);
    Course(Script(issue, rejected)[..d.turns] + (if d.verdict == IsConverged then [Fork(Doku, issue)] else []), d.looks, false)
  }

  function CourseOf(labels: Readings, k: nat, issue: nat): Course {
    if NeedsNothing(labels(k)) then Course([], 1, false)
    else
      var triage := if Judged(labels(k)) then [] else [Fork(Owen, issue)];
      var asked := k + |triage|;
      if OwenSplit in labels(asked) then Course(triage, |triage| + 1, true)
      else
        var leaf := LeafOf(labels, asked + 1, issue, OwenRejects in labels(asked));
        Course(triage + leaf.turns, |triage| + 1 + leaf.looks, false)
  }

  /** The issues a split names in its comments, by how often labels have been read. */
  type Children = (nat, nat) -> seq<nat>

  /** How far a plan has come: the issues dealt with and those still queued, the
      readings and turns so far, whether anything split, and whether a split named
      no children, which ends it. */
  datatype Plan = Plan(visited: seq<nat>, queue: seq<nat>, looks: nat, turns: seq<Agent>, split: bool, barren: bool)

  /** The issues that come of one. */
  function Offspring(labels: Readings, named: Children, k: nat, issue: nat): seq<nat> {
    var course := CourseOf(labels, k, issue);
    if course.splits then named(issue, k + course.looks) else []
  }

  /** Deal with the first issue of the queue; its children go to the end. */
  function Onward(labels: Readings, named: Children, plan: Plan): Plan
    requires plan.queue != []
  {
    var issue := plan.queue[0];
    var course, children := CourseOf(labels, plan.looks, issue), Offspring(labels, named, plan.looks, issue);
    Plan(plan.visited + [issue], plan.queue[1..] + children, plan.looks + course.looks, plan.turns + course.turns,
         plan.split || course.splits, plan.barren || (course.splits && children == []))
  }

  function Moved(labels: Readings, named: Children, plan: Plan, n: nat): Plan
  {
    if n == 0 then plan
    else
      var before := Moved(labels, named, plan, n - 1);
      if before.queue == [] then before else Onward(labels, named, before)
  }

  /** The plan for an issue after so many issues, or all there are. */
  function PlanOf(labels: Readings, named: Children, root: nat, n: nat): Plan {
    Moved(labels, named, Plan([], [root], 0, [], false, false), n)
  }

  /** The next generation: the children of each issue in turn. */
  function Generation(labels: Readings, named: Children, k: nat, issues: seq<nat>): seq<nat>
    decreases |issues|
  {
    if issues == [] then []
    else
      Offspring(labels, named, k, issues[0])
      + Generation(labels, named, k + CourseOf(labels, k, issues[0]).looks, issues[1..])
  }

  lemma {:induction false} MovedOnward(labels: Readings, named: Children, plan: Plan, n: nat)
    requires plan.queue != []
    ensures Moved(labels, named, Onward(labels, named, plan), n) == Moved(labels, named, plan, n + 1)
  {
    hide Onward;
    if n > 0 { MovedOnward(labels, named, plan, n - 1); }
  }

  lemma OnwardFrom(labels: Readings, named: Children, plan: Plan, first: seq<nat>, later: seq<nat>)
    requires plan.queue == first + later && first != []
    ensures var onward := Onward(labels, named, plan);
            && onward.visited == plan.visited + [first[0]]
            && onward.queue == first[1..] + (later + Offspring(labels, named, plan.looks, first[0]))
            && onward.looks == plan.looks + CourseOf(labels, plan.looks, first[0]).looks
  {
    hide CourseOf, Offspring;
    assert plan.queue[1..] == first[1..] + later;
    Regroup(first[1..], later, Offspring(labels, named, plan.looks, first[0]));
  }

  lemma {:induction false} GenerationSoFar(labels: Readings, named: Children, plan: Plan, first: seq<nat>, later: seq<nat>)
    requires plan.queue == first + later
    ensures Moved(labels, named, plan, |first|).visited == plan.visited + first
    ensures Moved(labels, named, plan, |first|).queue == later + Generation(labels, named, plan.looks, first)
    decreases |first|
  {
    NoGeneration(labels, named, plan, later);
    hide CourseOf, Offspring, Onward, Moved, Generation;
    if first != [] {
      GenerationFirst(labels, named, plan.looks, first);
      var onward := Onward(labels, named, plan);
      var children := Offspring(labels, named, plan.looks, first[0]);
      OnwardFrom(labels, named, plan, first, later);
      MovedOnward(labels, named, plan, |first| - 1);
      GenerationSoFar(labels, named, onward, first[1..], later + children);
      Regrouped(plan.visited, first, later, children, Generation(labels, named, onward.looks, first[1..]));
    }
  }

  lemma NoGeneration(labels: Readings, named: Children, plan: Plan, later: seq<nat>)
    ensures Moved(labels, named, plan, 0) == plan && Generation(labels, named, plan.looks, []) == []
    ensures plan.visited + [] == plan.visited && later + [] == later == [] + later
  {
  }

  lemma GenerationFirst(labels: Readings, named: Children, k: nat, issues: seq<nat>)
    requires issues != []
    ensures Generation(labels, named, k, issues) ==
      Offspring(labels, named, k, issues[0]) + Generation(labels, named, k + CourseOf(labels, k, issues[0]).looks, issues[1..])
  {
  }

  lemma Regrouped(visited: seq<nat>, first: seq<nat>, later: seq<nat>, children: seq<nat>, more: seq<nat>)
    requires first != []
    ensures (visited + [first[0]]) + first[1..] == visited + first
    ensures (later + children) + more == later + (children + more)
  {
    assert first == [first[0]] + first[1..];
  }

  lemma Regroup(a: seq<nat>, b: seq<nat>, c: seq<nat>)
    ensures (a + b) + c == a + (b + c)
  {
  }

  /** The walk is breadth first: dealing with all that is queued leaves exactly the
      next generation queued, in the order of their parents. */
  lemma WalksByGenerations(labels: Readings, named: Children, plan: Plan)
    ensures var after := Moved(labels, named, plan, |plan.queue|);
            && after.visited == plan.visited + plan.queue
            && after.queue == Generation(labels, named, plan.looks, plan.queue)
  {
    assert plan.queue == plan.queue + [];
    GenerationSoFar(labels, named, plan, plan.queue, []);
    assert [] + Generation(labels, named, plan.looks, plan.queue) == Generation(labels, named, plan.looks, plan.queue);
  }

  /** The readings an issue's triage takes before the one that may say split. */
  function Triage(labels: set<Label>): nat { if Judged(labels) then 0 else 1 }

  /** Does owen split the first issue of the queue, after so many? */
  predicate SplitsNext(labels: Readings, plan: Plan) {
    plan.queue != [] && !NeedsNothing(labels(plan.looks)) && OwenSplit in labels(plan.looks + Triage(labels(plan.looks)))
  }

  /** And does that name no children, as its comments are when labels have been
      read once more? */
  predicate BarrenNext(labels: Readings, named: Children, plan: Plan) {
    SplitsNext(labels, plan) && named(plan.queue[0], plan.looks + Triage(labels(plan.looks)) + 1) == []
  }

  lemma OnwardSplits(labels: Readings, named: Children, plan: Plan)
    requires plan.queue != []
    ensures Onward(labels, named, plan).split <==> plan.split || SplitsNext(labels, plan)
    ensures Onward(labels, named, plan).barren <==> plan.barren || BarrenNext(labels, named, plan)
  {
    hide LeafOf;
  }

  lemma OneMoreIssue(labels: Readings, named: Children, root: nat, n: nat)
    ensures var before, after := PlanOf(labels, named, root, n), PlanOf(labels, named, root, n + 1);
            && (after.split <==> before.split || SplitsNext(labels, before))
            && (after.barren <==> before.barren || BarrenNext(labels, named, before))
  {
    var before := PlanOf(labels, named, root, n);
    if before.queue != [] { OnwardSplits(labels, named, before); }
    hide Onward;
  }

  /** Something has split, or split in vain, exactly when an issue that was dealt
      with did. */
  lemma {:induction false} SplitIffAnIssueWas(labels: Readings, named: Children, root: nat, n: nat)
    ensures PlanOf(labels, named, root, n).split <==>
              exists i | 0 <= i < n :: SplitsNext(labels, PlanOf(labels, named, root, i))
    ensures PlanOf(labels, named, root, n).barren <==>
              exists i | 0 <= i < n :: BarrenNext(labels, named, PlanOf(labels, named, root, i))
  {
    hide PlanOf, SplitsNext, BarrenNext;
    if n == 0 {
      NothingPlanned(labels, named, root);
    } else {
      SplitIffAnIssueWas(labels, named, root, n - 1);
      OneMoreIssue(labels, named, root, n - 1);
    }
  }

  lemma NothingPlanned(labels: Readings, named: Children, root: nat)
    ensures PlanOf(labels, named, root, 0) == Plan([], [root], 0, [], false, false)
  {
  }

  /** How many turns come before the critique, and which reading comes after it. */
  function Heard(rejected: bool): nat { if rejected then 2 else 0 }

  function AfterCritique(k: nat, rejected: bool): nat { if rejected then k + 2 else k + 1 }

  /** Does the debate get as far as a critique? */
  predicate Criticised(labels: Readings, k: nat, rejected: bool) {
    if rejected then Closed !in labels(k) && !Blocked(labels(k + 1)) else !Blocked(labels(k))
  }

  /** Owen rebuts exactly when the reading after a critique settles nothing, and
      spectacle has the last word unless the rebuttal is read as blocked. */
  lemma RebuttalIff(labels: Readings, k: nat, rejected: bool)
    ensures var d, c := DebateFrom(labels, k, rejected), AfterCritique(k, rejected);
            && (d.turns > Heard(rejected) <==> Criticised(labels, k, rejected))
            && (d.turns > Heard(rejected) + 1 <==>
                  Criticised(labels, k, rejected) && !Blocked(labels(c)) && !Converged(labels(c)))
            && (d.turns > Heard(rejected) + 2 <==>
                  Criticised(labels, k, rejected) && !Blocked(labels(c)) && !Converged(labels(c)) && !Blocked(labels(c + 1)))
  {
  }

  /** The verdict is what the last reading says, unless the rejection was upheld. */
  lemma VerdictIsLastReading(labels: Readings, k: nat, rejected: bool)
    ensures var d := DebateFrom(labels, k, rejected);
            if rejected && Closed in labels(k) then d.verdict == ClosedAsNotPlanned && d.looks == 1
            else
              var last := labels(k + d.looks - 1);
              && (d.verdict == IsBlocked <==> OwenBlocked in last || SpectacleBlocked in last)
              && (d.verdict == IsConverged <==>
                    {OwenHappy, SpectacleHappy} <= last && OwenBlocked !in last && SpectacleBlocked !in last)
              && d.verdict != ClosedAsNotPlanned
  {
  }

  /** A debate ends unconverged without a rebuttal exactly when the labels had
      converged after the critique, and neither block nor converge when they are
      read again. */
  lemma UnconvergedWithoutRebuttalIff(labels: Readings, k: nat, rejected: bool)
    ensures var d, c := DebateFrom(labels, k, rejected), AfterCritique(k, rejected);
            d.verdict == IsUnconverged && d.turns <= Heard(rejected) + 1 <==>
              && Criticised(labels, k, rejected) && Converged(labels(c)) && !Blocked(labels(c))
              && !Converged(labels(c + 1)) && !Blocked(labels(c + 1))
  {
  }

  /** And that happens: a label taken off between two readings is enough. */
  lemma UnconvergedWithoutRebuttalHappens(labels: Readings)
    requires labels(0) == {OwenHappy} && labels(1) == {OwenHappy, SpectacleHappy} && labels(2) == {OwenHappy}
    ensures DebateFrom(labels, 0, false) == Debated(IsUnconverged, 1, 3)
  {
  }

  /** A leaf is criticised unless it is blocked, and doku writes a brief exactly on
      convergence. */
  lemma LeavesAreDebated(labels: Readings, k: nat, issue: nat, rejected: bool)
    ensures var turns := LeafOf(labels, k, issue, rejected).turns;
            && |turns| <= MOST_TURNS - 1
            && (rejected || !Blocked(labels(k)) ==> turns != [] && turns[0] == Fork(Spectacle, issue))
            && (Fork(Doku, issue) in turns <==> DebateFrom(labels, k, rejected).verdict == IsConverged)
  {
    var d, script := DebateFrom(labels, k, rejected), Script(issue, rejected);
    assert forall i | 0 <= i < |script| :: script[i] != Fork(Doku, issue);
    assert forall i | 0 <= i < d.turns :: script[..d.turns][i] == script[i];
    var turns := LeafOf(labels, k, issue, rejected).turns;
    if d.verdict == IsConverged { assert turns[d.turns] == Fork(Doku, issue); }
  }

  /** Issues that need something and have no verdict are triaged first; those that
      are not split then are debated as leaves. */
  lemma CoursesStartWithTriage(labels: Readings, k: nat, issue: nat)
    requires !NeedsNothing(labels(k))
    ensures var course := CourseOf(labels, k, issue);
            var unjudged := labels(k) !! {OwenHappy, OwenRejects, OwenBlocked, OwenSplit};
            var asked := if unjudged then k + 1 else k;
            && |course.turns| <= MOST_TURNS
            && (unjudged ==> course.turns != [] && course.turns[0] == Fork(Owen, issue))
            && (course.splits <==> OwenSplit in labels(asked))
            && (!course.splits ==>
                  LeafOf(labels, asked + 1, issue, OwenRejects in labels(asked)).turns == course.turns[asked - k..])
  {
    JudgedIff(labels(k));
    hide LeafOf, Judged, NeedsNothing;
    var asked := if Judged(labels(k)) then k else k + 1;
    LeavesAreDebated(labels, asked + 1, issue, OwenRejects in labels(asked));
    var triage := if Judged(labels(k)) then [] else [Fork(Owen, issue)];
    var leaf := LeafOf(labels, asked + 1, issue, OwenRejects in labels(asked)).turns;
    assert (triage + leaf)[|triage|..] == leaf;
  }

  lemma JudgedIff(labels: set<Label>)
    ensures Judged(labels) <==> !(labels !! {OwenHappy, OwenRejects, OwenBlocked, OwenSplit})
  {
    if !(labels !! {OwenHappy, OwenRejects, OwenBlocked, OwenSplit}) {
      var found :| found in labels && found in {OwenHappy, OwenRejects, OwenBlocked, OwenSplit};
      assert found in labels * OWEN_VERDICTS;
    } else {
      assert labels * OWEN_VERDICTS == {};
    }
  }

  // ---- The driver ---------------------------------------------------------

  class Planner {
    const root: nat
    const team: Team
    const labels: Readings
    const named: Children
    var asked: nat                // how often labels have been read
    var forks: set<Agent>         // the forks alive for the issue being planned
    var primed: bool
    var forkWorks: bool
    ghost var visited: seq<nat>   // the issues taken off the queue

    /** What the driver believes of the primer is so: it is there with a session
        exactly when it has been primed, and it is primed once at most. */
    ghost predicate PrimedOnce()
      reads this, team
    {
      && (primed <==> Primer in team.registered) && (primed ==> Primer in team.sessions)
      && team.primings == (if primed then 1 else 0) && !team.failed
    }

    /** And so is what it believes of the role agents: between two turns, the forks
        it keeps track of are those there are. */
    ghost predicate Valid()
      reads this, team
    {
      PrimedOnce() && team.registered == forks + (if primed then {Primer} else {}) && Primer !in forks
    }

    /** Only forks for one issue are alive. */
    ghost predicate Only(issue: nat)
      reads this
    {
      forall agent | agent in forks :: agent.Fork? && agent.issue == issue
    }

    constructor (root: nat, team: Team, labels: Readings, named: Children)
      requires team.registered == team.sessions == {} && team.spoken == [] && team.primings == 0 && !team.failed
      ensures Valid() && forks == {} && this.root == root && this.team == team && asked == 0 && visited == []
      ensures this.labels == labels && this.named == named
    {
      this.root, this.team, this.labels, this.named, asked := root, team, labels, named, 0;
      forks, primed, forkWorks, visited := {}, false, true, [];
    }

    method IssueLabels(issue: nat) returns (now: set<Label>, works: bool)
      requires Valid()
      modifies this`asked, team`commands, team`failed
      ensures (works ==> Valid()) && (old(Only(issue)) ==> Only(issue)) && team.primings <= 1
      ensures now == labels(old(asked)) && asked == old(asked) + 1 && team.failed == !works
    {
      now := labels(asked);
      works := team.Command();
      asked := asked + 1;
    }

    /** Prime the one session the forks are made from, unless that is done. */
    method Prime() returns (r: Outcome)
      requires PrimedOnce()
      modifies this`primed, team
      ensures r.Failed? ==> r.code == 1 && team.failed
      ensures r.Done? ==> PrimedOnce() && primed && team.registered == old(team.registered) + {Primer}
      ensures old(primed) ==> r.Done? && team.registered == old(team.registered)
      ensures team.spoken == old(team.spoken) && team.primings <= 1
    {
      if primed { return Done; }
      var works := team.Talk(Primer, Some(PRIMER_BACKEND));
      if !works { return Failed(1); }
      primed := true;
      r := Done;
    }

    /** Come by an agent for a role: the one there is, a fork of the primer, or a
        name for a fresh one, whose first turn must then carry the role's flags. */
    method ForkPrimer(role: Role, issue: nat) returns (r: Outcome, agent: Agent, flags: Option<Backend>)
      requires Valid()
      modifies this`forks, this`primed, this`forkWorks, team
      ensures agent == Fork(role, issue) && team.spoken == old(team.spoken) && team.primings <= 1
      ensures forks == old(forks) + {agent} && (r.Failed? ==> r.code == 1 && team.failed)
      ensures r.Done? ==>
                && PrimedOnce() && team.registered + {agent} == forks + (if primed then {Primer} else {})
                && (flags.None? <==> agent in team.registered) && (flags.Some? ==> flags == Some(if role.Doku? then Opencode else Claude))
      ensures agent in old(forks) ==> r.Done? && flags.None? && primed == old(primed)
      ensures agent !in old(forks) && (role.Doku? || !old(forkWorks)) ==>
                flags.Some? && primed == old(primed) && team.registered == old(team.registered)
    {
      agent := Fork(role, issue);
      if agent in forks { return Done, agent, None; }
      forks := forks + {agent};
      if forkWorks && BackendOf(role) == PRIMER_BACKEND {
        r := Prime();
        if r.Failed? { return r, agent, None; }
        var works := team.ForkPrimer(agent);
        if works { return Done, agent, None; }
        forkWorks := false;
      }
      return Done, agent, Some(BackendOf(role));
    }

    /** One turn of a role's agent on an issue. */
    method Speak(role: Role, issue: nat) returns (r: Outcome)
      requires Valid() && Only(issue)
      modifies this`forks, this`primed, this`forkWorks, team
      ensures Only(issue) && team.primings <= 1
      ensures team.spoken == old(team.spoken) || team.spoken == old(team.spoken) + [Fork(role, issue)]
      ensures r.Done? ==>
                Valid() && forks == old(forks) + {Fork(role, issue)} && team.spoken == old(team.spoken) + [Fork(role, issue)]
      ensures r.Failed? ==> r.code == 1 && team.failed
    {
      var agent, flags;
      r, agent, flags := ForkPrimer(role, issue);
      if r.Failed? { return; }
      var works := team.Talk(agent, flags);
      if !works { return Failed(1); }
    }

    /** Owen looks at an issue first. */
    method Triage(issue: nat) returns (r: Outcome, now: set<Label>)
      requires Valid() && Only(issue)
      modifies this`forks, this`primed, this`forkWorks, this`asked, team
      ensures Only(issue) && team.primings <= 1
      ensures team.spoken == old(team.spoken) || team.spoken == old(team.spoken) + [Fork(Owen, issue)]
      ensures r.Done? ==>
                Valid() && now == labels(old(asked)) && asked == old(asked) + 1
                && team.spoken == old(team.spoken) + [Fork(Owen, issue)]
      ensures r.Failed? ==> r.code == 1 && team.failed
    {
      now := {};
      r := Speak(Owen, issue);
      if r.Failed? { return; }
      var works;
      now, works := IssueLabels(issue);
      if !works { r := Failed(1); }
    }

    /** The next turn of a script, of which `taken` turns have been had. */
    method SpeakNext(ghost start: seq<Agent>, ghost script: seq<Agent>, ghost taken: nat, role: Role, issue: nat)
      returns (r: Outcome, ghost now: nat)
      requires Valid() && Only(issue)
      requires taken < |script| && team.spoken == start + script[..taken] && script[taken] == Fork(role, issue)
      modifies this`forks, this`primed, this`forkWorks, team
      ensures Only(issue) && team.primings <= 1 && (r.Failed? ==> r.code == 1 && team.failed)
      ensures taken <= now <= taken + 1 && team.spoken == start + script[..now]
      ensures r.Done? ==> Valid() && now == taken + 1
    {
      r := Speak(role, issue);
      assert script[..taken + 1] == script[..taken] + [Fork(role, issue)];
      now := if team.spoken == old(team.spoken) then taken else taken + 1;
    }

    /** Critique and rebuttal until the labels say what comes of the issue: the
        turns follow the script, and how many of them there are, and the verdict,
        is what the readings decide. */
    method Debate(issue: nat, given: set<Label>) returns (r: Outcome, verdict: Verdict, ghost taken: nat)
      requires Valid() && Only(issue)
      modifies this`forks, this`primed, this`forkWorks, this`asked, team
      ensures Only(issue) && team.primings <= 1 && (r.Failed? ==> r.code == 1 && team.failed)
      ensures taken <= |Script(issue, OwenRejects in given)|
      ensures team.spoken == old(team.spoken) + Script(issue, OwenRejects in given)[..taken]
      ensures r.Done? ==>
                && Valid() && old(asked) <= asked
                && Debated(verdict, taken, asked - old(asked)) == DebateFrom(labels, old(asked), OwenRejects in given)
    {
      hide Valid, PrimedOnce, Only, Blocked, Converged, Argued;
      verdict, taken := IsBlocked, 0;
      ghost var start := team.spoken;
      ghost var script := Script(issue, OwenRejects in given);
      assert start == start + script[..0];
      var now, works;
      if OwenRejects in given {
        r, taken := SpeakNext(start, script, taken, Spectacle, issue);
        if r.Failed? { return; }
        now, works := IssueLabels(issue);
        if !works { r := Failed(1); return; }
        if Closed in now { verdict := ClosedAsNotPlanned; return; }
        r, taken := SpeakNext(start, script, taken, Owen, issue);
        if r.Failed? { return; }
      }
      now, works := IssueLabels(issue);
      if !works { r := Failed(1); return; }
      if Blocked(now) { r := Done; return; }
      r, verdict, taken := Argue(start, script, taken, issue);
    }

    /** The critique, and a rebuttal and a final decision if it is disputed. */
    method Argue(ghost start: seq<Agent>, ghost script: seq<Agent>, ghost before: nat, issue: nat)
      returns (r: Outcome, verdict: Verdict, ghost taken: nat)
      requires Valid() && Only(issue)
      requires |script| == before + 3 && script[before..] == Script(issue, false) && team.spoken == start + script[..before]
      modifies this`forks, this`primed, this`forkWorks, this`asked, team
      ensures Only(issue) && team.primings <= 1 && (r.Failed? ==> r.code == 1 && team.failed)
      ensures before <= taken <= |script| && team.spoken == start + script[..taken]
      ensures r.Done? ==>
                && Valid() && old(asked) <= asked
                && Debated(verdict, taken - before, asked - old(asked)) == Argued(labels, old(asked))
    {
      hide Valid, PrimedOnce, Only, Blocked, Converged;
      verdict, taken := IsBlocked, before;
      assert script[before] == script[before + 2] == Fork(Spectacle, issue) && script[before + 1] == Fork(Owen, issue) by {
        assert forall i | 0 <= i < 3 :: script[before + i] == script[before..][i];
      }
      var now, works;
      r, taken := SpeakNext(start, script, taken, Spectacle, issue);
      if r.Failed? { return; }
      now, works := IssueLabels(issue);
      if !works { r := Failed(1); return; }
      if Blocked(now) { return; }
      if !Converged(now) {
        r, taken := SpeakNext(start, script, taken, Owen, issue);
        if r.Failed? { return; }
        now, works := IssueLabels(issue);
        if !works { r := Failed(1); return; }
        if Blocked(now) { return; }
        r, taken := SpeakNext(start, script, taken, Spectacle, issue);
        if r.Failed? { return; }
      }
      now, works := IssueLabels(issue);
      if !works { r := Failed(1); return; }
      verdict := if Blocked(now) then IsBlocked else if Converged(now) then IsConverged else IsUnconverged;
    }

    /** Delete whatever forks the issue has left. */
    method DiscardForks(issue: nat) returns (r: Outcome)
      requires Valid() && Only(issue)
      modifies this`forks, team`registered, team`sessions, team`commands, team`failed
      ensures r.Done? ==> Valid() && forks == {}
      ensures r.Failed? ==> r.code == 1 && team.failed
    {
      for i := 0 to |ROLES|
        invariant Valid() && Only(issue)
        invariant forall k | 0 <= k < i :: Fork(ROLES[k], issue) !in forks
      {
        var agent := Fork(ROLES[i], issue);
        if agent in forks {
          var works := team.Delete(agent);
          if !works { return Failed(1); }
          forks := forks - {agent};
        }
      }
      forall agent ensures agent !in forks {
        if agent.Fork? && agent.issue == issue {
          match agent.role
          case Owen => assert agent == Fork(ROLES[0], issue);
          case Spectacle => assert agent == Fork(ROLES[1], issue);
          case Doku => assert agent == Fork(ROLES[2], issue);
        }
      }
      r := Done;
    }

    /** Debate a leaf, and have the brief written if it converged. */
    method Settle(issue: nat, given: set<Label>) returns (r: Outcome)
      requires Valid() && Only(issue)
      modifies this`forks, this`primed, this`forkWorks, this`asked, team
      ensures Only(issue) && team.primings <= 1 && (r.Failed? ==> r.code == 1 && team.failed)
      ensures |old(team.spoken)| <= |team.spoken| <= |old(team.spoken)| + MOST_TURNS - 1
      ensures r.Done? ==>
                var leaf := LeafOf(labels, old(asked), issue, OwenRejects in given);
                Valid() && asked == old(asked) + leaf.looks && team.spoken == old(team.spoken) + leaf.turns
    {
      var verdict;
      ghost var taken;
      r, verdict, taken := Debate(issue, given);
      if r.Failed? { return; }
      hide DebateFrom, Script;
      if verdict == IsConverged { r := Speak(Doku, issue); }
    }

    /** The numbers on the last CHILDREN line of the issue's comments. */
    method SplitChildren(issue: nat) returns (r: Outcome, children: seq<nat>)
      requires !team.failed
      modifies team`commands, team`failed
      ensures r.Done? ==> children == named(issue, asked) != []
      ensures r.Failed? ==> r.code == 1 || (r.code == 9 && named(issue, asked) == [])
      ensures team.failed <==> r == Failed(1)
    {
      children := [];
      var works := team.Command();
      if !works { return Failed(1), []; }
      children := named(issue, asked);
      r := if children == [] then Failed(9) else Done;
    }

    /** Deal with one issue off the queue: its turns are the course the readings
        set, its forks are gone afterwards, and its children are those it names,
        one at least where it is split. */
    method Take(issue: nat) returns (r: Outcome, children: seq<nat>)
      requires Valid() && forks == {}
      modifies this`forks, this`primed, this`forkWorks, this`asked, team
      ensures team.primings <= 1 && |old(team.spoken)| <= |team.spoken| <= |old(team.spoken)| + MOST_TURNS
      ensures var course := CourseOf(labels, old(asked), issue);
              && (r.Done? || r.code == 9 ==>
                    asked == old(asked) + course.looks && team.spoken == old(team.spoken) + course.turns)
              && (r.Done? ==>
                    && Valid() && forks == {} && children == Offspring(labels, named, old(asked), issue)
                    && (course.splits ==> children != []))
              && (r.Failed? ==>
                    r.code == 1 || (r.code == 9 && course.splits && Offspring(labels, named, old(asked), issue) == []))
              && (team.failed <==> r == Failed(1))
    {
      hide LeafOf;
      children := [];
      var now, works := IssueLabels(issue);
      if !works { r := Failed(1); return; }
      if Converged(now) || Closed in now { r := Done; return; }
      if now * OWEN_VERDICTS == {} {
        r, now := Triage(issue);
        if r.Failed? { return; }
      }
      if OwenSplit in now {
        r, children := SplitChildren(issue);
      } else {
        r := Settle(issue, now);
      }
      if r.Failed? { return; }
      r := DiscardForks(issue);
    }

    /** The driver is where the plan says, having dealt with so many issues. */
    ghost predicate OnCourse(queue: seq<nat>, splitAny: bool)
      reads this, team
    {
      && Valid() && forks == {} && |team.spoken| <= |visited| * MOST_TURNS
      && PlanOf(labels, named, root, |visited|) == Plan(visited, queue, asked, team.spoken, splitAny, false)
    }

    /** Take the first issue off the queue, and queue what it was split into. */
    method Next(queue: seq<nat>, splitAny: bool) returns (r: Outcome, rest: seq<nat>, anySplit: bool)
      requires OnCourse(queue, splitAny) && queue != []
      modifies this`forks, this`primed, this`forkWorks, this`asked, this`visited, team
      ensures visited == old(visited) + [queue[0]]
      ensures team.primings <= 1 && |team.spoken| <= |visited| * MOST_TURNS
      ensures r.Done? ==> OnCourse(rest, anySplit)
      ensures r.Failed? ==> r.code == 1 || (r.code == 9 && Barren())
      ensures team.failed <==> r == Failed(1)
    {
      hide CourseOf;
      visited := visited + [queue[0]];
      var children;
      r, children := Take(queue[0]);
      rest, anySplit := queue[1..] + children, splitAny || children != [];
    }

    /** What is done is what the plan says, and its last issue is split and names no
        children. */
    ghost predicate Barren()
      reads this, team
    {
      var plan := PlanOf(labels, named, root, |visited|);
      plan.barren && plan.visited == visited && plan.turns == team.spoken
    }

    /** The planning run. However the tree grows under it, it deals with the issues
        breadth first, gives each the course its labels set, and gives up on a tree
        of more than `PLAN_CAP` or on a split that names no children. */
    method Run(clones: bool) returns (code: nat)
      requires Valid() && forks == {} && visited == [] && asked == 0 && team.spoken == []
      modifies this, team
      ensures code in {0, 1, 5, 9} && (code == 1 <==> team.failed) && (code == 5 <==> !clones)
      ensures team.primings <= 1 && |team.spoken| <= 12 * 7 + 1
      ensures |visited| <= 12
      ensures var plan := PlanOf(labels, named, root, |visited|);
              && (code == 0 ==>
                    && plan.visited == visited && plan.queue == [] && !plan.barren
                    && team.spoken == plan.turns + (if plan.split then [Fork(Doku, root)] else []))
              && (code == 9 ==>
                    && plan.visited == visited && team.spoken == plan.turns
                    && (plan.barren || (|visited| == 12 && plan.queue != [])))
    {
      NothingPlanned(labels, named, root);
      hide PlanOf;
      if !clones { return 5; }
      var works := team.Command();
      if !works { return 1; }
      var queue, taken, splitAny := [root], 0, false;
      while queue != []
        invariant OnCourse(queue, splitAny) && taken == |visited| <= PLAN_CAP
        decreases PLAN_CAP - taken
      {
        taken := taken + 1;
        if taken > PLAN_CAP { return 9; }
        var r;
        r, queue, splitAny := Next(queue, splitAny);
        if r.Failed? { return r.code; }
      }
      if splitAny {
        var r := Speak(Doku, root);
        if r.Failed? { return r.code; }
      }
      works := team.Command();
      code := if works then 0 else 1;
    }
  }

  // Owen's triage, the longest debate, and the brief.
  const MOST_TURNS := 7
}
