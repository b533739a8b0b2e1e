/** A turn that has to satisfy a schema: as many attempts as the retries and one
    wall-clock budget allow, each on the session the last one left. */
module ValidatedTurns {
  import opened Common
  import opened Registry
  import opened Entries
  import opened Orchestrators

  /** The user's request with the schema line, or a repair that names what was
      wrong with the reply before; the wording is left open. */
  datatype Prompt = Asking | Repairing(correction: string)

  /** What the loop cannot choose: the clock's readings in order, what each
      attempt comes back with, what others make of the registry meanwhile, and
      the validator, which says what is wrong with a reply or nothing. */
  datatype World = World(
    clock: nat -> real,
    outcome: nat -> Outcome,
    meanwhile: nat -> map<Name, Entry>,
    fault: string -> Option<string>)

  /** One attempt: what it was given, the agent it left behind and the registry
      file it wrote. */
  datatype Attempt = Attempt(
    prompt: Prompt, timeout: int, resumed: Option<SessionId>,
    session: Option<SessionId>, pending: Option<SessionId>, file: map<Name, Entry>)
  {
    function NextResume(): Option<SessionId> { if pending.Some? then pending else session }
  }

  datatype Failure = NotTurned(error: Error) | NotConforming(correction: string)

  function Ceiling(x: real): (n: int)
    ensures x <= n as real < x + 1.0
  {
    -((-x).Floor)
  }

  function Deadline(w: World, timeout: int): real { w.clock(0) + timeout as real }

  /** The clock is read once for the deadline, then before each attempt and, if
      its reply is refused, after it. */
  function Started(w: World, i: nat): real { w.clock(2 * i + 1) }
  function Ended(w: World, i: nat): real { w.clock(2 * i + 2) }

  function AttemptTimeout(w: World, timeout: int, i: nat): int {
    var left := Ceiling(Deadline(w, timeout) - Started(w, i));
    if left < 1 then 1 else left
  }

  /** Was the reply of attempt `i` refused? */
  predicate Refused(w: World, i: nat) {
    w.outcome(i).Replied? && w.fault(w.outcome(i).reply).Some?
  }

  /** Is another attempt owed after a refused attempt `i`? */
  predicate Owed(w: World, retries: nat, timeout: int, i: nat) {
    i < retries && Ended(w, i) < Deadline(w, timeout)
  }

  function Correction(w: World, i: nat): string {
    if Refused(w, i) then w.fault(w.outcome(i).reply).value else ""
  }

  function ExpectedPrompt(w: World, i: nat): Prompt {
    if i == 0 then Asking else Repairing(Correction(w, i - 1))
  }

  /** The attempt committed its session to the registry as it then was. */
  ghost predicate Persisted(w: World, i: nat, name: Name, known: set<string>, a: Attempt, now: Instant) {
    && Readable(w.meanwhile(i), known) && name in w.meanwhile(i)
    && a.file == Encode(Apply(Decode(w.meanwhile(i)), TurnDone(name, a.session, a.pending, now)))
  }

  /** Does a turn of attempt `i` go through, for an agent with that fork pending? The
      backend must reply, not with the session that was to be forked, and the agent
      must still be there to commit to. */
  predicate GoesThrough(w: World, i: nat, pending: Option<SessionId>, name: Name, known: set<string>) {
    && w.outcome(i).Replied? && (w.outcome(i).session.None? || w.outcome(i).session != pending)
    && Readable(w.meanwhile(i), known) && name in w.meanwhile(i)
  }

  method Attempted(orchestrator: Orchestrator, agent: Agent, prompt: Prompt, w: World, i: nat, timeout: int, now: Instant)
    returns (error: Option<Error>, a: Attempt)
    requires orchestrator.Valid()
    modifies orchestrator`agents, orchestrator.file, agent
    ensures a.prompt == prompt && a.timeout == timeout
    ensures a.resumed == old(agent.ResumesFrom())
    ensures error.None? <==> GoesThrough(w, i, old(agent.pending), agent.name, orchestrator.known)
    ensures error.None? ==>
              && orchestrator.Valid() && agent.pending == a.pending && w.outcome(i).Replied?
              && agent.ResumesFrom() == a.NextResume()
              && Persisted(w, i, agent.name, orchestrator.known, a, now)
  {
    var resumed := agent.ResumesFrom();
    error := orchestrator.Turn(agent, w.outcome(i), w.meanwhile(i), now);
    a := Attempt(prompt, timeout, resumed, agent.session, agent.pending, orchestrator.file.entries);
  }

  datatype Terms = Terms(retries: nat, timeout: int, now: Instant)

  /** What attempt `i` is given: the time that is left, and the prompt that says
      what was wrong with the reply before. */
  ghost predicate Given(w: World, t: Terms, i: nat, a: Attempt) {
    a.timeout == AttemptTimeout(w, t.timeout, i) && a.prompt == ExpectedPrompt(w, i)
  }

  /** Attempts that were each refused with another one owed, all of them
      committed, each resuming the session the one before had left committed. */
  ghost predicate Refusals(w: World, t: Terms, name: Name, known: set<string>, trace: seq<Attempt>) {
    trace == [] ||
    (var n := |trace| - 1;
     && Refusals(w, t, name, known, trace[..n])
     && (n > 0 ==> trace[n].resumed == trace[n - 1].NextResume())
     && Given(w, t, n, trace[n]) && Refused(w, n) && Owed(w, t.retries, t.timeout, n)
     && Persisted(w, n, name, known, trace[n], t.now))
  }

  lemma OneMoreRefusal(w: World, t: Terms, name: Name, known: set<string>, trace: seq<Attempt>, a: Attempt)
    requires Refusals(w, t, name, known, trace)
    requires Given(w, t, |trace|, a) && Refused(w, |trace|) && Owed(w, t.retries, t.timeout, |trace|)
    requires Persisted(w, |trace|, name, known, a, t.now)
    requires |trace| > 0 ==> a.resumed == trace[|trace| - 1].NextResume()
    ensures Refusals(w, t, name, known, trace + [a])
  {
    assert (trace + [a])[..|trace|] == trace;
  }

  /** An attempt has the time that was left of the budget when it started, in whole
      seconds and rounded up, and one second where there was less. */
  predicate TimeLeft(w: World, timeout: int, i: nat, a: Attempt) {
    var left := w.clock(0) + timeout as real - w.clock(2 * i + 1);
    1 <= a.timeout && left <= a.timeout as real && (a.timeout == 1 || a.timeout as real < left + 1.0)
  }

  /** The first attempt asks, and every later one says what was wrong with the
      reply before it. */
  predicate AsksOrRepairs(w: World, i: nat, a: Attempt) {
    if i == 0 then a.prompt == Asking
    else
      && w.outcome(i - 1).Replied? && w.fault(w.outcome(i - 1).reply).Some?
      && a.prompt == Repairing(w.fault(w.outcome(i - 1).reply).value)
  }

  /** A retry was left, and time, when the reply of attempt `i` had been refused. */
  predicate RetryLeft(w: World, t: Terms, i: nat) {
    i < t.retries && w.clock(2 * i + 2) < w.clock(0) + t.timeout as real
  }

  lemma GivenIsTimeLeft(w: World, t: Terms, i: nat, a: Attempt)
    requires Given(w, t, i, a) && (i > 0 ==> Refused(w, i - 1))
    ensures TimeLeft(w, t.timeout, i, a) && AsksOrRepairs(w, i, a)
  {
  }

  lemma {:induction false} RefusalsAreGiven(w: World, t: Terms, name: Name, known: set<string>, trace: seq<Attempt>, i: nat)
    requires Refusals(w, t, name, known, trace) && i < |trace|
    ensures Given(w, t, i, trace[i]) && Refused(w, i) && Owed(w, t.retries, t.timeout, i)
  {
    hide Given, Refused, Owed, Persisted;
    if i < |trace| - 1 { RefusalsAreGiven(w, t, name, known, trace[..|trace| - 1], i); }
  }

  /** Each attempt that was retried had the time that was left and a prompt that
      says what to repair, and there was a retry left after it. */
  lemma RefusalsAreRepairs(w: World, t: Terms, name: Name, known: set<string>, trace: seq<Attempt>)
    requires Refusals(w, t, name, known, trace)
    ensures forall i | 0 <= i < |trace| :: TimeLeft(w, t.timeout, i, trace[i]) && AsksOrRepairs(w, i, trace[i]) && RetryLeft(w, t, i)
    ensures trace != [] ==> Refused(w, |trace| - 1)
  {
    hide Refusals, TimeLeft, AsksOrRepairs, Given, Refused;
    forall i | 0 <= i < |trace|
      ensures Refused(w, i) && TimeLeft(w, t.timeout, i, trace[i]) && AsksOrRepairs(w, i, trace[i]) && RetryLeft(w, t, i)
    {
      RefusalsAreGiven(w, t, name, known, trace, i);
      if i > 0 { RefusalsAreGiven(w, t, name, known, trace, i - 1); }
      GivenIsTimeLeft(w, t, i, trace[i]);
    }
  }

  /** Turns keep their timeouts, and what happens between them takes no time. */
  ghost predicate Timely(w: World, t: Terms, attempts: nat) {
    && 1 <= t.timeout && Started(w, 0) == w.clock(0)
    && (forall i: nat :: Started(w, i + 1) == Ended(w, i))
    && (forall i | 0 <= i < attempts :: Ended(w, i) - Started(w, i) <= AttemptTimeout(w, t.timeout, i) as real)
  }

  /** With such turns, a call that was refused so often, each time with another
      attempt owed, ends within a second of its budget: its last attempt is over
      by then. */
  lemma BudgetHolds(w: World, t: Terms, refusals: nat)
    requires Timely(w, t, refusals + 1) && forall i | 0 <= i < refusals :: Owed(w, t.retries, t.timeout, i)
    ensures Ended(w, refusals) < w.clock(0) + t.timeout as real + 1.0
  {
    assert Ended(w, refusals) - Started(w, refusals) <= AttemptTimeout(w, t.timeout, refusals) as real;
    if refusals > 0 {
      assert Owed(w, t.retries, t.timeout, refusals - 1);
      assert Started(w, refusals - 1 + 1) == Ended(w, refusals - 1);
    }
  }

  lemma RefusalsKeepTheBudget(w: World, t: Terms, name: Name, known: set<string>, refused: seq<Attempt>)
    requires Refusals(w, t, name, known, refused)
    ensures Timely(w, t, |refused| + 1) ==> Ended(w, |refused|) < w.clock(0) + t.timeout as real + 1.0
  {
    forall i | 0 <= i < |refused| ensures Owed(w, t.retries, t.timeout, i) {
      RefusalsAreGiven(w, t, name, known, refused, i);
    }
    if Timely(w, t, |refused| + 1) { BudgetHolds(w, t, |refused|); }
  }

  /** `refused` are the attempts that were retried and `last` the one the call
      ended with. */
  method Run(orchestrator: Orchestrator, agent: Agent, w: World, t: Terms)
    returns (result: Result<string, Failure>, refused: seq<Attempt>, last: Attempt)
    requires orchestrator.Valid()
    modifies orchestrator`agents, orchestrator.file, agent
    ensures |refused| <= t.retries && Refusals(w, t, agent.name, orchestrator.known, refused)
    ensures forall i | 0 <= i < |refused| ::
              TimeLeft(w, t.timeout, i, refused[i]) && AsksOrRepairs(w, i, refused[i]) && RetryLeft(w, t, i)
    ensures TimeLeft(w, t.timeout, |refused|, last) && AsksOrRepairs(w, |refused|, last)
    ensures Timely(w, t, |refused| + 1) ==> Ended(w, |refused|) < w.clock(0) + t.timeout as real + 1.0
    ensures |refused| > 0 ==> last.resumed == refused[|refused| - 1].NextResume()
    ensures |refused| == 0 ==> last.resumed == old(agent.ResumesFrom())
    ensures result.Err? && result.error.NotTurned? <==>
              !GoesThrough(w, |refused|, if |refused| == 0 then old(agent.pending) else refused[|refused| - 1].pending,
                           agent.name, orchestrator.known)
    ensures result.Ok? || result.error.NotConforming? ==>
              Persisted(w, |refused|, agent.name, orchestrator.known, last, t.now)
    ensures result.Ok? ==>
              && w.outcome(|refused|).Replied? && w.outcome(|refused|).reply == result.value
              && w.fault(result.value).None?
    ensures result.Err? && result.error.NotConforming? ==>
              && w.outcome(|refused|).Replied? && w.fault(w.outcome(|refused|).reply) == Some(result.error.correction)
              && (|refused| == t.retries || w.clock(2 * |refused| + 2) >= w.clock(0) + t.timeout as real)
  {
    hide Timely, Persisted, Ceiling, Readable, GoesThrough, TimeLeft, AsksOrRepairs, RetryLeft;
    var attemptPrompt := Asking;
    var attempt := 0;
    refused := [];
    while true
      invariant attempt == |refused| <= t.retries
      invariant orchestrator.Valid()
      invariant attemptPrompt == ExpectedPrompt(w, |refused|)
      invariant Refusals(w, t, agent.name, orchestrator.known, refused)
      invariant agent.pending == if |refused| == 0 then old(agent.pending) else refused[|refused| - 1].pending
      invariant agent.ResumesFrom() == if |refused| == 0 then old(agent.ResumesFrom()) else refused[|refused| - 1].NextResume()
      decreases t.retries - attempt
    {
      var i := attempt;
      attempt := attempt + 1;
      RefusalsKeepTheBudget(w, t, agent.name, orchestrator.known, refused);
      var error;
      RefusalsAreRepairs(w, t, agent.name, orchestrator.known, refused);
      error, last := Attempted(orchestrator, agent, attemptPrompt, w, i, AttemptTimeout(w, t.timeout, i), t.now);
      GivenIsTimeLeft(w, t, i, last);
      if error.Some? { return Err(NotTurned(error.value)), refused, last; }
      var fault := w.fault(w.outcome(i).reply);
      if fault.None? { return Ok(w.outcome(i).reply), refused, last; }
      if attempt > t.retries || Deadline(w, t.timeout) - Ended(w, i) <= 0.0 { return Err(NotConforming(fault.value)), refused, last; }
      OneMoreRefusal(w, t, agent.name, orchestrator.known, refused, last);
      refused := refused + [last];
      attemptPrompt := Repairing(fault.value);
    }
  }

  ghost predicate Monotone(clock: nat -> real) {
    forall i: nat, j: nat | i <= j :: clock(i) <= clock(j)
  }

  /** A later attempt never has more time than an earlier one. */
  lemma TimeoutsNeverGrow(w: World, timeout: int, i: nat, j: nat)
    requires Monotone(w.clock) && i <= j
    ensures AttemptTimeout(w, timeout, j) <= AttemptTimeout(w, timeout, i)
  {
    assert Started(w, i) <= Started(w, j);
  }
}
