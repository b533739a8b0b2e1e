/** The gate on the gates: what CI checks may only grow, unless a reviewed policy
    version says otherwise, one version at a time. */
module Ratchet {
  import opened Common
  import opened MakeLists

  const CI_GATES := "CI_GATES"

  const TARGETS := ["ci", "verify", "security", "verify-quick", "verify-coverage", "verify-mutation",
                    "verify-security", "security-static", "ci-hosted"]

  // What the gate looks at in one commit: the Makefile, and the policy version in
  // the gate's own source, where either file may be missing and the version, too.
  datatype Tree = Tree(makefile: Option<seq<Line>>, policy: Option<Option<int>>)

  // ---- Prerequisites -----------------------------------------------------

  function NextWorded(lines: seq<Line>, k: nat): (n: nat)
    requires k <= |lines|
    ensures k <= n <= |lines|
    decreases |lines| - k
  {
    if k == |lines| || lines[k].words != [] then k else NextWorded(lines, k + 1)
  }

  /** The rules found for a target from a line on. A rule without prerequisites is
      read on into the next line with any words, and that line is used up by it. */
  function RulesFrom(lines: seq<Line>, target: string, k: nat): (found: seq<nat>)
    ensures forall i | i in found :: i < |lines| && lines[i].form.Rule? && lines[i].form.target == target
    decreases |lines| - k
  {
    if k >= |lines| then []
    else if lines[k].form.Rule? && lines[k].form.target == target then
      [k] + RulesFrom(lines, target, if lines[k].value == [] then NextWorded(lines, k + 1) + 1 else k + 1)
    else RulesFrom(lines, target, k + 1)
  }

  /** A rule's words; a reference that cannot be read adds none. */
  function PrereqWords(lines: seq<Line>, words: seq<Word>, depth: nat): Reading
    decreases |words|
  {
    if words == [] then Words([])
    else
      var n := |words| - 1;
      var front := PrereqWords(lines, words[..n], depth);
      if !front.Words? then front
      else
        match ExpandWord(lines, words[n], depth)
        case Words(last) => Words(front.words + last)
        case Unreadable => front
        case TooDeep => TooDeep
  }

  function Prereqs(lines: seq<Line>, target: string, depth: nat): Reading {
    var rules := RulesFrom(lines, target, 0);
    if |rules| != 1 then Unreadable
    else
      assert rules[0] in rules;
      if lines[rules[0]].form.double then Unreadable else PrereqWords(lines, Captured(lines, rules[0]), depth)
  }

  predicate IsRuleFor(line: Line, target: string) { line.form.Rule? && line.form.target == target }

  /** Does the word give the name, or refer to a list that is read and has it? */
  predicate Gives(lines: seq<Line>, word: Word, depth: nat, name: string) {
    match word
    case Ref(list) => Expand(lines, list, depth).Words? && name in Expand(lines, list, depth).words
    case _ => Spelled(word) == name
  }

  /** The prerequisites a rule's words come to, unless a name leads too deep. */
  lemma {:induction false} PrerequisitesAreGiven(lines: seq<Line>, words: seq<Word>, depth: nat, name: string)
    ensures !PrereqWords(lines, words, depth).Unreadable?
    ensures PrereqWords(lines, words, depth).TooDeep? <==>
              exists i | 0 <= i < |words| :: words[i].Ref? && Expand(lines, words[i].name, depth).TooDeep?
    ensures PrereqWords(lines, words, depth).Words? ==>
              (name in PrereqWords(lines, words, depth).words <==> exists i | 0 <= i < |words| :: Gives(lines, words[i], depth, name))
    decreases |words|
  {
    hide Expand;
    if words != [] {
      var n := |words| - 1;
      PrerequisitesAreGiven(lines, words[..n], depth, name);
      assert words == words[..n] + [words[n]];
    }
  }

  /** Where one line is a rule for a target, with one colon, its prerequisites are
      what the words of that line come to. */
  lemma OnlyRuleIsRead(lines: seq<Line>, target: string, k: nat, depth: nat)
    requires k < |lines| && lines[k].form == Rule(target, false)
    requires forall i | 0 <= i < |lines| && i != k :: !IsRuleFor(lines[i], target)
    ensures Prereqs(lines, target, depth) == PrereqWords(lines, Captured(lines, k), depth)
  {
    RulesStartAt(lines, target, 0, k);
  }

  /** A rule without prerequisites is read on: its prerequisites are the words of the
      next line that has any, and that line is no rule any more. */
  lemma EmptyRulesReadOn(lines: seq<Line>, target: string, k: nat, next: nat, depth: nat)
    requires k < next < |lines| && lines[k].form == Rule(target, false) && lines[k].value == []
    requires lines[next].words != [] && forall i | k < i < next :: lines[i].words == []
    requires forall i | 0 <= i < |lines| && i != k && i != next :: !IsRuleFor(lines[i], target)
    ensures Prereqs(lines, target, depth) == PrereqWords(lines, lines[next].words, depth)
  {
    NextWordedIs(lines, k + 1, next);
    NoRulesFrom(lines, target, next + 1);
    RulesStartWith(lines, target, 0, k);
    ReadsOnTo(lines, k + 1, next);
  }

  lemma {:induction false} NextWordedIs(lines: seq<Line>, k: nat, next: nat)
    requires k <= next < |lines| && lines[next].words != [] && forall i | k <= i < next :: lines[i].words == []
    ensures NextWorded(lines, k) == next
    decreases next - k
  {
    if k < next { NextWordedIs(lines, k + 1, next); }
  }

  lemma {:induction false} ReadsOnTo(lines: seq<Line>, k: nat, next: nat)
    requires k <= next < |lines| && lines[next].words != [] && forall i | k <= i < next :: lines[i].words == []
    ensures ReadOn(lines[k..]) == lines[next].words
    decreases next - k
  {
    if k < next {
      assert lines[k..][1..] == lines[k + 1..];
      ReadsOnTo(lines, k + 1, next);
    }
  }

  lemma {:induction false} RulesStartWith(lines: seq<Line>, target: string, from: nat, k: nat)
    requires from <= k < |lines| && forall i | from <= i < k :: !IsRuleFor(lines[i], target)
    ensures RulesFrom(lines, target, from) == RulesFrom(lines, target, k)
    decreases k - from
  {
    if from < k { RulesStartWith(lines, target, from + 1, k); }
  }

  lemma {:induction false} RulesStartAt(lines: seq<Line>, target: string, from: nat, k: nat)
    requires from <= k < |lines| && IsRuleFor(lines[k], target)
    requires forall i | from <= i < |lines| && i != k :: !IsRuleFor(lines[i], target)
    ensures RulesFrom(lines, target, from) == [k]
    decreases k - from
  {
    if from < k {
      RulesStartAt(lines, target, from + 1, k);
    } else {
      var next := if lines[k].value == [] then NextWorded(lines, k + 1) + 1 else k + 1;
      NoRulesFrom(lines, target, next);
    }
  }

  lemma {:induction false} NoRulesFrom(lines: seq<Line>, target: string, k: nat)
    requires forall i | k <= i < |lines| :: !IsRuleFor(lines[i], target)
    ensures RulesFrom(lines, target, k) == []
    decreases |lines| - k
  {
    if k < |lines| { NoRulesFrom(lines, target, k + 1); }
  }

  lemma {:induction false} PrereqsStopAt(lines: seq<Line>, words: seq<Word>, i: nat, depth: nat)
    requires i < |words| && PrereqWords(lines, words[..i], depth).Words? && ExpandWord(lines, words[i], depth).TooDeep?
    ensures PrereqWords(lines, words, depth).TooDeep?
    decreases |words|
  {
    var n := |words| - 1;
    if i < n {
      assert words[..n][..i] == words[..i];
      PrereqsStopAt(lines, words[..n], i, depth);
    }
  }

  method MakePrereqs(lines: seq<Line>, target: string, depth: nat) returns (r: Reading)
    ensures r == Prereqs(lines, target, depth)
  {
    var rules := RulesFrom(lines, target, 0);
    if |rules| != 1 { return Unreadable; }
    assert rules[0] in rules;
    if lines[rules[0]].form.double { return Unreadable; }
    var words := Captured(lines, rules[0]);
    var expanded := [];
    for i := 0 to |words|
      invariant PrereqWords(lines, words[..i], depth) == Words(expanded)
    {
      assert words[..i + 1][..i] == words[..i];
      match words[i]
      case Ref(name) =>
        var sub := MakeList(lines, name, depth);
        match sub {
          case Words(more) => expanded := expanded + more;
          case Unreadable =>
          case TooDeep =>
            PrereqsStopAt(lines, words, i, depth);
            return TooDeep;
        }
      case _ =>
        expanded := expanded + [Spelled(words[i])];
    }
    assert words[..|words|] == words;
    r := Words(expanded);
  }

  // ---- The checks --------------------------------------------------------

  datatype Failure =
    | VersionLowered | VersionJumped | ListUnreadable | GatesDropped(gates: seq<string>)
    | PrerequisitesDropped(target: string, names: seq<string>)

  // A file that has to be there and is not, or a list that refers to itself, ends
  // the check with an uncaught error: the commit does not pass.
  datatype Finding = Crashed | Found(failures: seq<Failure>)

  /** Zero, or no version at all, counts as one. */
  function Version(policy: Option<int>): (version: int)
    ensures version != 0 && (version == 1 || policy == Some(version))
    ensures policy.Some? && policy.value != 0 ==> version == policy.value
  {
    if policy.None? || policy.value == 0 then 1 else policy.value
  }

  function Dropped(was: seq<string>, now: seq<string>): (dropped: seq<string>)
    ensures forall gate :: gate in dropped <==> gate in was && gate !in now
    ensures dropped == [] <==> forall gate | gate in was :: gate in now
  {
    if was == [] then []
    else (if was[0] in now then [] else [was[0]]) + Dropped(was[1..], now)
  }

  /** The names a reading protects. */
  function Known(reading: Reading): set<string> {
    if reading.Words? then set name | name in reading.words else {}
  }

  lemma DroppedIsUncovered(was: Reading, now: Reading)
    requires was.Words?
    ensures Dropped(was.words, if now.Words? then now.words else []) == [] <==> Known(was) <= Known(now)
  {
    assert forall gate | gate in was.words :: gate in Known(was);
    assert forall gate :: gate in Known(now) <==> gate in (if now.Words? then now.words else []);
  }

  predicate NameDefined(lines: seq<Line>, name: string) {
    exists i | 0 <= i < |lines| :: Leads(lines[i].form, name)
  }

  predicate Leads(form: Form, name: string) {
    match form
    case Assign(n) => n == name
    case OtherBinding(n, leads, _) => leads && n == name
    case HiddenBinding(n, leads, _) => leads && n == name
    case Include => false
    case Rule(target, _) => target == name
    case Else(first) => first == name
  }

  /** Does the commit advance the policy version by exactly one? */
  predicate Resets(base: Tree, now: Tree) {
    base.policy.Some? && now.policy.Some? && Version(now.policy.value) == Version(base.policy.value) + 1
  }

  predicate VersionHolds(base: Tree, now: Tree) {
    base.policy.Some? ==>
      now.policy.Some? && Version(base.policy.value) <= Version(now.policy.value) <= Version(base.policy.value) + 1
  }

  predicate Covers(was: Reading, now: Reading) { !now.TooDeep? && Known(was) <= Known(now) }

  predicate GatesHold(base: Tree, now: Tree, depth: nat) {
    base.makefile.Some? ==>
      match Expand(base.makefile.value, CI_GATES, depth)
      case TooDeep => false
      case Unreadable => Resets(base, now) || !NameDefined(base.makefile.value, CI_GATES)
      case Words(_) =>
        Resets(base, now)
        || (now.makefile.Some?
            && Covers(Expand(base.makefile.value, CI_GATES, depth), Expand(now.makefile.value, CI_GATES, depth)))
  }

  predicate ChainHolds(base: seq<Line>, now: seq<Line>, target: string, reset: bool, depth: nat) {
    match Prereqs(base, target, depth)
    case TooDeep => false
    case Unreadable => true
    case Words(_) => reset || Covers(Prereqs(base, target, depth), Prereqs(now, target, depth))
  }

  predicate ChainsHold(base: Tree, now: Tree, depth: nat) {
    base.makefile.Some? ==>
      now.makefile.Some?
      && forall i | 0 <= i < |TARGETS| ::
           ChainHolds(base.makefile.value, now.makefile.value, TARGETS[i], Resets(base, now), depth)
  }

  /** May the commit stand on its base, as far as these checks go? */
  predicate Accepts(base: Tree, now: Tree, depth: nat) {
    VersionHolds(base, now) && GatesHold(base, now, depth) && ChainsHold(base, now, depth)
  }

  method CheckVersion(base: Tree, now: Tree, failures: seq<Failure>) returns (finding: Finding, reset: bool)
    ensures finding.Found? ==> failures <= finding.failures && reset == Resets(base, now)
    ensures finding == Found(failures) <==> VersionHolds(base, now)
  {
    if base.policy.None? { return Found(failures), false; }
    if now.policy.None? { return Crashed, false; }
    var was, next := Version(base.policy.value), Version(now.policy.value);
    if next < was { return Found(failures + [VersionLowered]), false; }
    if next > was + 1 { return Found(failures + [VersionJumped]), false; }
    return Found(failures), next == was + 1;
  }

  method CheckGates(base: Tree, now: Tree, failures: seq<Failure>, reset: bool, depth: nat) returns (finding: Finding)
    requires reset == Resets(base, now)
    ensures finding.Found? ==> failures <= finding.failures
    ensures finding == Found(failures) <==> GatesHold(base, now, depth)
  {
    if base.makefile.None? { return Found(failures); }
    var was := MakeList(base.makefile.value, CI_GATES, depth);
    if was.TooDeep? { return Crashed; }
    if was.Unreadable? {
      if NameDefined(base.makefile.value, CI_GATES) && !reset { return Found(failures + [ListUnreadable]); }
      return Found(failures);
    }
    if reset { return Found(failures); }
    if now.makefile.None? { return Crashed; }
    var next := MakeList(now.makefile.value, CI_GATES, depth);
    if next.TooDeep? { return Crashed; }
    DroppedIsUncovered(was, next);
    var dropped := Dropped(was.words, if next.Words? then next.words else []);
    if dropped != [] { return Found(failures + [GatesDropped(dropped)]); }
    finding := Found(failures);
  }

  method CheckChains(base: Tree, now: Tree, failures: seq<Failure>, reset: bool, depth: nat) returns (finding: Finding)
    requires reset == Resets(base, now)
    ensures finding.Found? ==> failures <= finding.failures
    ensures finding == Found(failures) <==> ChainsHold(base, now, depth)
  {
    if base.makefile.None? { return Found(failures); }
    if now.makefile.None? { return Crashed; }
    var found := failures;
    for i := 0 to |TARGETS|
      invariant failures <= found
      invariant found == failures <==>
                forall k | 0 <= k < i :: ChainHolds(base.makefile.value, now.makefile.value, TARGETS[k], reset, depth)
    {
      var dropped := [];
      var was := MakePrereqs(base.makefile.value, TARGETS[i], depth);
      if was.TooDeep? { return Crashed; }
      if was.Words? && !reset {
        var next := MakePrereqs(now.makefile.value, TARGETS[i], depth);
        if next.TooDeep? { return Crashed; }
        DroppedIsUncovered(was, next);
        dropped := Dropped(was.words, if next.Words? then next.words else []);
      }
      assert dropped == [] <==> ChainHolds(base.makefile.value, now.makefile.value, TARGETS[i], reset, depth);
      if dropped != [] { found := found + [PrerequisitesDropped(TARGETS[i], dropped)]; }
    }
    finding := Found(found);
  }

  /** The gate: it passes exactly the commits that may stand. */
  method Check(base: Tree, now: Tree, depth: nat) returns (finding: Finding)
    ensures finding == Found([]) <==> Accepts(base, now, depth)
  {
    var reset;
    finding, reset := CheckVersion(base, now, []);
    if finding.Crashed? { return; }
    finding := CheckGates(base, now, finding.failures, reset, depth);
    if finding.Crashed? { return; }
    finding := CheckChains(base, now, finding.failures, reset, depth);
  }

  // ---- What a run of accepted commits keeps -------------------------------

  function Gates(tree: Tree, depth: nat): Reading {
    if tree.makefile.Some? then Expand(tree.makefile.value, CI_GATES, depth) else Unreadable
  }

  function Chain(tree: Tree, target: string, depth: nat): Reading {
    if tree.makefile.Some? then Prereqs(tree.makefile.value, target, depth) else Unreadable
  }

  ghost predicate Accepted(run: seq<Tree>, depth: nat) {
    forall i | 0 < i < |run| :: Accepts(run[i - 1], run[i], depth)
  }

  function CountResets(run: seq<Tree>): nat {
    if |run| <= 1 then 0
    else CountResets(run[..|run| - 1]) + if Resets(run[|run| - 2], run[|run| - 1]) then 1 else 0
  }

  /** A list that is there, on whatever line begins with its name, and that cannot
      be read, holds a commit up until the version is raised. */
  lemma UnreadListsNeedAReset(base: Tree, now: Tree, k: nat, depth: nat)
    requires base.makefile.Some? && k < |base.makefile.value| && Gates(base, depth).Unreadable?
    requires match base.makefile.value[k].form
             case Assign(name) => name == "CI_GATES"
             case OtherBinding(name, leads, _) => leads && name == "CI_GATES"
             case HiddenBinding(name, leads, _) => leads && name == "CI_GATES"
             case Rule(target, _) => target == "CI_GATES"
             case Else(first) => first == "CI_GATES"
             case Include => false
    requires Accepts(base, now, depth)
    ensures Resets(base, now)
  {
    assert Leads(base.makefile.value[k].form, CI_GATES);
  }

  /** Nothing is lost from one commit to the next without a reset. */
  lemma StepKeeps(base: Tree, now: Tree, depth: nat)
    requires Accepts(base, now, depth) && !Resets(base, now)
    ensures Known(Gates(base, depth)) <= Known(Gates(now, depth))
    ensures forall i | 0 <= i < |TARGETS| :: Known(Chain(base, TARGETS[i], depth)) <= Known(Chain(now, TARGETS[i], depth))
  {
    if base.makefile.Some? {
      forall i | 0 <= i < |TARGETS| ensures Known(Chain(base, TARGETS[i], depth)) <= Known(Chain(now, TARGETS[i], depth)) {
        assert ChainHolds(base.makefile.value, now.makefile.value, TARGETS[i], false, depth);
      }
    }
  }

  /** The policy version rises by exactly the number of resets. */
  lemma {:induction false} VersionCountsResets(run: seq<Tree>, depth: nat)
    requires Accepted(run, depth) && run != [] && run[0].policy.Some?
    ensures run[|run| - 1].policy.Some?
    ensures Version(run[|run| - 1].policy.value) == Version(run[0].policy.value) + CountResets(run)
  {
    if |run| > 1 {
      var front := run[..|run| - 1];
      VersionCountsResets(front, depth);
      assert Accepts(run[|run| - 2], run[|run| - 1], depth);
    }
  }

  /** Over any run of accepted commits at one policy version, no gate and no
      prerequisite that was ever read is lost. */
  lemma NothingIsLost(run: seq<Tree>, depth: nat)
    requires Accepted(run, depth) && run != [] && run[0].policy.Some?
    requires run[|run| - 1].policy.Some? ==> Version(run[|run| - 1].policy.value) == Version(run[0].policy.value)
    ensures Known(Gates(run[0], depth)) <= Known(Gates(run[|run| - 1], depth))
    ensures forall target | target in ["ci", "verify", "security", "verify-quick", "verify-coverage", "verify-mutation",
                                       "verify-security", "security-static", "ci-hosted"] ::
              Known(Chain(run[0], target, depth)) <= Known(Chain(run[|run| - 1], target, depth))
  {
    TargetsAreKept(run, depth);
    forall target | target in TARGETS ensures Known(Chain(run[0], target, depth)) <= Known(Chain(run[|run| - 1], target, depth)) {
      var i :| 0 <= i < |TARGETS| && TARGETS[i] == target;
    }
  }

  lemma {:induction false} TargetsAreKept(run: seq<Tree>, depth: nat)
    requires Accepted(run, depth) && run != [] && run[0].policy.Some?
    requires run[|run| - 1].policy.Some? ==> Version(run[|run| - 1].policy.value) == Version(run[0].policy.value)
    ensures Known(Gates(run[0], depth)) <= Known(Gates(run[|run| - 1], depth))
    ensures forall i | 0 <= i < |TARGETS| ::
              Known(Chain(run[0], TARGETS[i], depth)) <= Known(Chain(run[|run| - 1], TARGETS[i], depth))
  {
    if |run| > 1 {
      var front := run[..|run| - 1];
      VersionCountsResets(run, depth);
      VersionCountsResets(front, depth);
      assert CountResets(run) == 0;
      TargetsAreKept(front, depth);
      assert Accepts(run[|run| - 2], run[|run| - 1], depth);
      StepKeeps(run[|run| - 2], run[|run| - 1], depth);
    }
  }

  lemma {:induction false} MakefilesStay(run: seq<Tree>, depth: nat)
    requires Accepted(run, depth) && run != [] && run[0].makefile.Some?
    ensures run[|run| - 1].makefile.Some?
  {
    if |run| > 1 {
      MakefilesStay(run[..|run| - 1], depth);
      assert Accepts(run[|run| - 2], run[|run| - 1], depth);
    }
  }

  /** The gates make runs for certain. */
  function CertainGates(lines: seq<Line>): set<string> { Certain(lines, CI_GATES, |lines|) }

  /** The words that are read as gates and that make may not have. */
  function Unsure(lines: seq<Line>, depth: nat): set<string> {
    Known(Expand(lines, CI_GATES, depth)) - CertainGates(lines)
  }

  /** Of a list that is read as make sees it, every word is certain. */
  lemma FaithfulIsSure(lines: seq<Line>, depth: nat)
    requires Expand(lines, CI_GATES, depth).Words? && Faithful(lines, CI_GATES, |lines|, depth)
    ensures Known(Expand(lines, CI_GATES, depth)) == CertainGates(lines)
  {
    forall gate ensures gate in Known(Expand(lines, CI_GATES, depth)) <==> gate in CertainGates(lines) {
      FaithfulIsMade(lines, CI_GATES, |lines|, depth, Quiet);
      CertainIsMade(lines, CI_GATES, |lines|, Quiet, gate);
    }
  }

  /** Every gate make ran for certain, it still does. */
  ghost predicate KeepsEveryGate(base: seq<Line>, now: seq<Line>) {
    forall gate | AlwaysHas(base, CI_GATES, gate) :: AlwaysHas(now, CI_GATES, gate)
  }

  /** Over a run at one version, from a list that is read as make sees it, make
      keeps every gate exactly when the last Makefile leaves none of them unsure. */
  lemma MakeKeepsEveryGateIff(run: seq<Tree>, depth: nat)
    requires Accepted(run, depth) && run != [] && run[0].policy.Some?
    requires run[|run| - 1].policy.Some? ==> Version(run[|run| - 1].policy.value) == Version(run[0].policy.value)
    requires Gates(run[0], depth).Words? && Faithful(run[0].makefile.value, CI_GATES, |run[0].makefile.value|, depth)
    ensures run[|run| - 1].makefile.Some?
    ensures var first, last := run[0].makefile.value, run[|run| - 1].makefile.value;
            KeepsEveryGate(first, last) <==> Known(Expand(first, CI_GATES, depth)) !! Unsure(last, depth)
  {
    NothingIsLost(run, depth);
    MakefilesStay(run, depth);
    var first, last := run[0].makefile.value, run[|run| - 1].makefile.value;
    FaithfulIsSure(first, depth);
    forall gate ensures AlwaysHas(first, CI_GATES, gate) <==> gate in Known(Expand(first, CI_GATES, depth)) {
      CertainIsInEveryWorld(first, CI_GATES, gate);
    }
    forall gate ensures AlwaysHas(last, CI_GATES, gate) <==> gate in CertainGates(last) {
      CertainIsInEveryWorld(last, CI_GATES, gate);
    }
  }

  /** In particular where the last Makefile, too, is read as make sees it. */
  lemma MakeLosesNoGate(run: seq<Tree>, depth: nat)
    requires Accepted(run, depth) && run != [] && run[0].policy.Some?
    requires run[|run| - 1].policy.Some? ==> Version(run[|run| - 1].policy.value) == Version(run[0].policy.value)
    requires Gates(run[0], depth).Words? && Faithful(run[0].makefile.value, CI_GATES, |run[0].makefile.value|, depth)
    requires run[|run| - 1].makefile.Some? && Gates(run[|run| - 1], depth).Words?
    requires Faithful(run[|run| - 1].makefile.value, CI_GATES, |run[|run| - 1].makefile.value|, depth)
    ensures KeepsEveryGate(run[0].makefile.value, run[|run| - 1].makefile.value)
  {
    FaithfulIsSure(run[|run| - 1].makefile.value, depth);
    MakeKeepsEveryGateIff(run, depth);
  }

  /** Such a commit: the lists are read, the version stays, and nothing read is
      dropped. */
  function AtOne(lines: seq<Line>): Tree { Tree(Some(lines), Some(Some(1))) }

  lemma ListCommitPasses(base: seq<Line>, now: seq<Line>, was: seq<string>, next: seq<string>)
    requires Expand(base, CI_GATES, 1) == Words(was) && Expand(now, CI_GATES, 1) == Words(next)
    requires forall gate | gate in was :: gate in next
    requires forall k | 0 <= k < |base| :: !base[k].form.Rule?
    ensures Accepts(AtOne(base), AtOne(now), 1) && !Resets(AtOne(base), AtOne(now))
  {
    forall i | 0 <= i < |TARGETS| ensures ChainHolds(base, now, TARGETS[i], false, 1) {
      NoRulesFrom(base, TARGETS[i], 0);
    }
    hide Expand, ChainHolds;
    assert Known(Words(was)) <= Known(Words(next));
  }

  lemma CertaintyDecides(base: seq<Line>, now: seq<Line>, gate: string)
    requires gate in CertainGates(base) && gate !in CertainGates(now)
    ensures AlwaysHas(base, CI_GATES, gate) && !AlwaysHas(now, CI_GATES, gate)
  {
    CertainIsInEveryWorld(base, CI_GATES, gate);
    CertainIsInEveryWorld(now, CI_GATES, gate);
  }

  /** Without that it is false: a gate may be commented out. Every word is still
      read, the version stays, the commit is accepted, and make loses the gate. */
  lemma CommentedOutGatesPass(kept: string, lost: string)
    requires kept != lost
    ensures var base := [Assigned(CI_GATES, [Literal(kept), Literal(lost)])];
            var now := [Assigned(CI_GATES, [Literal(kept), Comment("", "", false), Literal(lost)])];
            && Accepts(AtOne(base), AtOne(now), 1) && !Resets(AtOne(base), AtOne(now))
            && AlwaysHas(base, CI_GATES, lost) && !AlwaysHas(now, CI_GATES, lost)
  {
    var before, after := [Literal(kept), Literal(lost)], [Literal(kept), Comment("", "", false), Literal(lost)];
    var base, now := [Assigned(CI_GATES, before)], [Assigned(CI_GATES, after)];
    assert "" + "#" + "" == "#";
    OneListReads(CI_GATES, before, [kept, lost]);
    OneListReads(CI_GATES, after, [kept, "#", lost]);
    CertainOfTwo(before, Literal(lost));
    CertainOfTwo(after, Comment("", "", false));
    hide Expand, Certain, AlwaysHas, Accepts, Resets, CertainGates;
    ListCommitPasses(base, now, [kept, lost], [kept, "#", lost]);
    CertaintyDecides(base, now, lost);
  }

  /** And an override may be put above it, indented: it is not read, the list is
      accepted as it stands, and make keeps to the override. */
  lemma OverriddenGatesPass(kept: string, lost: string)
    ensures var list := Assigned(CI_GATES, [Literal(kept), Literal(lost)]);
            var hidden := Line(HiddenBinding(CI_GATES, false, true), false, false, [Literal("override")], []);
            && Accepts(AtOne([list]), AtOne([hidden, list]), 1) && !Resets(AtOne([list]), AtOne([hidden, list]))
            && AlwaysHas([list], CI_GATES, lost) && !AlwaysHas([hidden, list], CI_GATES, lost)
  {
    var list := Assigned(CI_GATES, [Literal(kept), Literal(lost)]);
    var hidden := Line(HiddenBinding(CI_GATES, false, true), false, false, [Literal("override")], []);
    OneListReads(CI_GATES, list.value, [kept, lost]);
    HiddenLinesAreNotRead(hidden, list, [kept, lost]);
    CertainOfTwo(list.value, Literal(lost));
    NothingIsCertainBelow(hidden, list);
    hide Expand, Certain, AlwaysHas, Accepts, Resets, CertainGates;
    ListCommitPasses([list], [hidden, list], [kept, lost], [kept, lost]);
    CertaintyDecides([list], [hidden, list], lost);
  }

  lemma NothingIsCertainBelow(hidden: Line, list: Line)
    requires MayPin(hidden, CI_GATES) && Plain(list, CI_GATES)
    ensures CertainGates([hidden, list]) == {}
  {
    assert MayPin([hidden, list][0], CI_GATES);
  }

  lemma HiddenLinesAreNotRead(hidden: Line, list: Line, read: seq<string>)
    requires hidden.form.HiddenBinding? && list.form == Assign(CI_GATES) && list.value != []
    requires Expand([list], CI_GATES, 1) == Words(read) && forall word | word in list.value :: !word.Ref?
    ensures Expand([hidden, list], CI_GATES, 1) == Words(read)
  {
    var lines := [hidden, list];
    assert lines[1..] == [list] && [list][1..] == [];
    assert IndexOf([list], Assign(CI_GATES)) == 0 && IndexOf(lines, Assign(CI_GATES)) == 1;
    SpellingIsLocal(lines, [list], list.value);
  }

  /** Words without references read alike in any file. */
  lemma {:induction false} SpellingIsLocal(lines: seq<Line>, others: seq<Line>, words: seq<Word>)
    requires forall word | word in words :: !word.Ref?
    ensures ExpandWords(lines, words, 0) == ExpandWords(others, words, 0)
    decreases |words|
  {
    if words != [] { SpellingIsLocal(lines, others, words[..|words| - 1]); }
  }

  lemma CertainOfTwo(value: seq<Word>, second: Word)
    requires |value| >= 2 && value[0].Literal? && value[1] == second && (Ends(second) || (|value| == 2 && second.Literal?))
    ensures CertainGates([Assigned(CI_GATES, value)])
         == {value[0].text} + CertainWord([Assigned(CI_GATES, value)], second, 0)
  {
    assert Seen(value) == [value[0], second] by { assert Seen(value[1..])[0] == second; }
    TwoWordsAreCertain([Assigned(CI_GATES, value)], value[0], second, 0);
  }

  /** A commit that changes nothing passes, unless its own list cannot be read, or
      a name leads back to itself. */
  lemma UnchangedPassesIff(tree: Tree, depth: nat)
    ensures Accepts(tree, tree, depth) <==>
      (tree.makefile.Some? ==>
         && !Gates(tree, depth).TooDeep? && (Gates(tree, depth).Words? || !NameDefined(tree.makefile.value, CI_GATES))
         && forall i | 0 <= i < |TARGETS| :: !Chain(tree, TARGETS[i], depth).TooDeep?)
  {
    if tree.makefile.Some? {
      forall i | 0 <= i < |TARGETS|
        ensures ChainHolds(tree.makefile.value, tree.makefile.value, TARGETS[i], false, depth)
           <==> !Chain(tree, TARGETS[i], depth).TooDeep?
      {
      }
    }
  }
}
