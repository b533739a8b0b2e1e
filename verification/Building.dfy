/** The build run of the workflow driver: from one converged issue to an approved
    pull request. What the agents, the tests and the other branches do is
    arbitrary; what the driver lets pass is not. */
module Building {

  // A commit is its whole history.
  datatype Commit = Commit(parents: seq<Commit>, tag: nat)

  predicate Contains(c: Commit, other: Commit) {
    c == other || exists i | 0 <= i < |c.parents| :: Contains(c.parents[i], other)
  }

  lemma {:induction false} ContainsIsTransitive(a: Commit, b: Commit, c: Commit)
    requires Contains(a, b) && Contains(b, c)
    ensures Contains(a, c)
  {
    if a != b {
      var i :| 0 <= i < |a.parents| && Contains(a.parents[i], b);
      ContainsIsTransitive(a.parents[i], b, c);
    }
  }

  /** A clean merge: a fast forward where one side has it all. */
  function Merged(ours: Commit, theirs: Commit, tag: nat): Commit {
    if Contains(ours, theirs) then ours
    else if Contains(theirs, ours) then theirs
    else Commit([ours, theirs], tag)
  }

  /** A clean merge loses no work of either side. */
  lemma MergedContainsBoth(ours: Commit, theirs: Commit, tag: nat, older: Commit)
    requires Contains(ours, older) || Contains(theirs, older)
    ensures Contains(Merged(ours, theirs, tag), older)
    ensures Contains(ours, theirs) ==> Merged(ours, theirs, tag) == ours
    ensures Contains(theirs, ours) && !Contains(ours, theirs) ==> Merged(ours, theirs, tag) == theirs
  {
    var merged := Merged(ours, theirs, tag);
    if merged == Commit([ours, theirs], tag) {
      assert merged.parents[0] == ours && merged.parents[1] == theirs;
    } else if Contains(ours, theirs) {
      if Contains(theirs, older) { ContainsIsTransitive(ours, theirs, older); }
    } else if Contains(ours, older) {
      ContainsIsTransitive(theirs, ours, older);
    }
  }

  // 0 done, 1 an uncaught failure, 2 no pull request, 3 not approved, 5 no clone,
  // 6 still a draft, 7 tests still failing, 8 work not pushed, 10 behind master.
  datatype Outcome = Going | Exit(code: nat)

  datatype CiRun = CiRun(head: Commit, passed: bool)

  /** What the run meets and cannot choose: which of its commands work, in the order
      they are given; whether the draft is found, each time it is looked for; whether
      its branch can be checked out; which test runs pass; and whether the approval
      is there, each time it is looked for. */
  datatype World = World(
    works: nat -> bool, finds: nat -> bool, checksOut: bool, passes: nat -> bool, approves: nat -> bool)

  /** The clone, the pull request, and what the driver keeps of its own runs. */
  class Build {
    const w: World
    var commands: nat                 // how many commands have been given
    var asked: nat                    // how often the approval has been looked for
    var head: Commit
    var prHead: Commit
    var master: Commit                // origin/master as last fetched
    var dirty: bool
    var isDraft: bool
    var ciRuns: seq<CiRun>
    ghost var base: Commit            // the master the branch was last compared with
    ghost var reviews: seq<Commit>    // the pull request's head at each review
    ghost var devinTurns: nat
    ghost var approved: bool          // was the approval seen after the last review?
    ghost var failed: bool            // did the last command fail?

    constructor (w: World)
      ensures ciRuns == [] && reviews == [] && asked == 0 && !approved && devinTurns == 0 && !failed && this.w == w
    {
      this.w, commands, asked, failed := w, 0, 0, false;
      ciRuns, reviews, approved, isDraft, devinTurns := [], [], false, true, 0;
      head, prHead, master, base, dirty := *, *, *, *, *;
    }

    /** The driver's last test run passed, on the commit that is checked out, and
        that commit is the pull request's head. */
    ghost predicate Passing()
      reads this
    {
      ciRuns != [] && ciRuns[|ciRuns| - 1] == CiRun(head, true) && head == prHead
    }

    /** The repair did not help. */
    ghost predicate FailedTwice()
      reads this
    {
      |ciRuns| >= 2 && !ciRuns[|ciRuns| - 2].passed && !ciRuns[|ciRuns| - 1].passed
    }

    /** There is work that the pull request does not have. */
    ghost predicate Unpushed()
      reads this
    {
      dirty || head != prHead
    }

    /** A command that must work, or the run ends with it. */
    method Command() returns (r: Outcome)
      requires !failed
      modifies this`commands, this`failed
      ensures r == (if w.works(old(commands)) then Going else Exit(1)) && commands == old(commands) + 1
      ensures failed <==> r == Exit(1)
    {
      r := if w.works(commands) then Going else Exit(1);
      commands, failed := commands + 1, r == Exit(1);
    }

    /** Devin may do anything to the branch, the pull request and the clone. */
    method DevinTurn() returns (r: Outcome)
      requires !failed
      modifies this`head, this`prHead, this`master, this`dirty, this`isDraft, this`devinTurns, this`commands, this`failed
      ensures r == Going || r == Exit(1)
      ensures failed <==> r == Exit(1)
      ensures devinTurns == old(devinTurns) + 1
    {
      head, prHead, master, dirty, isDraft := *, *, *, *, *;
      devinTurns := devinTurns + 1;
      r := Command();
    }

    /** The code reviewer is only ever shown a pull request whose head has passed. */
    method ReviewerTurn() returns (r: Outcome)
      requires Passing() && !failed
      modifies this`reviews, this`approved, this`commands, this`failed
      ensures r == Going || r == Exit(1)
      ensures failed <==> r == Exit(1)
      ensures reviews == old(reviews) + [prHead] && !approved
    {
      reviews, approved := reviews + [prHead], false;
      r := Command();
    }

    method Fetch() returns (r: Outcome)
      requires !failed
      modifies this`master, this`commands, this`failed
      ensures r == Going || r == Exit(1)
      ensures failed <==> r == Exit(1)
    {
      master := *;
      r := Command();
    }

    /** Find the issue's draft, or have it opened, and check its branch out. The
        draft is looked for once, and six times more when it has been opened. */
    method OpenDraft() returns (r: Outcome)
      requires !failed
      modifies this`head, this`prHead, this`master, this`dirty, this`isDraft, this`commands, this`failed
      ensures r == Going || r.code in {1, 2, 5}
      ensures failed <==> r == Exit(1)
      ensures r == Going ==> w.checksOut && exists k | 0 <= k < 7 :: w.finds(k)
      ensures r == Exit(2) ==> forall k | 0 <= k < 7 :: !w.finds(k)
      ensures r == Exit(5) ==> !w.checksOut
    {
      var found := w.finds(0);
      if !found {
        r := Command();
        if r.Exit? { return; }
        for i := 0 to 6
          invariant !found && forall k | 0 <= k <= i :: !w.finds(k)
        {
          found := w.finds(i + 1);
          if found { break; }
        }
      }
      if !found { return Exit(2); }
      r := Fetch();
      if r.Exit? { return; }
      if !w.checksOut { return Exit(5); }
      head, prHead, dirty, isDraft := *, *, *, *;
    }

    /** Never rely on work that is not in the pull request. */
    method RequireCommittedAndPushed() returns (r: Outcome)
      requires !failed
      modifies this`commands, this`failed
      ensures r == Going ==> !Unpushed()
      ensures r == Exit(8) ==> Unpushed()
      ensures failed <==> r == Exit(1)
      ensures r == Going || r.code in {1, 8}
    {
      if dirty { return Exit(8); }
      r := Command();
      if r == Going && head != prHead { r := Exit(8); }
    }

    method RunMakeCi() returns (passed: bool)
      modifies this`ciRuns, this`dirty
      ensures passed == w.passes(|old(ciRuns)|) && ciRuns == old(ciRuns) + [CiRun(head, passed)]
    {
      passed := w.passes(|ciRuns|);
      dirty := *;
      ciRuns := ciRuns + [CiRun(head, passed)];
    }

    /** Test, with one repair; what gets through has passed as it stands. A first
        run that passes is all there is to it. After one that fails devin has a
        turn, and the second run decides, unless it does not come to that: a
        command failed, or devin left work unpushed. */
    method CiGate() returns (r: Outcome)
      requires head == prHead && !failed
      modifies this`head, this`prHead, this`master, this`dirty, this`isDraft, this`devinTurns, this`ciRuns
      modifies this`commands, this`failed
      ensures old(ciRuns) < ciRuns && ciRuns[|old(ciRuns)|] == CiRun(old(head), w.passes(|old(ciRuns)|))
      ensures w.passes(|old(ciRuns)|) ==>
                && r == Going && |ciRuns| == |old(ciRuns)| + 1 && devinTurns == old(devinTurns)
                && head == old(head) && master == old(master)
      ensures !w.passes(|old(ciRuns)|) ==>
                && devinTurns == old(devinTurns) + 1
                && (r == Exit(1) || r == Exit(8) ==> |ciRuns| == |old(ciRuns)| + 1)
                && (r == Going || r == Exit(7) ==>
                      |ciRuns| == |old(ciRuns)| + 2 && (r == Going <==> w.passes(|old(ciRuns)| + 1)))
      ensures r == Going ==> Passing()
      ensures r == Exit(7) ==> FailedTwice()
      ensures r == Exit(8) ==> Unpushed()
      ensures failed <==> r == Exit(1)
      ensures r == Going || r.code in {1, 7, 8}
    {
      var passed := RunMakeCi();
      if passed { return Going; }
      r := DevinTurn();
      if r.Exit? { return; }
      r := RequireCommittedAndPushed();
      if r.Exit? { return; }
      passed := RunMakeCi();
      r := if passed then Going else Exit(7);
    }

    /** Bring the branch up to origin/master; says whether it had to move. A clean
        merge is the driver's and loses nothing, conflicts are devin's. */
    method SyncWithMaster() returns (r: Outcome, moved: bool, ghost byDevin: bool)
      requires head == prHead && !failed
      modifies this`head, this`prHead, this`master, this`dirty, this`isDraft, this`devinTurns, this`base
      modifies this`commands, this`failed
      ensures r == Going ==> head == prHead && Contains(head, base)
      ensures devinTurns == old(devinTurns) + if byDevin then 1 else 0
      ensures r == Going && !moved ==> head == old(head) && base == master
      ensures r == Going && !byDevin ==> Contains(head, old(head)) && base == master
      ensures r == Going && moved ==> !Contains(old(head), base)
      ensures r == Exit(10) ==> !Contains(head, base)
      ensures r == Exit(8) ==> Unpushed()
      ensures failed <==> r == Exit(1)
      ensures r == Going || r.code in {1, 8, 10}
    {
      moved, byDevin := false, false;
      r := Fetch();
      if r.Exit? { return; }
      base := master;
      var target := master;
      if Contains(head, target) { return; }
      moved := true;
      var conflicts, tag := *, *;
      if conflicts {
        r := Command();
        if r.Exit? { return; }
        byDevin := true;
        r := DevinTurn();
        if r.Exit? { return; }
        r := RequireCommittedAndPushed();
        if r.Exit? { return; }
        if !Contains(head, target) { r := Exit(10); }
      } else {
        MergedContainsBoth(head, master, tag, master);
        MergedContainsBoth(head, master, tag, head);
        head := Merged(head, master, tag);
        r := Command();
        if r.Exit? { return; }
        prHead := head;
      }
    }

    method Approves() returns (r: Outcome, approves: bool)
      requires !failed
      modifies this`approved, this`asked, this`commands, this`failed
      ensures approved == approves == w.approves(old(asked)) && asked == old(asked) + 1
      ensures r == Going || r == Exit(1)
      ensures failed <==> r == Exit(1)
    {
      approves := w.approves(asked);
      approved, asked := approves, asked + 1;
      r := Command();
    }

    /** At most three reviews, each of a head that has passed, and none after the
        first that approves. */
    method ReviewRounds() returns (r: Outcome)
      requires Passing() && reviews == [] && asked == 0 && !failed
      modifies this`head, this`prHead, this`master, this`dirty, this`isDraft, this`devinTurns, this`ciRuns, this`reviews, this`approved
      modifies this`asked, this`commands, this`failed
      ensures |reviews| <= 3 && |ciRuns| <= |old(ciRuns)| + 4
      ensures forall k | 0 <= k < |reviews| - 1 :: !w.approves(k)
      ensures r == Going ==> Passing() && approved && |reviews| >= 1 && w.approves(|reviews| - 1)
      ensures |reviews| <= devinTurns - old(devinTurns) + 1
      ensures r == Exit(3) ==> |reviews| == 3 && !approved && !w.approves(2)
      ensures r == Exit(7) ==> FailedTwice()
      ensures r == Exit(8) ==> Unpushed()
      ensures failed <==> r == Exit(1)
      ensures r == Going || r.code in {1, 3, 7, 8}
    {
      for round := 1 to 4
        invariant Passing() && |reviews| == round - 1 <= devinTurns - old(devinTurns)
        invariant |ciRuns| <= |old(ciRuns)| + 2 * (round - 1)
        invariant round <= 3 && !failed
        invariant asked == round - 1 && forall k | 0 <= k < round - 1 :: !w.approves(k)
      {
        r := ReviewerTurn();
        if r.Exit? { return; }
        var approves;
        r, approves := Approves();
        if r.Exit? || approves { return; }
        if round == 3 { break; }
        var before := head;
        r := DevinTurn();
        if r.Exit? { return; }
        r := RequireCommittedAndPushed();
        if r.Exit? { return; }
        if head != before {
          r := CiGate();
          if r.Exit? { return; }
        }
      }
      r := Exit(3);
    }

    /** The master it was last compared with is not in what is checked out, or was
        not in what the last test run was of. */
    ghost predicate Behind()
      reads this
    {
      !Contains(head, base) || (ciRuns != [] && !Contains(ciRuns[|ciRuns| - 1].head, base))
    }

    /** The draft, devin's implementation and self-review, and the work pushed. */
    method Implement() returns (r: Outcome)
      requires !failed
      modifies this`head, this`prHead, this`master, this`dirty, this`isDraft, this`devinTurns, this`commands, this`failed
      ensures r == Going ==> !Unpushed() && !isDraft && devinTurns == old(devinTurns) + 2
      ensures failed <==> r == Exit(1)
      ensures r == Exit(2) ==> forall k | 0 <= k < 7 :: !w.finds(k)
      ensures r == Exit(5) ==> !w.checksOut
      ensures r == Exit(6) ==> isDraft
      ensures r == Exit(8) ==> Unpushed()
      ensures r == Going || r.code in {1, 2, 5, 6, 8}
    {
      r := OpenDraft();
      if r.Exit? { return; }
      r := DevinTurn();
      if r.Exit? { return; }
      r := DevinTurn();
      if r.Exit? { return; }
      r := Command();
      if r.Exit? { return; }
      if isDraft { return Exit(6); }
      r := RequireCommittedAndPushed();
    }

    /** From a converged issue to a pull request. Getting to the end means: what is
        checked out is what the pull request offers, the driver's own last test
        run passed on it, it has everything origin/master had when last fetched,
        and the approval was seen. Every other end has its own cause. */
    method Run(clones: bool) returns (code: nat)
      requires ciRuns == [] && reviews == [] && asked == 0 && !approved && devinTurns == 0 && !failed
      modifies this
      ensures code == 0 ==> Passing() && Contains(head, master) && approved && devinTurns >= |reviews| + 1
      ensures |ciRuns| <= 8 && |reviews| <= 3
      ensures code == 1 <==> failed
      ensures code == 2 ==> forall k | 0 <= k < 7 :: !w.finds(k)
      ensures code == 3 ==> |reviews| == 3 && forall k | 0 <= k < 3 :: !w.approves(k)
      ensures code == 5 ==> !clones || !w.checksOut
      ensures code == 6 ==> isDraft
      ensures code == 7 ==> FailedTwice()
      ensures code == 8 ==> Unpushed()
      ensures code == 10 ==> Behind()
      ensures code in {0, 1, 2, 3, 5, 6, 7, 8, 10}
    {
      hide Contains, Passing;
      if !clones { return 5; }
      var r := Command();
      if r.Exit? { return r.code; }
      r := Implement();
      if r.Exit? { return r.code; }
      var moved;
      ghost var byDevin;
      r, moved, byDevin := SyncWithMaster();
      if r.Exit? { return r.code; }
      r := CiGate();
      if r.Exit? { return r.code; }
      r := ReviewRounds();
      if r.Exit? { return r.code; }
      code := Finish();
    }

    /** After the approval: one re-gate if master moved, and no second one. */
    method Finish() returns (code: nat)
      requires Passing() && approved && !failed
      modifies this`head, this`prHead, this`master, this`dirty, this`isDraft, this`devinTurns, this`base, this`ciRuns
      modifies this`commands, this`failed
      ensures |ciRuns| <= |old(ciRuns)| + 2 && devinTurns >= old(devinTurns)
      ensures code == 0 ==> Passing() && Contains(head, master)
      ensures code == 1 <==> failed
      ensures code == 7 ==> FailedTwice()
      ensures code == 8 ==> Unpushed()
      ensures code == 10 ==> Behind()
      ensures code in {0, 1, 7, 8, 10}
    {
      var r, moved, byDevin := SyncWithMaster();
      if r.Exit? { return r.code; }
      if moved {
        r := CiGate();
        if r.Exit? { return r.code; }
        r, moved, byDevin := SyncWithMaster();
        if r.Exit? { return r.code; }
        if moved { return 10; }
      }
      r := Command();
      if r.Exit? { return r.code; }
      r := Command();
      if r.Exit? { return r.code; }
      code := 0;
    }
  }
}
