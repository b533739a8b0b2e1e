/** The two walks that find team directories under a root: one lists teams, the
    other resolves a name to the directories it may stand for. */
module Teams {
  import opened Common
  import opened Ordering

  // What stat finds through a symbolic link; whatever it is, it is never entered.
  datatype Sight = Nothing | RegularFile | Directory(holdsRegistry: bool)

  datatype Node =
    | File
    | Link(sees: Sight)
    | Dir(readable: bool, order: seq<string>, entries: map<string, Node>)

  type Path = seq<string>

  const AGENTS := "agents"
  const WORKTREE := "worktree"
  const REGISTRY := "orchestrator_state.json"
  const SEARCH_DEPTH := 4

  predicate IsName(name: string) { name != "" && '/' !in name }

  /** A directory lists each of its entries once, in whatever order, and no name
      is empty or has a slash in it. */
  ghost predicate Proper(node: Node) {
    node.Dir? ==>
      && (forall name :: name in node.order <==> name in node.entries)
      && (forall i, k | 0 <= i < k < |node.order| :: node.order[i] != node.order[k])
      && (forall name | name in node.entries :: IsName(name) && Proper(node.entries[name]))
  }

  predicate SeesFile(node: Node) { node.File? || (node.Link? && node.sees.RegularFile?) }

  predicate SeesDir(node: Node) { node.Dir? || (node.Link? && node.sees.Directory?) }

  /** Does the directory hold a registry file? That makes it a team. */
  predicate IsTeam(dir: Node): (team: bool)
    requires dir.Dir?
    ensures team ==> "agents" in dir.entries && SeesDir(dir.entries["agents"])
    ensures "agents" in dir.entries && dir.entries["agents"].Dir? ==>
              var inside := dir.entries["agents"].entries;
              (team <==> "orchestrator_state.json" in inside && SeesFile(inside["orchestrator_state.json"]))
    ensures "agents" in dir.entries && dir.entries["agents"].Link? ==>
              (team <==> dir.entries["agents"].sees == Directory(true))
  {
    AGENTS in dir.entries &&
      match dir.entries[AGENTS]
      case Dir(_, _, inside) => REGISTRY in inside && SeesFile(inside[REGISTRY])
      case Link(sees) => sees.Directory? && sees.holdsRegistry
      case File => false
  }

  /** May the directory be named as a team, registry or not? */
  predicate IsCandidate(dir: Node): (candidate: bool)
    requires dir.Dir?
    ensures candidate <==> exists name | name in ["agents", "worktree"] :: name in dir.entries && SeesDir(dir.entries[name])
  {
    || (AGENTS in dir.entries && SeesDir(dir.entries[AGENTS]))
    || (WORKTREE in dir.entries && SeesDir(dir.entries[WORKTREE]))
  }

  datatype Verdict = Verdict(hit: bool, stop: bool)

  type Classifier = Node -> Verdict

  function ClassifyTeam(node: Node): Verdict {
    if node.Dir? then Verdict(IsTeam(node), IsTeam(node)) else Verdict(false, true)
  }

  function ClassifyCandidate(node: Node): Verdict {
    if node.Dir? then Verdict(IsCandidate(node), IsTeam(node)) else Verdict(false, true)
  }

  function Under(name: string, paths: seq<Path>): (r: seq<Path>)
    ensures |r| == |paths| && forall i | 0 <= i < |r| :: r[i] == [name] + paths[i]
  {
    seq(|paths|, i requires 0 <= i < |paths| => [name] + paths[i])
  }

  /** Depth first, below a directory whose children lie at `depth`; the paths are
      relative to it. */
  function Walk(dir: Node, depth: nat, classify: Classifier): seq<Path>
    decreases dir, 1, 0
  {
    if dir.Dir? && dir.readable then WalkEntries(dir, dir.order, depth, classify) else []
  }

  function WalkEntries(dir: Node, names: seq<string>, depth: nat, classify: Classifier): seq<Path>
    requires dir.Dir?
    decreases dir, 0, |names|
  {
    if names == [] then []
    else
      (if names[0] in dir.entries && dir.entries[names[0]].Dir? then WalkEntry(dir.entries[names[0]], names[0], depth, classify) else [])
      + WalkEntries(dir, names[1..], depth, classify)
  }

  function WalkEntry(child: Node, name: string, depth: nat, classify: Classifier): seq<Path>
    decreases child, 2, 0
  {
    (if classify(child).hit then [[name]] else [])
    + (if !classify(child).stop && depth < SEARCH_DEPTH then Under(name, Walk(child, depth + 1, classify)) else [])
  }

  /** The directory at a path, if real and readable directories lead there. */
  function DirAt(node: Node, path: Path): (dir: Option<Node>)
    ensures dir.Some? ==> dir.value.Dir?
  {
    if !node.Dir? then None
    else if path == [] then Some(node)
    else if node.readable && path[0] in node.entries then DirAt(node.entries[path[0]], path[1..])
    else None
  }

  /** Does the walk get to a path? Nothing on the way may stop it. */
  ghost predicate Visits(node: Node, path: Path, deepest: nat, classify: Classifier) {
    && 1 <= |path| <= deepest
    && DirAt(node, path).Some?
    && forall k | 0 < k < |path| :: Passes(node, path[..k], classify)
  }

  ghost predicate Passes(node: Node, path: Path, classify: Classifier) {
    DirAt(node, path).Some? && !classify(DirAt(node, path).value).stop
  }

  lemma StepDown(node: Node, path: Path)
    requires node.Dir? && node.readable && path != [] && path[0] in node.entries
    ensures DirAt(node, path) == DirAt(node.entries[path[0]], path[1..])
    ensures forall k, classify | 0 < k <= |path| ::
              Passes(node, path[..k], classify) == Passes(node.entries[path[0]], path[1..][..k - 1], classify)
  {
    forall k | 0 < k <= |path| ensures path[..k][1..] == path[1..][..k - 1] {}
  }

  lemma VisitsFromTheTop(node: Node, path: Path, deepest: nat, classify: Classifier)
    requires node.Dir?
    ensures Visits(node, path, deepest, classify) <==>
      && path != [] && deepest >= 1 && node.readable && path[0] in node.entries && node.entries[path[0]].Dir?
      && (|path| > 1 ==>
            && !classify(node.entries[path[0]]).stop
            && Visits(node.entries[path[0]], path[1..], deepest - 1, classify))
  {
    if path != [] && node.readable && path[0] in node.entries {
      var child := node.entries[path[0]];
      StepDown(node, path);
      hide DirAt;
      if |path| > 1 {
        assert Passes(node, path[..1], classify) == Passes(child, [], classify);
        PassesTheTop(child, classify);
        if Visits(node, path, deepest, classify) {
          forall k | 0 < k < |path| - 1 ensures Passes(child, path[1..][..k], classify) {
            assert Passes(node, path[..k + 1], classify);
          }
        }
        if deepest >= 1 && Visits(child, path[1..], deepest - 1, classify) && child.Dir? && !classify(child).stop {
          forall k | 0 < k < |path| ensures Passes(node, path[..k], classify) {
            if k > 1 { assert Passes(child, path[1..][..k - 1], classify); }
          }
        }
      } else {
        PassesTheTop(child, classify);
      }
    } else if path != [] {
      assert DirAt(node, path).None?;
    }
  }

  lemma PassesTheTop(node: Node, classify: Classifier)
    ensures Passes(node, [], classify) <==> node.Dir? && !classify(node).stop
    ensures DirAt(node, []).Some? <==> node.Dir?
  {
  }

  lemma UnderName(path: Path, name: string, below: seq<Path>)
    ensures path in Under(name, below) <==> path != [] && path[0] == name && path[1..] in below
  {
    if path in Under(name, below) {
      var i :| 0 <= i < |below| && Under(name, below)[i] == path;
      assert path[1..] == below[i];
    }
    if path != [] && path[0] == name && path[1..] in below {
      var i :| 0 <= i < |below| && below[i] == path[1..];
      assert Under(name, below)[i] == path;
    }
  }

  lemma EntryIsExact(child: Node, name: string, depth: nat, classify: Classifier, path: Path)
    ensures path in WalkEntry(child, name, depth, classify) <==>
      && path != [] && path[0] == name
      && ((|path| == 1 && classify(child).hit)
          || (!classify(child).stop && depth < SEARCH_DEPTH && path[1..] in Walk(child, depth + 1, classify)))
  {
    hide Walk;
    UnderName(path, name, Walk(child, depth + 1, classify));
    assert |path| == 1 ==> path == [path[0]];
  }

  lemma {:induction false} EntriesAreExact(dir: Node, names: seq<string>, depth: nat, classify: Classifier, path: Path)
    requires dir.Dir?
    ensures path in WalkEntries(dir, names, depth, classify) <==>
      && path != [] && path[0] in names && path[0] in dir.entries && dir.entries[path[0]].Dir?
      && path in WalkEntry(dir.entries[path[0]], path[0], depth, classify)
    decreases |names|
  {
    if names != [] {
      EntriesAreExact(dir, names[1..], depth, classify, path);
      if names[0] in dir.entries { EntryIsExact(dir.entries[names[0]], names[0], depth, classify, path); }
    }
  }

  lemma WalkFromTheTop(dir: Node, depth: nat, classify: Classifier, path: Path)
    requires Proper(dir)
    ensures path in Walk(dir, depth, classify) <==>
      && dir.Dir? && dir.readable && path != [] && path[0] in dir.entries && dir.entries[path[0]].Dir?
      && ((|path| == 1 && classify(dir.entries[path[0]]).hit)
          || (!classify(dir.entries[path[0]]).stop && depth < SEARCH_DEPTH
              && path[1..] in Walk(dir.entries[path[0]], depth + 1, classify)))
  {
    hide WalkEntries, WalkEntry;
    if dir.Dir? && dir.readable {
      EntriesAreExact(dir, dir.order, depth, classify, path);
      if path != [] && path[0] in dir.entries { EntryIsExact(dir.entries[path[0]], path[0], depth, classify, path); }
    }
  }

  /** The walk yields a path exactly when it gets there and finds a hit. */
  lemma {:induction false} WalkIsExact(dir: Node, depth: nat, classify: Classifier, path: Path)
    requires Proper(dir) && 1 <= depth <= SEARCH_DEPTH
    ensures path in Walk(dir, depth, classify)
       <==> Visits(dir, path, SEARCH_DEPTH + 1 - depth, classify) && classify(DirAt(dir, path).value).hit
    decreases dir
  {
    WalkFromTheTop(dir, depth, classify, path);
    if dir.Dir? && path != [] && dir.readable && path[0] in dir.entries && dir.entries[path[0]].Dir? {
      var child := dir.entries[path[0]];
      VisitsFromTheTop(dir, path, SEARCH_DEPTH + 1 - depth, classify);
      StepDown(dir, path);
      PassesTheTop(child, classify);
      assert Proper(child);
      hide DirAt, Walk;
      if depth < SEARCH_DEPTH { WalkIsExact(child, depth + 1, classify, path[1..]); }
      if |path| == 1 { assert path[1..] == []; }
      hide Visits;
    } else if dir.Dir? {
      VisitsFromTheTop(dir, path, SEARCH_DEPTH + 1 - depth, classify);
    }
  }

  // ---- Names -------------------------------------------------------------

  function Slash(text: string): (n: nat)
    ensures n <= |text| && '/' !in text[..n] && (n < |text| ==> text[n] == '/')
  {
    if text == "" || text[0] == '/' then 0 else 1 + Slash(text[1..])
  }

  function Split(name: string): (parts: seq<string>)
    ensures parts != []
    decreases |name|
  {
    var n := Slash(name);
    if n == |name| then [name] else [name[..n]] + Split(name[n + 1..])
  }

  /** The path as it is printed. */
  function Join(path: Path): string {
    if path == [] then "" else if |path| == 1 then path[0] else path[0] + "/" + Join(path[1..])
  }

  predicate Named(path: Path) { path != [] && forall i | 0 <= i < |path| :: IsName(path[i]) }

  lemma SlashAfter(name: string, rest: string)
    requires '/' !in name
    ensures Slash(name) == |name| && Slash(name + "/" + rest) == |name|
  {
    var all := name + "/" + rest;
    assert all[|name|] == '/' && forall i | 0 <= i < |name| :: all[i] == name[i];
    assert forall i | 0 <= i < Slash(all) :: all[..Slash(all)][i] == all[i];
  }

  lemma {:induction false} SplitsWhatItJoined(path: Path)
    requires Named(path)
    ensures Split(Join(path)) == path
  {
    if |path| == 1 {
      SlashAfter(path[0], "");
    } else {
      var rest := Join(path[1..]);
      SplitsWhatItJoined(path[1..]);
      SlashAfter(path[0], rest);
      var all := path[0] + "/" + rest;
      assert all[..|path[0]|] == path[0] && all[|path[0]| + 1..] == rest;
    }
  }

  predicate EndsIn(path: Path, tail: seq<string>) {
    |tail| <= |path| && path[|path| - |tail|..] == tail
  }

  function Printed(paths: seq<Path>): (names: seq<string>)
    ensures |names| == |paths| && forall i | 0 <= i < |names| :: names[i] == Join(paths[i])
  {
    seq(|paths|, i requires 0 <= i < |paths| => Join(paths[i]))
  }

  function Ending(paths: seq<Path>, tail: seq<string>): (r: seq<Path>)
    ensures forall path :: path in r <==> path in paths && EndsIn(path, tail)
  {
    if paths == [] then []
    else (if EndsIn(paths[0], tail) then [paths[0]] else []) + Ending(paths[1..], tail)
  }

  /** The teams under a root, by the names they are listed under. */
  function Discover(root: Node): seq<string> {
    Sorted(Printed(Walk(root, 1, ClassifyTeam)))
  }

  /** The directories a team name may stand for. */
  function Resolve(root: Node, name: string): seq<string> {
    Sorted(Printed(Ending(Walk(root, 1, ClassifyCandidate), Split(name))))
  }

  lemma {:induction false} DirsAreNamed(node: Node, path: Path)
    requires Proper(node) && path != [] && DirAt(node, path).Some?
    ensures Named(path)
  {
    if |path| > 1 { DirsAreNamed(node.entries[path[0]], path[1..]); }
  }

  /** A path is printed among the others exactly when it is one of them. */
  lemma PrintedIffPresent(paths: seq<Path>, path: Path)
    requires Named(path) && forall p | p in paths :: Named(p)
    ensures Join(path) in Sorted(Printed(paths)) <==> path in paths
  {
    SortedHasTheSame(Printed(paths));
    if path in paths {
      var i :| 0 <= i < |paths| && paths[i] == path;
      assert Printed(paths)[i] == Join(path);
    }
    if Join(path) in Printed(paths) {
      var i :| 0 <= i < |paths| && Printed(paths)[i] == Join(path);
      SplitsWhatItJoined(path);
      assert paths[i] in paths;
      SplitsWhatItJoined(paths[i]);
    }
  }

  ghost predicate TeamAt(root: Node, path: Path) { DirAt(root, path).Some? && IsTeam(DirAt(root, path).value) }

  ghost predicate CandidateAt(root: Node, path: Path) { DirAt(root, path).Some? && IsCandidate(DirAt(root, path).value) }

  /** A real directory within reach of both walks: at most four levels down, and
      inside no team. */
  ghost predicate Open(root: Node, path: Path) {
    1 <= |path| <= 4 && DirAt(root, path).Some? && forall k | 0 < k < |path| :: !TeamAt(root, path[..k])
  }

  lemma DirAtPrefix(node: Node, path: Path, k: nat)
    requires DirAt(node, path).Some? && k <= |path|
    ensures DirAt(node, path[..k]).Some?
  {
    if k > 0 {
      assert path[..k][1..] == path[1..][..k - 1];
      DirAtPrefix(node.entries[path[0]], path[1..], k - 1);
    }
  }

  /** Both walks stop at the same places, so they get to the same directories. */
  lemma BothVisitTheOpen(root: Node, path: Path, classify: Classifier)
    requires classify == ClassifyTeam || classify == ClassifyCandidate
    ensures Visits(root, path, SEARCH_DEPTH, classify) <==> Open(root, path)
  {
    if DirAt(root, path).Some? {
      forall k | 0 < k < |path| ensures Passes(root, path[..k], classify) <==> !TeamAt(root, path[..k]) {
        DirAtPrefix(root, path, k);
      }
    }
  }

  lemma WalkedAreNamed(root: Node, classify: Classifier)
    requires Proper(root)
    ensures forall path | path in Walk(root, 1, classify) :: Named(path)
  {
    forall path | path in Walk(root, 1, classify) ensures Named(path) {
      WalkIsExact(root, 1, classify, path);
      DirsAreNamed(root, path);
    }
  }

  /** Listed are exactly the real directories one to four levels down that are
      teams and have no team above them. */
  lemma DiscoverIsExact(root: Node, path: Path)
    requires Proper(root) && Named(path)
    ensures Join(path) in Discover(root) <==> Open(root, path) && TeamAt(root, path)
  {
    WalkedAreNamed(root, ClassifyTeam);
    PrintedIffPresent(Walk(root, 1, ClassifyTeam), path);
    WalkIsExact(root, 1, ClassifyTeam, path);
    BothVisitTheOpen(root, path, ClassifyTeam);
  }

  /** A name stands for exactly the candidates within reach whose path ends in it. */
  lemma ResolveIsExact(root: Node, name: string, path: Path)
    requires Proper(root) && Named(path)
    ensures Join(path) in Resolve(root, name) <==> Open(root, path) && CandidateAt(root, path) && EndsIn(path, Split(name))
  {
    WalkedAreNamed(root, ClassifyCandidate);
    PrintedIffPresent(Ending(Walk(root, 1, ClassifyCandidate), Split(name)), path);
    WalkIsExact(root, 1, ClassifyCandidate, path);
    BothVisitTheOpen(root, path, ClassifyCandidate);
  }

  /** No listed team lies inside another. */
  lemma TeamsDoNotNest(root: Node, outer: Path, inner: Path)
    requires Proper(root) && Named(outer) && Named(inner) && outer < inner
    ensures !(Join(outer) in Discover(root) && Join(inner) in Discover(root))
  {
    DiscoverIsExact(root, outer);
    DiscoverIsExact(root, inner);
    assert inner[..|outer|] == outer;
  }

  /** Every listed team is among what its own printed name stands for. */
  lemma ListedNamesResolve(root: Node, path: Path)
    requires Proper(root) && Named(path) && Join(path) in Discover(root)
    ensures Join(path) in Resolve(root, Join(path))
  {
    DiscoverIsExact(root, path);
    ResolveIsExact(root, Join(path), path);
    SplitsWhatItJoined(path);
    assert path[0..] == path;
  }

  /** Writing more of the path in front of a name only narrows what it stands for. */
  lemma LongerNamesNarrow(root: Node, front: string, name: string, path: Path)
    requires Proper(root) && Named(path) && Join(path) in Resolve(root, front + "/" + name)
    ensures Join(path) in Resolve(root, name)
  {
    ResolveIsExact(root, front + "/" + name, path);
    ResolveIsExact(root, name, path);
    SplitEndsIn(front, name);
    EndsInLess(path, Split(front + "/" + name), Split(name));
  }

  lemma EndsInLess(path: Path, longer: seq<string>, shorter: seq<string>)
    requires EndsIn(path, longer) && EndsIn(longer, shorter)
    ensures EndsIn(path, shorter)
  {
    assert path[|path| - |shorter|..] == longer[|longer| - |shorter|..];
  }

  lemma SplitFirst(name: string, rest: string)
    requires '/' !in name
    ensures Split(name + "/" + rest) == [name] + Split(rest)
  {
    SlashAfter(name, rest);
    var all := name + "/" + rest;
    assert all[..|name|] == name && all[|name| + 1..] == rest;
  }

  lemma EndsInMore(first: string, path: Path, tail: seq<string>)
    requires EndsIn(path, tail)
    ensures EndsIn([first] + path, tail)
  {
    assert ([first] + path)[1 + |path| - |tail|..] == path[|path| - |tail|..];
  }

  lemma {:induction false} SplitEndsIn(front: string, name: string)
    ensures EndsIn(Split(front + "/" + name), Split(name))
    decreases |front|
  {
    var n := Slash(front);
    assert EndsIn(Split(name), Split(name));
    hide Split, EndsIn;
    if n == |front| {
      SplitFirst(front, name);
      EndsInMore(front, Split(name), Split(name));
    } else {
      var rest := front[n + 1..] + "/" + name;
      SplitEndsIn(front[n + 1..], name);
      assert front + "/" + name == front[..n] + "/" + rest;
      SplitFirst(front[..n], rest);
      EndsInMore(front[..n], Split(rest), Split(name));
    }
  }

  /** A tree with more in it, but with no directory made a team that was none. */
  ghost predicate Grows(before: Node, after: Node) {
    if !before.Dir? then after == before
    else
      && after.Dir? && after.readable == before.readable && (IsTeam(after) ==> IsTeam(before))
      && forall name | name in before.entries ::
           name in after.entries && Grows(before.entries[name], after.entries[name])
  }

  lemma {:induction false} GrowsAt(before: Node, after: Node, path: Path)
    requires Grows(before, after) && DirAt(before, path).Some?
    ensures DirAt(after, path).Some? && Grows(DirAt(before, path).value, DirAt(after, path).value)
  {
    if path != [] { GrowsAt(before.entries[path[0]], after.entries[path[0]], path[1..]); }
  }

  /** Nothing that is added without a registry of its own, such as a stray
      `agents` directory, takes away what a name stood for. */
  lemma GrowingHidesNothing(before: Node, after: Node, name: string, path: Path)
    requires Proper(before) && Proper(after) && Named(path) && Grows(before, after)
    requires Join(path) in Resolve(before, name)
    ensures Join(path) in Resolve(after, name)
  {
    ResolveIsExact(before, name, path);
    ResolveIsExact(after, name, path);
    GrowsAt(before, after, path);
    forall k | 0 < k < |path| ensures !TeamAt(after, path[..k]) {
      DirAtPrefix(before, path, k);
      GrowsAt(before, after, path[..k]);
      assert !TeamAt(before, path[..k]);
    }
  }

  /** The tree with an empty `agents` directory put at a path, unless there is
      something of that name already. */
  function WithStray(node: Node, path: Path): Node
    requires DirAt(node, path).Some?
    decreases |path|
  {
    if path != [] then node.(entries := node.entries[path[0] := WithStray(node.entries[path[0]], path[1..])])
    else if AGENTS in node.entries then node
    else node.(order := node.order + [AGENTS], entries := node.entries[AGENTS := Dir(true, [], map[])])
  }

  lemma GrowsFromItself(node: Node)
    ensures Grows(node, node)
  {
  }

  lemma {:induction false} StrayGrows(node: Node, path: Path)
    requires Proper(node) && DirAt(node, path).Some?
    ensures Grows(node, WithStray(node, path))
    decreases |path|
  {
    if path == [] {
      forall name | name in node.entries ensures Grows(node.entries[name], node.entries[name]) {
        GrowsFromItself(node.entries[name]);
      }
    } else {
      StrayGrows(node.entries[path[0]], path[1..]);
      hide DirAt;
      forall name | name in node.entries ensures Grows(node.entries[name], WithStray(node, path).entries[name]) {
        if name != path[0] { GrowsFromItself(node.entries[name]); }
      }
    }
  }

  lemma {:induction false} StrayIsProper(node: Node, path: Path)
    requires Proper(node) && DirAt(node, path).Some?
    ensures Proper(WithStray(node, path))
    decreases |path|
  {
    if path != [] { StrayIsProper(node.entries[path[0]], path[1..]); }
  }

  /** A stray `agents` directory, wherever it is put, takes no team away from any
      name. */
  lemma StrayAgentsHideNothing(root: Node, stray: Path, name: string, path: Path)
    requires Proper(root) && Named(path) && DirAt(root, stray).Some? && Join(path) in Resolve(root, name)
    ensures Join(path) in Resolve(WithStray(root, stray), name)
  {
    StrayGrows(root, stray);
    StrayIsProper(root, stray);
    GrowingHidesNothing(root, WithStray(root, stray), name, path);
  }

  /** No directory is listed or resolved twice. */
  predicate NoRepeats(paths: seq<Path>) { forall i, k | 0 <= i < k < |paths| :: paths[i] != paths[k] }

  lemma {:induction false} EntriesOnce(dir: Node, names: seq<string>, depth: nat, classify: Classifier)
    requires Proper(dir) && dir.Dir? && forall i, k | 0 <= i < k < |names| :: names[i] != names[k]
    ensures NoRepeats(WalkEntries(dir, names, depth, classify))
    decreases dir, 0, |names|
  {
    if names != [] && names[0] in dir.entries && dir.entries[names[0]].Dir? {
      var child := dir.entries[names[0]];
      var these, others := WalkEntry(child, names[0], depth, classify), WalkEntries(dir, names[1..], depth, classify);
      WalksOnce(child, depth + 1, classify);
      EntriesOnce(dir, names[1..], depth, classify);
      hide WalkEntry, NoRepeats;
      forall path | path in these ensures path !in others && path != [] {
        EntryIsExact(child, names[0], depth, classify, path);
        EntriesAreExact(dir, names[1..], depth, classify, path);
      }
      EntryOnce(child, names[0], depth, classify);
      OnceAll(these, others);
    } else if names != [] {
      EntriesOnce(dir, names[1..], depth, classify);
    }
  }

  lemma EntryOnce(child: Node, name: string, depth: nat, classify: Classifier)
    requires Proper(child) && NoRepeats(Walk(child, depth + 1, classify))
    ensures NoRepeats(WalkEntry(child, name, depth, classify))
  {
    var below := Walk(child, depth + 1, classify);
    forall i | 0 <= i < |below| ensures below[i] != [] {
      WalkFromTheTop(child, depth + 1, classify, below[i]);
    }
    hide Walk;
    forall i, k | 0 <= i < k < |below| ensures Under(name, below)[i] != Under(name, below)[k] {
      assert Under(name, below)[i][1..] == below[i] && Under(name, below)[k][1..] == below[k];
    }
  }

  lemma {:induction false} WalksOnce(dir: Node, depth: nat, classify: Classifier)
    requires Proper(dir)
    ensures NoRepeats(Walk(dir, depth, classify))
    decreases dir, 1, 0
  {
    if dir.Dir? && dir.readable { EntriesOnce(dir, dir.order, depth, classify); }
  }

  lemma OnceAll(a: seq<Path>, b: seq<Path>)
    requires NoRepeats(a) && NoRepeats(b) && forall path | path in a :: path !in b
    ensures NoRepeats(a + b)
  {
    forall i, k | 0 <= i < k < |a + b| ensures (a + b)[i] != (a + b)[k] {
      if i < |a| && |a| <= k { assert a[i] in a && b[k - |a|] in b; }
    }
  }

  lemma {:induction false} CountedOnce(names: seq<string>, name: string)
    requires forall i, k | 0 <= i < k < |names| :: names[i] != names[k]
    ensures multiset(names)[name] <= 1
  {
    if names != [] {
      CountedOnce(names[1..], name);
      assert names == [names[0]] + names[1..];
      if names[0] == name { assert name !in names[1..]; }
    }
  }

  lemma ListedOnce(root: Node, name: string)
    requires Proper(root)
    ensures multiset(Discover(root))[name] <= 1
  {
    var paths := Walk(root, 1, ClassifyTeam);
    WalksOnce(root, 1, ClassifyTeam);
    WalkedAreNamed(root, ClassifyTeam);
    forall i, k | 0 <= i < k < |paths| ensures Printed(paths)[i] != Printed(paths)[k] {
      assert paths[i] in paths && paths[k] in paths;
      SplitsWhatItJoined(paths[i]);
      SplitsWhatItJoined(paths[k]);
    }
    CountedOnce(Printed(paths), name);
  }
}
