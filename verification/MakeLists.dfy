/** Reading a list of names out of a Makefile, and when what is read is what make
    itself would make of it. */
module MakeLists {
  import opened Common

  // A word as it is read. make takes an opaque one for something else than it
  // says: a reference in another spelling or inside a longer word, an escape, or
  // white space that make does not cut words at. At a
  // comment word, which holds the first `#` of its line, and at a split word, which
  // ends in an escaped backslash that is taken for a continuation, make comes to
  // the end of the line; what stands before is opaque where it has a reference.
  datatype Word =
    | Literal(text: string)
    | Ref(name: string)
    | Opaque(text: string)
    | Comment(before: string, rest: string, opaqueBefore: bool)
    | Split(before: string, opaqueBefore: bool)

  // What a logical line is: a plain `NAME := words`, another binding the gate
  // knows, a binding it does not know (indented, exported, by `!=`), an include, a
  // rule with one colon or two, or something else. `leads` says whether the line
  // begins with the name, white space aside, and `pins` whether it is an override,
  // after which ordinary bindings count for nothing.
  datatype Form =
    | Assign(name: string)
    | OtherBinding(name: string, leads: bool, pins: bool)
    | HiddenBinding(name: string, leads: bool, pins: bool)
    | Include
    | Rule(target: string, double: bool)
    | Else(first: string)

  // The words of the line, and those of them after its operator. A guarded line
  // stands where make may not read it: in a conditional, or in a definition. An
  // unseen line may bind names it does not show: expanding it may run an eval, the
  // name it binds is computed, or it holds what is a line of its own to make.
  datatype Line = Line(form: Form, guarded: bool, unseen: bool, words: seq<Word>, value: seq<Word>)

  datatype Reading = Words(words: seq<string>) | Unreadable | TooDeep

  predicate Binds(line: Line, name: string) {
    line.form == Assign(name) || (line.form.OtherBinding? && line.form.name == name)
  }

  function Bindings(lines: seq<Line>, name: string): nat {
    if lines == [] then 0
    else (if Binds(lines[0], name) then 1 else 0) + Bindings(lines[1..], name)
  }

  /** The first line of a form, or the end. */
  function IndexOf(lines: seq<Line>, form: Form): (n: nat)
    ensures n <= |lines| && (n < |lines| ==> lines[n].form == form)
  {
    if lines == [] || lines[0].form == form then 0 else 1 + IndexOf(lines[1..], form)
  }

  /** The words of the next line that has any. */
  function ReadOn(lines: seq<Line>): seq<Word> {
    if lines == [] then [] else if lines[0].words != [] then lines[0].words else ReadOn(lines[1..])
  }

  /** What is read as the value of a line: where there is none, the white space
      that ends the line is skipped, and the next line is read instead. */
  function Captured(lines: seq<Line>, at: nat): seq<Word>
    requires at < |lines|
  {
    if lines[at].value != [] then lines[at].value else ReadOn(lines[at + 1..])
  }

  /** The list a name stands for, references expanded; `depth` is how deep the
      interpreter will recurse. */
  function Expand(lines: seq<Line>, name: string, depth: nat): Reading
    decreases depth, 0, 0
  {
    if depth == 0 then TooDeep
    else
      var at := IndexOf(lines, Assign(name));
      if Bindings(lines, name) != 1 || at == |lines| then Unreadable
      else ExpandWords(lines, Captured(lines, at), depth - 1)
  }

  function ExpandWord(lines: seq<Line>, word: Word, depth: nat): Reading
    decreases depth, 1, 0
  {
    match word
    case Ref(name) => Expand(lines, name, depth)
    case _ => Words([Spelled(word)])
  }

  /** A word as its line spells it. */
  function Spelled(word: Word): string
    requires !word.Ref?
  {
    match word
    case Literal(text) => text
    case Opaque(text) => text
    case Comment(before, rest, _) => before + "#" + rest
    case Split(before, _) => before + "\\"
  }

  function ExpandWords(lines: seq<Line>, words: seq<Word>, depth: nat): Reading
    decreases depth, 2, |words|
  {
    if words == [] then Words([])
    else
      var n := |words| - 1;
      var front := ExpandWords(lines, words[..n], depth);
      if !front.Words? then front
      else
        var last := ExpandWord(lines, words[n], depth);
        if last.Words? then Words(front.words + last.words) else last
  }

  /** Reading the list as the gate does it, word by word. */
  method MakeList(lines: seq<Line>, name: string, depth: nat) returns (r: Reading)
    ensures r == Expand(lines, name, depth)
    decreases depth
  {
    if depth == 0 { return TooDeep; }
    var at := IndexOf(lines, Assign(name));
    if Bindings(lines, name) != 1 || at == |lines| { return Unreadable; }
    var words := Captured(lines, at);
    var expanded := [];
    for i := 0 to |words|
      invariant ExpandWords(lines, words[..i], depth - 1) == Words(expanded)
    {
      assert words[..i + 1][..i] == words[..i];
      match words[i]
      case Ref(other) =>
        var sub := MakeList(lines, other, depth - 1);
        if !sub.Words? {
          StopsAt(lines, words, i, depth - 1);
          return sub;
        }
        expanded := expanded + sub.words;
      case _ =>
        expanded := expanded + [Spelled(words[i])];
    }
    assert words[..|words|] == words;
    r := Words(expanded);
  }

  /** The first word that cannot be expanded decides. */
  lemma {:induction false} StopsAt(lines: seq<Line>, words: seq<Word>, i: nat, depth: nat)
    requires i < |words| && ExpandWords(lines, words[..i], depth).Words? && !ExpandWord(lines, words[i], depth).Words?
    ensures ExpandWords(lines, words, depth) == ExpandWord(lines, words[i], depth)
    decreases |words|
  {
    var n := |words| - 1;
    if i < n {
      assert words[..n][..i] == words[..i];
      StopsAt(lines, words[..n], i, depth);
    }
  }

  // ---- What make does ----------------------------------------------------

  /** What make has under a name, and whether an override pins it. */
  datatype Bound = Bound(value: seq<string>, pinned: bool)

  /** What the file does not settle: the environment, what bindings other than
      plain ones come to and, where they are guarded, whether they are carried out,
      what a line that may bind any name leaves under each, and what opaque words
      expand to. */
  datatype World = World(
    environment: string -> seq<string>,
    others: nat -> Bound,
    included: (nat, string) -> Bound,
    spelled: string -> seq<string>)

  predicate Blurs(line: Line) { line.unseen || line.form.Include? }

  /** Is the line an assignment that make carries out on the spot? */
  predicate Plain(line: Line, name: string) { line.form == Assign(name) && !line.guarded && !line.unseen }

  predicate Touches(line: Line, name: string) {
    Binds(line, name) || (line.form.HiddenBinding? && line.form.name == name)
  }

  /** Does the line bind the name in a way the file does not settle? */
  predicate Unsettles(line: Line, name: string) { Blurs(line) || (Touches(line, name) && !Plain(line, name)) }

  predicate Pins(line: Line) { (line.form.OtherBinding? || line.form.HiddenBinding?) && line.form.pins }

  /** May the line pin the name? */
  predicate MayPin(line: Line, name: string) { Blurs(line) || (Touches(line, name) && Pins(line)) }

  predicate Ends(word: Word) { word.Comment? || word.Split? }

  /** The words up to where make comes to the end, the word it stops at included. */
  function Seen(words: seq<Word>): (seen: seq<Word>)
    ensures seen <= words
    ensures forall i | 0 <= i < |seen| - 1 :: !Ends(seen[i])
    ensures seen == words || (seen != [] && Ends(seen[|seen| - 1]))
  {
    if words == [] then [] else if Ends(words[0]) then [words[0]] else [words[0]] + Seen(words[1..])
  }

  /** A binding: an override always counts, and anything else unless there has
      been one. */
  function Set(before: Bound, value: seq<string>, pins: bool): Bound {
    if before.pinned && !pins then before else Bound(value, pins)
  }

  /** What make has under a name after so many lines: each plain assignment is
      expanded on the spot, from what is bound above it. */
  function Made(lines: seq<Line>, name: string, n: nat, w: World): Bound
    requires n <= |lines|
    decreases n, 2, 0
  {
    if n == 0 then Bound(w.environment(name), false)
    else
      var before, line := Made(lines, name, n - 1, w), lines[n - 1];
      if Blurs(line) then w.included(n - 1, name)
      else if Plain(line, name) then Set(before, Substituted(lines, Seen(line.value), n - 1, w), false)
      else if Touches(line, name) then
        Set(before, w.others(n - 1).value, Pins(line) && (!line.guarded || w.others(n - 1).pinned))
      else before
  }

  function Substituted(lines: seq<Line>, words: seq<Word>, n: nat, w: World): seq<string>
    requires n <= |lines|
    decreases n, 4, |words|
  {
    if words == [] then []
    else Substituted(lines, words[..|words| - 1], n, w) + Value(lines, words[|words| - 1], n, w)
  }

  function Value(lines: seq<Line>, word: Word, n: nat, w: World): seq<string>
    requires n <= |lines|
    decreases n, 3, 0
  {
    match word
    case Literal(text) => [text]
    case Ref(name) => Made(lines, name, n, w).value
    case Opaque(text) => w.spelled(text)
    case Comment(before, _, opaqueBefore) =>
      if opaqueBefore then w.spelled(before) else if before == "" then [] else [before]
    case Split(before, opaqueBefore) => if opaqueBefore then w.spelled(before) else [before + "\\\\"]
  }

  lemma {:induction false} BoundNowhere(lines: seq<Line>, name: string, k: nat)
    requires Bindings(lines, name) == 0 && k < |lines|
    ensures !Binds(lines[k], name)
  {
    if k > 0 { BoundNowhere(lines[1..], name, k - 1); }
  }

  lemma {:induction false} BoundNowhereElse(lines: seq<Line>, name: string, at: nat, k: nat)
    requires Bindings(lines, name) == 1 && at < |lines| && k < |lines| && Binds(lines[at], name) && k != at
    ensures !Binds(lines[k], name)
  {
    if at == 0 {
      BoundNowhere(lines[1..], name, k - 1);
    } else if k == 0 {
      if Binds(lines[0], name) { BoundNowhere(lines[1..], name, at - 1); }
    } else {
      assert !Binds(lines[0], name) by {
        if Binds(lines[0], name) { BoundNowhere(lines[1..], name, at - 1); }
      }
      BoundNowhereElse(lines[1..], name, at - 1, k - 1);
    }
  }

  /** A name is read only if one line binds it and no other, be it by `:=` or by any
      other operator that is known; and that line has to be a `:=`. */
  lemma ReadNamesAreBoundOnce(lines: seq<Line>, name: string, depth: nat, i: nat, k: nat)
    requires i < |lines| && k < |lines| && !Expand(lines, name, depth + 1).Unreadable?
    requires match lines[i].form case Assign(n) => n == name case OtherBinding(n, _, _) => n == name case _ => false
    requires match lines[k].form case Assign(n) => n == name case OtherBinding(n, _, _) => n == name case _ => false
    ensures i == k && lines[i].form == Assign(name)
  {
    var at := IndexOf(lines, Assign(name));
    if i != at { BoundNowhereElse(lines, name, at, i); }
    if k != at { BoundNowhereElse(lines, name, at, k); }
  }

  /** Does a line settle what make has further down? No override may stand above
      it, and nothing that binds the name anew between. */
  predicate Settles(lines: seq<Line>, name: string, at: nat, n: nat)
    requires at < n <= |lines|
  {
    && Plain(lines[at], name)
    && (forall k | 0 <= k < at :: !MayPin(lines[k], name))
    && (forall k | at < k < n :: !Unsettles(lines[k], name))
  }

  /** Is the value of a name at a line what is read, whatever the file leaves open?
      Its one line must stand above, settle it and have a value, and every word must
      be plain or a reference that is faithful there. An assignment without a value
      has to read as nothing. */
  predicate Faithful(lines: seq<Line>, name: string, n: nat, depth: nat)
    requires n <= |lines|
    decreases depth, 0
  {
    depth > 0 &&
      var at := IndexOf(lines, Assign(name));
      && at < n && Settles(lines, name, at, n)
      && if lines[at].value == [] then Expand(lines, name, depth) == Words([])
         else forall i | 0 <= i < |lines[at].value| :: FaithfulWord(lines, lines[at].value[i], at, depth - 1)
  }

  predicate FaithfulWord(lines: seq<Line>, word: Word, n: nat, depth: nat)
    requires n <= |lines|
    decreases depth, 1
  {
    word.Literal? || (word.Ref? && Faithful(lines, word.name, n, depth))
  }

  lemma {:induction false} Unpinned(lines: seq<Line>, name: string, n: nat, w: World)
    requires n <= |lines| && forall k | 0 <= k < n :: !MayPin(lines[k], name)
    ensures !Made(lines, name, n, w).pinned
  {
    if n > 0 { Unpinned(lines, name, n - 1, w); }
  }

  /** A name that one line settles has what it gets there. */
  lemma {:induction false} KeepsItsValue(lines: seq<Line>, name: string, at: nat, n: nat, w: World)
    requires Bindings(lines, name) == 1 && at < n <= |lines| && Settles(lines, name, at, n)
    ensures Made(lines, name, n, w) == Bound(Substituted(lines, Seen(lines[at].value), at, w), false)
  {
    if at < n - 1 {
      BoundNowhereElse(lines, name, at, n - 1);
      KeepsItsValue(lines, name, at, n - 1, w);
    } else {
      Unpinned(lines, name, at, w);
    }
  }

  lemma {:induction false} SeenWithoutEnds(words: seq<Word>)
    requires forall i | 0 <= i < |words| :: !Ends(words[i])
    ensures Seen(words) == words
  {
    var seen := Seen(words);
    assert seen != [] ==> seen[|seen| - 1] == words[|seen| - 1];
  }

  /** Where the reading is faithful, make has just what is read. */
  lemma {:induction false} FaithfulIsMade(lines: seq<Line>, name: string, n: nat, depth: nat, w: World)
    requires n <= |lines| && Faithful(lines, name, n, depth) && Expand(lines, name, depth).Words?
    ensures Made(lines, name, n, w).value == Expand(lines, name, depth).words
    decreases depth, 2, 0
  {
    var at := IndexOf(lines, Assign(name));
    var value := lines[at].value;
    KeepsItsValue(lines, name, at, n, w);
    SeenWithoutEnds(value);
    hide Made, Seen, Settles, IndexOf, Bindings, ExpandWords;
    if value != [] { FaithfulWordsAreMade(lines, value, at, depth - 1, w); }
  }

  lemma {:induction false} FaithfulWordsAreMade(lines: seq<Line>, words: seq<Word>, n: nat, depth: nat, w: World)
    requires n <= |lines| && ExpandWords(lines, words, depth).Words?
    requires forall i | 0 <= i < |words| :: FaithfulWord(lines, words[i], n, depth)
    ensures Substituted(lines, words, n, w) == ExpandWords(lines, words, depth).words
    decreases depth, 3, |words|
  {
    if words != [] {
      var last := |words| - 1;
      FaithfulWordsAreMade(lines, words[..last], n, depth, w);
      if words[last].Ref? { FaithfulIsMade(lines, words[last].name, n, depth, w); }
    }
  }

  // Two worlds tell an unfaithful reading: one that has nothing to add, and one
  // that adds more than there is to read.

  // Both pin whatever may be pinned.

  const Quiet := World(_ => [], _ => Bound([], true), (_, _) => Bound([], true), _ => [])

  function Shouts(volume: nat): (words: seq<string>)
    ensures |words| == volume
  {
    seq(volume, _ => "")
  }

  function Loud(volume: nat): World {
    World(_ => Shouts(volume), _ => Bound(Shouts(volume), true), (_, _) => Bound(Shouts(volume), true), _ => Shouts(volume))
  }

  lemma MadeByThisLine(lines: seq<Line>, name: string, n: nat, w: World)
    requires n < |lines| && Plain(lines[n], name) && !Made(lines, name, n, w).pinned
    ensures Made(lines, name, n + 1, w) == Bound(Substituted(lines, Seen(lines[n].value), n, w), false)
    ensures lines[n].value == [] ==> Made(lines, name, n + 1, w).value == []
  {
  }

  /** In both worlds the same lines pin, what they leave is all or nothing, and it
      stays. */
  lemma {:induction false} PinnedAlike(lines: seq<Line>, name: string, n: nat, volume: nat)
    requires n <= |lines|
    ensures var loud, quiet := Made(lines, name, n, Loud(volume)), Made(lines, name, n, Quiet);
            && loud.pinned == quiet.pinned
            && (loud.pinned ==> |loud.value| == volume && quiet.value == [])
    ensures (exists k | 0 <= k < n :: MayPin(lines[k], name)) ==> Made(lines, name, n, Loud(volume)).pinned
  {
    hide Substituted, Seen;
    if n > 0 { PinnedAlike(lines, name, n - 1, volume); }
  }

  lemma {:induction false} LoudOrQuiet(lines: seq<Line>, name: string, n: nat, volume: nat)
    requires n <= |lines|
    ensures |Made(lines, name, n, Loud(volume)).value| >= volume || Made(lines, name, n, Loud(volume)) == Made(lines, name, n, Quiet)
    decreases n, 2, 0
  {
    if n > 0 {
      PinnedAlike(lines, name, n - 1, volume);
      if Plain(lines[n - 1], name) {
        WordsLoudOrQuiet(lines, Seen(lines[n - 1].value), n - 1, volume);
      } else if !Unsettles(lines[n - 1], name) {
        LoudOrQuiet(lines, name, n - 1, volume);
      }
    }
  }

  lemma {:induction false} WordsLoudOrQuiet(lines: seq<Line>, words: seq<Word>, n: nat, volume: nat)
    requires n <= |lines|
    ensures |Substituted(lines, words, n, Loud(volume))| >= volume
            || Substituted(lines, words, n, Loud(volume)) == Substituted(lines, words, n, Quiet)
    decreases n, 4, |words|
  {
    if words != [] {
      var last := |words| - 1;
      WordsLoudOrQuiet(lines, words[..last], n, volume);
      if words[last].Ref? { LoudOrQuiet(lines, words[last].name, n, volume); }
    }
  }

  /** In the quiet world make never has more than is read. */
  lemma {:induction false} QuietHasNoMore(lines: seq<Line>, name: string, n: nat, depth: nat)
    requires n <= |lines| && Expand(lines, name, depth).Words?
    ensures |Made(lines, name, n, Quiet).value| <= |Expand(lines, name, depth).words|
    decreases n, 2, 0
  {
    hide Seen, IndexOf, Bindings, ExpandWords, Substituted;
    if n > 0 {
      PinnedAlike(lines, name, n - 1, 0);
      if Plain(lines[n - 1], name) && !Made(lines, name, n - 1, Quiet).pinned {
        OneLineBinds(lines, name, n - 1);
        var value := lines[n - 1].value;
        MadeByThisLine(lines, name, n - 1, Quiet);
        if value != [] { QuietLineHasNoMore(lines, value, n - 1, depth - 1); }
      } else if !Unsettles(lines[n - 1], name) {
        QuietHasNoMore(lines, name, n - 1, depth);
      }
    }
  }

  /** Where a name is bound once, the first plain line that binds it is the one. */
  lemma OneLineBinds(lines: seq<Line>, name: string, k: nat)
    requires Bindings(lines, name) == 1 && k < |lines| && lines[k].form == Assign(name)
    ensures IndexOf(lines, Assign(name)) == k
  {
    var at := IndexOf(lines, Assign(name));
    IndexIsFirst(lines, Assign(name), k);
    if at != k { BoundNowhereElse(lines, name, at, k); }
  }

  lemma {:induction false} IndexIsFirst(lines: seq<Line>, form: Form, k: nat)
    requires k < |lines| && lines[k].form == form
    ensures IndexOf(lines, form) <= k
  {
    if lines[0].form != form { IndexIsFirst(lines[1..], form, k - 1); }
  }

  /** A first part of the words reads as a first part of the reading. */
  lemma {:induction false} SeenReadsNoMore(lines: seq<Line>, words: seq<Word>, n: nat, depth: nat)
    requires n <= |words| && ExpandWords(lines, words, depth).Words?
    ensures ExpandWords(lines, words[..n], depth).Words?
    ensures ExpandWords(lines, words[..n], depth).words <= ExpandWords(lines, words, depth).words
    decreases |words|
  {
    if n == |words| {
      assert words[..n] == words;
    } else {
      assert words[..|words| - 1][..n] == words[..n];
      SeenReadsNoMore(lines, words[..|words| - 1], n, depth);
    }
  }

  lemma {:induction false} QuietLineHasNoMore(lines: seq<Line>, value: seq<Word>, n: nat, depth: nat)
    requires n <= |lines| && ExpandWords(lines, value, depth).Words?
    ensures |Substituted(lines, Seen(value), n, Quiet)| <= |ExpandWords(lines, value, depth).words|
    decreases n, 5, 0
  {
    hide ExpandWords, Substituted;
    assert value[..|Seen(value)|] == Seen(value);
    SeenReadsNoMore(lines, value, |Seen(value)|, depth);
    QuietWordsHaveNoMore(lines, Seen(value), n, depth);
  }

  lemma {:induction false} QuietWordsHaveNoMore(lines: seq<Line>, words: seq<Word>, n: nat, depth: nat)
    requires n <= |lines| && ExpandWords(lines, words, depth).Words?
    ensures |Substituted(lines, words, n, Quiet)| <= |ExpandWords(lines, words, depth).words|
    decreases n, 4, |words|
  {
    if words != [] {
      var last := |words| - 1;
      QuietWordsHaveNoMore(lines, words[..last], n, depth);
      if words[last].Ref? { QuietHasNoMore(lines, words[last].name, n, depth); }
    }
  }

  lemma SameParts(a: seq<string>, b: seq<string>, a': seq<string>, b': seq<string>)
    requires |a| <= |a'| && |b| <= |b'| && a + b == a' + b'
    ensures a == a' && b == b'
  {
    assert a == (a + b)[..|a|] && a' == (a' + b')[..|a'|];
    assert b == (a + b)[|a|..] && b' == (a' + b')[|a'|..];
  }

  /** Does make have what is read in both worlds? */
  predicate MadeInBoth(lines: seq<Line>, name: string, n: nat, volume: nat, read: seq<string>)
    requires n <= |lines|
  {
    Made(lines, name, n, Quiet).value == read && Made(lines, name, n, Loud(volume)).value == read
  }

  /** A line that leaves the name alone, in a quiet world and in a loud one. */
  lemma MadeAbove(lines: seq<Line>, name: string, n: nat, volume: nat, read: seq<string>)
    requires n <= |lines| && |read| < volume && MadeInBoth(lines, name, n, volume, read)
    requires n > 0 ==> !Plain(lines[n - 1], name)
    ensures n > 0 && !Unsettles(lines[n - 1], name) && MadeInBoth(lines, name, n - 1, volume, read)
  {
    if n > 0 { PinnedAlike(lines, name, n - 1, volume); }
  }

  /** Nor may anything have pinned the name above a line that still counts. */
  lemma NotPinnedBefore(lines: seq<Line>, name: string, n: nat, volume: nat)
    requires n < |lines| && Plain(lines[n], name) && |Made(lines, name, n + 1, Loud(volume)).value| < volume
    ensures !Made(lines, name, n, Loud(volume)).pinned && !Made(lines, name, n, Quiet).pinned
    ensures forall k | 0 <= k < n :: !MayPin(lines[k], name)
  {
    PinnedAlike(lines, name, n, volume);
  }

  lemma {:induction false} MadeIsFaithful(lines: seq<Line>, name: string, n: nat, depth: nat, volume: nat)
    requires n <= |lines| && Expand(lines, name, depth).Words? && |Expand(lines, name, depth).words| < volume
    requires MadeInBoth(lines, name, n, volume, Expand(lines, name, depth).words)
    ensures Faithful(lines, name, n, depth)
    decreases n, 1, 0
  {
    hide Made, Substituted, ExpandWords, Seen, IndexOf, Bindings;
    if n > 0 && Plain(lines[n - 1], name) {
      OneLineBinds(lines, name, n - 1);
      var value := lines[n - 1].value;
      NotPinnedBefore(lines, name, n - 1, volume);
      MadeByThisLine(lines, name, n - 1, Quiet);
      MadeByThisLine(lines, name, n - 1, Loud(volume));
      if value != [] { MadeLineIsFaithful(lines, value, n - 1, depth - 1, volume); }
    } else {
      MadeAbove(lines, name, n, volume, Expand(lines, name, depth).words);
      MadeIsFaithful(lines, name, n - 1, depth, volume);
      hide Expand, Unsettles;
    }
  }

  lemma {:induction false} MadeLineIsFaithful(lines: seq<Line>, value: seq<Word>, n: nat, depth: nat, volume: nat)
    requires n <= |lines| && ExpandWords(lines, value, depth).Words? && |ExpandWords(lines, value, depth).words| < volume
    requires Substituted(lines, Seen(value), n, Quiet) == ExpandWords(lines, value, depth).words
    requires Substituted(lines, Seen(value), n, Loud(volume)) == ExpandWords(lines, value, depth).words
    ensures forall i | 0 <= i < |value| :: FaithfulWord(lines, value[i], n, depth)
    decreases n, 5, 0
  {
    var seen := Seen(value);
    assert value[..|seen|] == seen;
    SeenReadsNoMore(lines, value, |seen|, depth);
    QuietWordsHaveNoMore(lines, seen, n, depth);
    assert ExpandWords(lines, seen, depth).words == ExpandWords(lines, value, depth).words;
    MadeWordsAreFaithful(lines, seen, n, depth, volume);
    assert seen != [] ==> FaithfulWord(lines, seen[|seen| - 1], n, depth);
  }

  /** Where make stops in the middle of a word, it has another word or none. */
  lemma EndsDiffer(lines: seq<Line>, word: Word, n: nat)
    requires n <= |lines| && Ends(word)
    ensures Value(lines, word, n, Quiet) != [Spelled(word)]
  {
    if word.Split? { assert |word.before + "\\"| < |word.before + "\\\\"|; }
    if word.Comment? { assert |word.before| < |word.before + "#" + word.rest|; }
  }

  lemma {:induction false} MadeWordsAreFaithful(lines: seq<Line>, words: seq<Word>, n: nat, depth: nat, volume: nat)
    requires n <= |lines| && ExpandWords(lines, words, depth).Words? && |ExpandWords(lines, words, depth).words| < volume
    requires Substituted(lines, words, n, Quiet) == ExpandWords(lines, words, depth).words
    requires Substituted(lines, words, n, Loud(volume)) == ExpandWords(lines, words, depth).words
    ensures forall i | 0 <= i < |words| :: FaithfulWord(lines, words[i], n, depth)
    decreases n, 4, |words|
  {
    if words != [] {
      var last := |words| - 1;
      var front, word := words[..last], words[last];
      QuietWordsHaveNoMore(lines, front, n, depth);
      QuietWordsHaveNoMore(lines, words, n, depth);
      WordsLoudOrQuiet(lines, front, n, volume);
      if word.Ref? {
        QuietHasNoMore(lines, word.name, n, depth);
        LoudOrQuiet(lines, word.name, n, volume);
      }
      SameParts(Substituted(lines, front, n, Quiet), Value(lines, word, n, Quiet),
                ExpandWords(lines, front, depth).words, ExpandWord(lines, word, depth).words);
      MadeWordsAreFaithful(lines, front, n, depth, volume);
      if Ends(word) { EndsDiffer(lines, word, n); }
      if word.Ref? { MadeIsFaithful(lines, word.name, n, depth, volume); }
      assert forall i | 0 <= i < last :: words[i] == front[i];
    }
  }

  /** Does make have just these words under a name, whatever the file leaves open? */
  ghost predicate AlwaysMakes(lines: seq<Line>, name: string, words: seq<string>) {
    forall w :: Made(lines, name, |lines|, w).value == words
  }

  /** What is read is what make has, whatever the file leaves open, exactly when
      the reading is faithful. */
  lemma ReadsWhatMakeSees(lines: seq<Line>, name: string, depth: nat)
    requires Expand(lines, name, depth).Words?
    ensures AlwaysMakes(lines, name, Expand(lines, name, depth).words) <==> Faithful(lines, name, |lines|, depth)
  {
    var read := Expand(lines, name, depth).words;
    if Faithful(lines, name, |lines|, depth) {
      forall w ensures Made(lines, name, |lines|, w).value == read { FaithfulIsMade(lines, name, |lines|, depth, w); }
    }
    if AlwaysMakes(lines, name, read) {
      assert MadeInBoth(lines, name, |lines|, |read| + 1, read);
      MadeIsFaithful(lines, name, |lines|, depth, |read| + 1);
    }
  }

  // ---- Makefiles that are read right --------------------------------------

  /** Does every line bind in the open, and does every plain assignment have a
      value that refers only to lines before it? */
  predicate Tidy(lines: seq<Line>) {
    && (forall k | 0 <= k < |lines| :: !lines[k].guarded && !Blurs(lines[k]) && !lines[k].form.HiddenBinding?)
    && (forall at | 0 <= at < |lines| && lines[at].form.Assign? ::
          && lines[at].value != []
          && forall i | 0 <= i < |lines[at].value| :: TidyWord(lines, lines[at].value[i], at))
  }

  predicate TidyWord(lines: seq<Line>, word: Word, at: nat) {
    word.Literal? || (word.Ref? && IndexOf(lines, Assign(word.name)) < at)
  }

  lemma {:induction false} TidyIsFaithful(lines: seq<Line>, name: string, n: nat, depth: nat)
    requires Tidy(lines) && IndexOf(lines, Assign(name)) < n <= |lines| && Expand(lines, name, depth).Words?
    ensures Faithful(lines, name, n, depth)
    decreases depth
  {
    var at := IndexOf(lines, Assign(name));
    var value := lines[at].value;
    forall k | 0 <= k < n && k != at ensures !Unsettles(lines[k], name) {
      BoundNowhereElse(lines, name, at, k);
    }
    forall i | 0 <= i < |value| ensures FaithfulWord(lines, value[i], at, depth - 1) {
      assert TidyWord(lines, value[i], at);
      WordsAreRead(lines, value, i, depth - 1);
      if value[i].Ref? { TidyIsFaithful(lines, value[i].name, at, depth - 1); }
    }
  }

  /** A reading of all the words is a reading of each. */
  lemma {:induction false} WordsAreRead(lines: seq<Line>, words: seq<Word>, i: nat, depth: nat)
    requires i < |words| && ExpandWords(lines, words, depth).Words?
    ensures ExpandWord(lines, words[i], depth).Words?
    decreases |words|
  {
    if i < |words| - 1 { WordsAreRead(lines, words[..|words| - 1], i, depth); }
  }

  /** So in a tidy Makefile what is read is what make has. */
  lemma TidyReadsWhatMakeSees(lines: seq<Line>, name: string, depth: nat)
    requires Tidy(lines) && Expand(lines, name, depth).Words?
    ensures AlwaysMakes(lines, name, Expand(lines, name, depth).words)
  {
    TidyIsFaithful(lines, name, |lines|, depth);
    ReadsWhatMakeSees(lines, name, depth);
  }

  /** And every expansion comes to an end, as far down as there are lines: each
      reference leads to an earlier one. */
  lemma {:induction false} TidyEnds(lines: seq<Line>, name: string, depth: nat)
    requires Tidy(lines) && depth > (if IndexOf(lines, Assign(name)) < |lines| then IndexOf(lines, Assign(name)) else 0)
    ensures !Expand(lines, name, depth).TooDeep?
    decreases depth, 1, 0
  {
    var at := IndexOf(lines, Assign(name));
    if at < |lines| { TidyWordsEnd(lines, at, lines[at].value, depth - 1); }
  }

  lemma {:induction false} TidyWordsEnd(lines: seq<Line>, at: nat, words: seq<Word>, depth: nat)
    requires Tidy(lines) && at < |lines| && depth >= at
    requires forall i | 0 <= i < |words| :: TidyWord(lines, words[i], at)
    ensures !ExpandWords(lines, words, depth).TooDeep?
    decreases depth, 2, |words|
  {
    if words != [] {
      var last := |words| - 1;
      TidyWordsEnd(lines, at, words[..last], depth);
      assert TidyWord(lines, words[last], at);
      if words[last].Ref? { TidyEnds(lines, words[last].name, depth); }
    }
  }

  // ---- What make has for certain ------------------------------------------

  /** The words make has under a name whatever the file leaves open: those of the
      line that settles it, and none where a line above may have pinned it. */
  function Certain(lines: seq<Line>, name: string, n: nat): set<string>
    requires n <= |lines|
    decreases n, 2, 0
  {
    if n == 0 then {}
    else if Plain(lines[n - 1], name) then
      if exists k | 0 <= k < n - 1 :: MayPin(lines[k], name) then {}
      else CertainWords(lines, Seen(lines[n - 1].value), n - 1)
    else if Unsettles(lines[n - 1], name) then {}
    else Certain(lines, name, n - 1)
  }

  function CertainWords(lines: seq<Line>, words: seq<Word>, n: nat): set<string>
    requires n <= |lines|
    decreases n, 4, |words|
  {
    if words == [] then {}
    else CertainWords(lines, words[..|words| - 1], n) + CertainWord(lines, words[|words| - 1], n)
  }

  function CertainWord(lines: seq<Line>, word: Word, n: nat): set<string>
    requires n <= |lines|
    decreases n, 3, 0
  {
    match word
    case Literal(text) => {text}
    case Ref(name) => Certain(lines, name, n)
    case Opaque(_) => {}
    case Comment(before, _, opaqueBefore) => if opaqueBefore || before == "" then {} else {before}
    case Split(before, opaqueBefore) => if opaqueBefore then {} else {before + "\\\\"}
  }

  lemma {:induction false} CertainIsMade(lines: seq<Line>, name: string, n: nat, w: World, word: string)
    requires n <= |lines|
    ensures word in Certain(lines, name, n) ==> word in Made(lines, name, n, w).value
    ensures word in Made(lines, name, n, Quiet).value ==> word in Certain(lines, name, n)
    decreases n, 2, 0
  {
    if n > 0 {
      PinnedAlike(lines, name, n - 1, 0);
      if Plain(lines[n - 1], name) {
        if forall k | 0 <= k < n - 1 :: !MayPin(lines[k], name) { Unpinned(lines, name, n - 1, w); }
        CertainWordsAreMade(lines, Seen(lines[n - 1].value), n - 1, w, word);
      } else if !Unsettles(lines[n - 1], name) {
        CertainIsMade(lines, name, n - 1, w, word);
      }
    }
  }

  lemma {:induction false} CertainWordsAreMade(lines: seq<Line>, words: seq<Word>, n: nat, w: World, word: string)
    requires n <= |lines|
    ensures word in CertainWords(lines, words, n) ==> word in Substituted(lines, words, n, w)
    ensures word in Substituted(lines, words, n, Quiet) ==> word in CertainWords(lines, words, n)
    decreases n, 3, |words|
  {
    if words != [] {
      var last := |words| - 1;
      CertainWordsAreMade(lines, words[..last], n, w, word);
      if words[last].Ref? { CertainIsMade(lines, words[last].name, n, w, word); }
      assert word in CertainWord(lines, words[last], n) ==> word in Value(lines, words[last], n, w);
      assert word in Substituted(lines, words, n, w) <==>
          word in Substituted(lines, words[..last], n, w) || word in Value(lines, words[last], n, w);
      assert word in Value(lines, words[last], n, Quiet) ==> word in CertainWord(lines, words[last], n);
      assert word in Substituted(lines, words, n, Quiet) <==>
          word in Substituted(lines, words[..last], n, Quiet) || word in Value(lines, words[last], n, Quiet);
    }
  }

  ghost predicate AlwaysHas(lines: seq<Line>, name: string, word: string) {
    forall w :: word in Made(lines, name, |lines|, w).value
  }

  /** A word is certain exactly when make has it in every world. */
  lemma CertainIsInEveryWorld(lines: seq<Line>, name: string, word: string)
    ensures word in Certain(lines, name, |lines|) <==> AlwaysHas(lines, name, word)
  {
    forall w ensures word in Certain(lines, name, |lines|) ==> word in Made(lines, name, |lines|, w).value {
      CertainIsMade(lines, name, |lines|, w, word);
    }
    CertainIsMade(lines, name, |lines|, Quiet, word);
    if AlwaysHas(lines, name, word) { assert word in Made(lines, name, |lines|, Quiet).value; }
  }

  // ---- Makefiles that are read wrong --------------------------------------

  /** `name := words`, in the open. */
  function Assigned(name: string, value: seq<Word>): Line {
    Line(Assign(name), false, false, [Literal(name), Literal(":=")] + value, value)
  }

  lemma OneWordReads(lines: seq<Line>, word: Word, depth: nat)
    ensures ExpandWords(lines, [word], depth)
         == if ExpandWord(lines, word, depth).Words? then Words([] + ExpandWord(lines, word, depth).words)
            else ExpandWord(lines, word, depth)
  {
    assert [word][..0] == [];
  }

  lemma TwoWordsAreCertain(lines: seq<Line>, first: Word, second: Word, n: nat)
    requires n <= |lines|
    ensures CertainWords(lines, [first, second], n) == CertainWord(lines, first, n) + CertainWord(lines, second, n)
  {
    assert [first, second][..1] == [first] && [first][..0] == [];
    assert CertainWords(lines, [first], n) == {} + CertainWord(lines, first, n);
  }

  lemma OneWordMakes(lines: seq<Line>, word: Word, n: nat, w: World)
    requires n <= |lines|
    ensures Substituted(lines, [word], n, w) == Value(lines, word, n, w)
  {
    assert [word][..0] == [];
  }

  lemma SeenToTheEnd(words: seq<Word>)
    requires words != [] && forall i | 0 <= i < |words| - 1 :: !Ends(words[i])
    ensures Seen(words) == words
  {
    var seen := Seen(words);
    assert seen != [] ==> seen[|seen| - 1] == words[|seen| - 1];
  }

  /** A list on one line, without references, reads as it is spelled. */
  lemma OneListReads(name: string, words: seq<Word>, read: seq<string>)
    requires words != [] && |read| == |words|
    requires forall i | 0 <= i < |words| :: !words[i].Ref? && read[i] == Spelled(words[i])
    ensures Expand([Assigned(name, words)], name, 1) == Words(read)
  {
    assert Bindings([Assigned(name, words)][1..], name) == 0;
    SpelledWordsRead([Assigned(name, words)], words, read);
  }

  lemma {:induction false} SpelledWordsRead(lines: seq<Line>, words: seq<Word>, read: seq<string>)
    requires |read| == |words| && forall i | 0 <= i < |words| :: !words[i].Ref? && read[i] == Spelled(words[i])
    ensures ExpandWords(lines, words, 0) == Words(read)
    decreases |words|
  {
    if words != [] {
      var last := |words| - 1;
      SpelledWordsRead(lines, words[..last], read[..last]);
      assert read == read[..last] + [read[last]];
    }
  }

  lemma OneLineMakes(name: string, value: seq<Word>, w: World)
    ensures Made([Assigned(name, value)], name, 1, w)
         == Bound(Substituted([Assigned(name, value)], Seen(value), 0, w), false)
  {
    assert Made([Assigned(name, value)], name, 0, w) == Bound(w.environment(name), false);
  }

  lemma TwoWordsMake(lines: seq<Line>, first: Word, second: Word, n: nat, w: World)
    requires n <= |lines|
    ensures Substituted(lines, [first, second], n, w) == Value(lines, first, n, w) + Value(lines, second, n, w)
  {
    assert [first, second][..1] == [first];
    OneWordMakes(lines, first, n, w);
  }

  /** What follows a comment sign is read, and make does not see it. */
  lemma CommentsAreRead(gate: string, rest: string, w: World)
    ensures var lines := [Assigned("A", [Literal(gate), Comment("", rest, false)])];
            Expand(lines, "A", 1) == Words([gate, "#" + rest]) && Made(lines, "A", 1, w).value == [gate]
  {
    var value := [Literal(gate), Comment("", rest, false)];
    assert "" + "#" + rest == "#" + rest;
    OneListReads("A", value, [gate, "#" + rest]);
    hide Expand, Made, Substituted, Seen;
    SeenToTheEnd(value);
    OneLineMakes("A", value, w);
    TwoWordsMake([Assigned("A", value)], value[0], value[1], 0, w);
  }

  /** So is what follows an escaped backslash at the end of a line, where make goes
      on to another line. */
  lemma SplitLinesAreRead(gate: string, next: string, w: World)
    ensures var lines := [Assigned("A", [Literal(gate), Split("", false), Literal(next)])];
            Expand(lines, "A", 1) == Words([gate, "\\", next]) && Made(lines, "A", 1, w).value == [gate, "\\\\"]
  {
    var value := [Literal(gate), Split("", false), Literal(next)];
    assert "" + "\\" == "\\" && "" + "\\\\" == "\\\\";
    OneListReads("A", value, [gate, "\\", next]);
    assert Seen(value) == [value[0], value[1]] by { assert Seen(value[1..]) == [value[1]]; }
    hide Expand, Made, Substituted, Seen;
    OneLineMakes("A", value, w);
    TwoWordsMake([Assigned("A", value)], value[0], value[1], 0, w);
  }

  /** A name used above the line that binds it is read all the same; make takes it
      from the environment. */
  lemma ForwardReferencesAreRead(gate: string, w: World)
    ensures var lines := [Assigned("A", [Ref("B")]), Assigned("B", [Literal(gate)])];
            Expand(lines, "A", 2) == Words([gate]) && Made(lines, "A", 2, w).value == w.environment("B")
  {
    var lines := [Assigned("A", [Ref("B")]), Assigned("B", [Literal(gate)])];
    assert lines[1..][1..] == [] && IndexOf(lines[1..], Assign("B")) == 0;
    assert IndexOf(lines, Assign("A")) == 0 && IndexOf(lines, Assign("B")) == 1;
    assert Bindings(lines[1..], "B") == 1 && Bindings(lines[1..], "A") == 0;
    OneWordReads(lines, Literal(gate), 0);
    assert Expand(lines, "B", 1) == Words([gate]);
    OneWordReads(lines, Ref("B"), 1);
    SeenToTheEnd([Ref("B")]);
    OneWordMakes(lines, Ref("B"), 0, w);
    assert Made(lines, "B", 0, w) == Bound(w.environment("B"), false);
    assert Made(lines, "A", 1, w).value == w.environment("B");
  }

  /** A binding that does not show goes unread, and make takes the later one. */
  lemma HiddenBindingsAreMissed(gate: string, w: World)
    ensures var hidden := Line(HiddenBinding("A", true, false), false, false, [Literal("A"), Literal("!=")], []);
            var lines := [Assigned("A", [Literal(gate)]), hidden];
            Expand(lines, "A", 1) == Words([gate]) && Made(lines, "A", 2, w).value == w.others(1).value
  {
    var hidden := Line(HiddenBinding("A", true, false), false, false, [Literal("A"), Literal("!=")], []);
    var lines := [Assigned("A", [Literal(gate)]), hidden];
    assert Bindings(lines[1..][1..], "A") == 0 && Bindings(lines[1..], "A") == 0;
    OneWordReads(lines, Literal(gate), 0);
    Unpinned(lines, "A", 1, w);
  }

  /** An override that does not show goes unread, and make keeps to it even where
      the list stands below. */
  lemma OverridesAreMissed(gate: string, w: World)
    ensures var hidden := Line(HiddenBinding("A", false, true), false, false, [Literal("override"), Literal("A")], []);
            var lines := [hidden, Assigned("A", [Literal(gate)])];
            Expand(lines, "A", 1) == Words([gate]) && Made(lines, "A", 2, w).value == w.others(0).value
  {
    var hidden := Line(HiddenBinding("A", false, true), false, false, [Literal("override"), Literal("A")], []);
    var lines := [hidden, Assigned("A", [Literal(gate)])];
    assert Bindings(lines[1..][1..], "A") == 0 && Bindings(lines[1..], "A") == 1;
    assert IndexOf(lines[1..], Assign("A")) == 0 && IndexOf(lines, Assign("A")) == 1;
    OneWordReads(lines, Literal(gate), 0);
    assert Made(lines, "A", 1, w) == Bound(w.others(0).value, true);
  }

  /** An eval in another list's value binds the name unread. */
  lemma EvalsAreMissed(gate: string, w: World)
    ensures var other := Line(Assign("X"), false, true, [Literal("X"), Literal(":="), Opaque("$(eval)")], [Opaque("$(eval)")]);
            var lines := [Assigned("A", [Literal(gate)]), other];
            Expand(lines, "A", 1) == Words([gate]) && Made(lines, "A", 2, w) == w.included(1, "A")
  {
    var other := Line(Assign("X"), false, true, [Literal("X"), Literal(":="), Opaque("$(eval)")], [Opaque("$(eval)")]);
    var lines := [Assigned("A", [Literal(gate)]), other];
    assert Bindings(lines[1..][1..], "A") == 0 && Bindings(lines[1..], "A") == 0;
    OneWordReads(lines, Literal(gate), 0);
  }

  /** An assignment without a value reads as the words of the line below. */
  lemma EmptyListsReadOn(next: Line, w: World)
    requires next.form.Else? && !next.unseen && next.words == [Literal(next.form.first)]
    ensures var lines := [Assigned("A", []), next];
            Expand(lines, "A", 1) == Words([next.form.first]) && Made(lines, "A", 2, w).value == []
  {
    var lines := [Assigned("A", []), next];
    assert Bindings(lines[1..][1..], "A") == 0 && Bindings(lines[1..], "A") == 0;
    assert ReadOn(lines[1..]) == next.words;
    OneWordReads(lines, Literal(next.form.first), 0);
    Unpinned(lines, "A", 0, w);
    assert Made(lines, "A", 1, w).value == [];
  }
}
