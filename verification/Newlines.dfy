/** Universal newlines and the cutting of text into lines, whole and in pieces. */
module Newlines {

  /** How much of a text its first character out stands for: a CRLF pair is one. */
  function Step(text: string): (n: nat)
    requires text != ""
    ensures 1 <= n <= |text|
  {
    if text[0] == '\r' && 1 < |text| && text[1] == '\n' then 2 else 1
  }

  /** Every CRLF pair and every lone CR becomes a line feed. */
  function Translate(text: string): string {
    if text == "" then ""
    else [if text[0] == '\r' then '\n' else text[0]] + Translate(text[Step(text)..])
  }

  predicate EndsInCr(text: string) { text != "" && text[|text| - 1] == '\r' }

  lemma TranslateFirst(text: string)
    requires text != ""
    ensures Translate(text) == [if text[0] == '\r' then '\n' else text[0]] + Translate(text[Step(text)..])
  {
  }

  /** Text may be translated in two pieces wherever no CRLF pair is cut in half. */
  lemma {:induction false} TranslateSplits(a: string, b: string)
    requires !(EndsInCr(a) && b != "" && b[0] == '\n')
    ensures Translate(a + b) == Translate(a) + Translate(b)
    decreases |a|
  {
    if a == "" {
      assert a + b == b;
    } else {
      StepsAlike(a, b);
      TranslateFirst(a);
      TranslateFirst(a + b);
      hide Translate, Step;
      var rest := a[Step(a)..];
      TranslateSplits(rest, b);
      var out := [if a[0] == '\r' then '\n' else a[0]];
      assert (out + Translate(rest)) + Translate(b) == out + (Translate(rest) + Translate(b));
    }
  }

  lemma StepsAlike(a: string, b: string)
    requires a != "" && !(EndsInCr(a) && b != "" && b[0] == '\n')
    ensures Step(a + b) == Step(a) && (a + b)[Step(a)..] == a[Step(a)..] + b
    ensures EndsInCr(a[Step(a)..]) ==> EndsInCr(a)
  {
  }

  /** The lines of a text that are complete, without their line feeds. */
  function Lines(text: string): seq<string> {
    var cut := Cut(text);
    if cut == |text| then [] else [text[..cut]] + Lines(text[cut + 1..])
  }

  /** What follows the last line feed. */
  function Remainder(text: string): string {
    var cut := Cut(text);
    if cut == |text| then text else Remainder(text[cut + 1..])
  }

  lemma NoLine(text: string)
    requires Cut(text) == |text|
    ensures Lines(text) == [] && Remainder(text) == text
  {
  }

  lemma FirstLineOff(text: string)
    requires Cut(text) < |text|
    ensures Lines(text) == [text[..Cut(text)]] + Lines(text[Cut(text) + 1..])
    ensures Remainder(text) == Remainder(text[Cut(text) + 1..])
  {
    hide Cut;
  }

  /** Where the first line feed is, or the end. */
  function Cut(text: string): (n: nat)
    ensures n <= |text| && '\n' !in text[..n] && (n < |text| ==> text[n] == '\n')
  {
    if text == "" || text[0] == '\n' then 0 else 1 + Cut(text[1..])
  }

  lemma {:induction false} CutExtends(a: string, b: string)
    ensures Cut(a + b) == if Cut(a) < |a| then Cut(a) else |a| + Cut(b)
  {
    if a == "" {
      assert a + b == b;
    } else if a[0] != '\n' {
      assert (a + b)[1..] == a[1..] + b;
      CutExtends(a[1..], b);
    }
  }

  /** More text completes the remainder and adds its own lines after. */
  lemma {:induction false} LinesExtend(a: string, b: string)
    ensures Lines(a + b) == Lines(a) + Lines(Remainder(a) + b)
    ensures Remainder(a + b) == Remainder(Remainder(a) + b)
    decreases |a|
  {
    hide Lines, Remainder, Cut;
    CutExtends(a, b);
    var cut := Cut(a);
    if cut == |a| {
      NoLine(a);
      assert [] + Lines(a + b) == Lines(a + b);
    } else {
      FirstLineOff(a);
      FirstLineOff(a + b);
      assert (a + b)[..cut] == a[..cut] && (a + b)[cut + 1..] == a[cut + 1..] + b;
      LinesExtend(a[cut + 1..], b);
    }
  }

  /** Every occurrence of one CRLF pair becomes a line feed. */
  function PairsReplaced(text: string): string {
    if text == "" then ""
    else if 1 < |text| && text[0] == '\r' && text[1] == '\n' then "\n" + PairsReplaced(text[2..])
    else [text[0]] + PairsReplaced(text[1..])
  }

  function CrsReplaced(text: string): string {
    seq(|text|, i requires 0 <= i < |text| => if text[i] == '\r' then '\n' else text[i])
  }

  /** Translating is replacing the pairs and then what is left of the CRs. */
  lemma {:induction false} TranslateIsReplacing(text: string)
    ensures Translate(text) == CrsReplaced(PairsReplaced(text))
    decreases |text|
  {
    if text != "" {
      TranslateIsReplacing(text[Step(text)..]);
      var rest := PairsReplaced(text[Step(text)..]);
      var first := if Step(text) == 2 then '\n' else text[0];
      assert PairsReplaced(text) == [first] + rest;
      assert CrsReplaced([first] + rest) == CrsReplaced([first]) + CrsReplaced(rest);
    }
  }

  function Ended(lines: seq<string>): string {
    if lines == [] then "" else lines[0] + "\n" + Ended(lines[1..])
  }

  /** The lines and the remainder are the text, and no line feed is in them. */
  lemma {:induction false} LinesMakeTheText(text: string)
    ensures Ended(Lines(text)) + Remainder(text) == text
    ensures '\n' !in Remainder(text) && forall line | line in Lines(text) :: '\n' !in line
    decreases |text|
  {
    hide Lines, Remainder, Cut;
    var cut := Cut(text);
    if cut < |text| {
      var line, others := text[..cut], text[cut + 1..];
      FirstLineOff(text);
      LinesMakeTheText(others);
      assert text == line + "\n" + others;
      assert Ended([line] + Lines(others)) == line + "\n" + Ended(Lines(others)) by {
        assert ([line] + Lines(others))[1..] == Lines(others);
      }
    } else {
      NoLine(text);
      assert text[..cut] == text;
    }
  }
}
