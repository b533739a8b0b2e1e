/** Picking the JSON objects out of a text that has other things in it. */
module JsonScan {
  import opened Common

  /** What decoding at a position comes to: a value and where its text ends. */
  datatype Decoded<+T> = Decoded(value: T, end: nat)

  type Decoder<!T> = (string, nat) -> Option<Decoded<T>>

  /** A decoder only takes what is there, and takes something. */
  ghost predicate Advances<T(!new)>(decode: Decoder<T>) {
    forall text, i: nat :: decode(text, i).Some? ==> i < decode(text, i).value.end <= |text|
  }

  datatype Span<+T> = Span(start: nat, end: nat, value: T)

  ghost predicate InSome<T>(spans: seq<Span<T>>, i: nat) {
    exists k | 0 <= k < |spans| :: spans[k].start <= i < spans[k].end
  }

  /** The objects found at or after a position: each is what the decoder gives at
      an opening brace, they come in order and apart, and no brace is passed over
      that is outside all of them and starts something. */
  ghost predicate IsScan<T(!new)>(text: string, decode: Decoder<T>, from: nat, to: nat, spans: seq<Span<T>>) {
    && (forall k | 0 <= k < |spans| ::
          && from <= spans[k].start < spans[k].end <= to <= |text| && text[spans[k].start] == '{'
          && decode(text, spans[k].start) == Some(Decoded(spans[k].value, spans[k].end)))
    && (forall j, k | 0 <= j < k < |spans| :: spans[j].end <= spans[k].start)
    && (forall i | from <= i < to && i < |text| && text[i] == '{' :: InSome(spans, i) || decode(text, i).None?)
  }

  ghost predicate IsObject<T(!new)>(text: string, decode: Decoder<T>, span: Span<T>) {
    && span.start < span.end <= |text| && text[span.start] == '{'
    && decode(text, span.start) == Some(Decoded(span.value, span.end))
  }

  lemma ScanPasses<T(!new)>(text: string, decode: Decoder<T>, from: nat, to: nat, further: nat, spans: seq<Span<T>>)
    requires IsScan(text, decode, from, to, spans) && from <= to <= further <= |text|
    requires forall i | to <= i < further :: text[i] == '{' ==> decode(text, i).None?
    ensures IsScan(text, decode, from, further, spans)
  {
  }

  lemma ScanTakes<T(!new)>(text: string, decode: Decoder<T>, from: nat, spans: seq<Span<T>>, span: Span<T>)
    requires from <= span.start && IsScan(text, decode, from, span.start, spans) && IsObject(text, decode, span)
    ensures IsScan(text, decode, from, span.end, spans + [span])
  {
    var more := spans + [span];
    forall i | from <= i < span.end && text[i] == '{' ensures InSome(more, i) || decode(text, i).None? {
      if i >= span.start {
        assert more[|spans|] == span;
      } else if InSome(spans, i) {
        var k :| 0 <= k < |spans| && spans[k].start <= i < spans[k].end;
        assert more[k] == spans[k];
      }
    }
  }

  lemma ScanStarts<T(!new)>(text: string, decode: Decoder<T>, from: nat, span: Span<T>, spans: seq<Span<T>>)
    requires from <= span.start && IsScan(text, decode, span.end, |text|, spans) && IsObject(text, decode, span)
    requires forall i | from <= i < span.start :: text[i] != '{'
    ensures IsScan(text, decode, from, |text|, [span] + spans)
  {
    var more := [span] + spans;
    forall i | span.start <= i < |text| && text[i] == '{' ensures InSome(more, i) || decode(text, i).None? {
      if i < span.end {
        assert more[0] == span;
      } else if InSome(spans, i) {
        var k :| 0 <= k < |spans| && spans[k].start <= i < spans[k].end;
        assert more[k + 1] == spans[k];
      }
    }
    hide InSome;
    assert more[0] == span && forall k | 0 < k < |more| :: more[k] == spans[k - 1];
  }

  method Find(text: string, from: nat) returns (at: Option<nat>)
    requires from <= |text|
    ensures at.Some? ==> from <= at.value < |text| && text[at.value] == '{'
    ensures forall i | from <= i < at.GetOr(|text|) :: text[i] != '{'
  {
    for i := from to |text|
      invariant forall k | from <= k < i :: text[k] != '{'
    {
      if text[i] == '{' { return Some(i); }
    }
    at := None;
  }

  function Values<T>(spans: seq<Span<T>>): (values: seq<T>)
    ensures |values| == |spans| && forall k | 0 <= k < |spans| :: values[k] == spans[k].value
  {
    seq(|spans|, k requires 0 <= k < |spans| => spans[k].value)
  }

  /** Are these the values a scan of the whole text finds, in order? */
  ghost predicate Scanned<T(!new)>(text: string, decode: Decoder<T>, found: seq<T>) {
    exists spans :: IsScan(text, decode, 0, |text|, spans) && found == Values(spans)
  }

  /** Every object of the text, in order of appearance. */
  method Objects<T(!new)>(text: string, decode: Decoder<T>) returns (found: seq<T>)
    requires Advances(decode)
    ensures Scanned(text, decode, found)
  {
    found := [];
    ghost var spans: seq<Span<T>> := [];
    var idx := 0;
    while idx < |text|
      invariant idx <= |text| && IsScan(text, decode, 0, idx, spans) && found == Values(spans)
      decreases |text| - idx
    {
      hide IsScan;
      var brace := Find(text, idx);
      var start := brace.GetOr(|text|);
      ScanPasses(text, decode, 0, idx, start, spans);
      if brace.None? {
        idx := |text|;
        break;
      }
      match decode(text, start)
      case None =>
        ScanPasses(text, decode, 0, start, start + 1, spans);
        idx := start + 1;
      case Some(Decoded(value, end)) =>
        ScanTakes(text, decode, 0, spans, Span(start, end, value));
        found, spans := found + [value], spans + [Span(start, end, value)];
        idx := end;
    }
  }

  lemma {:induction false} NoEarlier<T(!new)>(text: string, decode: Decoder<T>, from: nat, a: seq<Span<T>>, b: seq<Span<T>>)
    requires Advances(decode)
    requires IsScan(text, decode, from, |text|, a) && IsScan(text, decode, from, |text|, b) && a != []
    ensures b != [] && b[0].start <= a[0].start
  {
    assert InSome(b, a[0].start);
    var k :| 0 <= k < |b| && b[k].start <= a[0].start < b[k].end;
    assert k > 0 ==> b[0].end <= b[k].start;
  }

  lemma RestIsScan<T(!new)>(text: string, decode: Decoder<T>, from: nat, a: seq<Span<T>>)
    requires IsScan(text, decode, from, |text|, a) && a != []
    ensures IsScan(text, decode, a[0].end, |text|, a[1..])
  {
    forall i | a[0].end <= i < |text| && text[i] == '{' ensures InSome(a[1..], i) || decode(text, i).None? {
      if InSome(a, i) {
        var k :| 0 <= k < |a| && a[k].start <= i < a[k].end;
        assert a[1..][k - 1] == a[k];
      }
    }
  }

  /** There is only one way to scan a text. */
  lemma {:induction false} ScansAgree<T(!new)>(text: string, decode: Decoder<T>, from: nat, a: seq<Span<T>>, b: seq<Span<T>>)
    requires Advances(decode)
    requires IsScan(text, decode, from, |text|, a) && IsScan(text, decode, from, |text|, b)
    ensures a == b
    decreases |a|
  {
    if a == [] {
      if b != [] { NoEarlier(text, decode, from, b, a); }
    } else {
      NoEarlier(text, decode, from, a, b);
      NoEarlier(text, decode, from, b, a);
      assert a[0] == b[0];
      RestIsScan(text, decode, from, a);
      RestIsScan(text, decode, from, b);
      ScansAgree(text, decode, a[0].end, a[1..], b[1..]);
    }
  }

  /** An object printed among other text, the text before it having no brace. */
  datatype Piece<+T> = Piece(noise: string, printed: string, value: T)

  function Laid<T>(pieces: seq<Piece<T>>, tail: string): string {
    if pieces == [] then tail else pieces[0].noise + pieces[0].printed + Laid(pieces[1..], tail)
  }

  function Spans<T>(pieces: seq<Piece<T>>, offset: nat): seq<Span<T>> {
    if pieces == [] then []
    else
      var start := offset + |pieces[0].noise|;
      [Span(start, start + |pieces[0].printed|, pieces[0].value)] + Spans(pieces[1..], start + |pieces[0].printed|)
  }

  /** An object decodes alike wherever it stands, for its own text says where it
      ends. Other values need not: a number goes on with the digits after it. */
  ghost predicate Delimits<T(!new)>(decode: Decoder<T>) {
    forall before, printed, after, value |
      printed != "" && printed[0] == '{' && decode(printed, 0) == Some(Decoded(value, |printed|)) ::
      decode(before + printed + after, |before|) == Some(Decoded(value, |before| + |printed|))
  }

  predicate Prints<T(==)>(decode: Decoder<T>, piece: Piece<T>) {
    && '{' !in piece.noise && piece.printed != "" && piece.printed[0] == '{'
    && decode(piece.printed, 0) == Some(Decoded(piece.value, |piece.printed|))
  }

  lemma PieceStandsOut<T(!new)>(before: string, piece: Piece<T>, rest: string, decode: Decoder<T>)
    requires Delimits(decode) && Prints(decode, piece)
    ensures var start := |before| + |piece.noise|;
            var text := before + piece.noise + piece.printed + rest;
            && IsObject(text, decode, Span(start, start + |piece.printed|, piece.value))
            && forall i | |before| <= i < start :: text[i] != '{'
  {
    var ahead := before + piece.noise;
    var text := ahead + piece.printed + rest;
    assert decode(text, |ahead|) == Some(Decoded(piece.value, |ahead| + |piece.printed|));
    assert text[|ahead|] == piece.printed[0];
    assert forall i | |before| <= i < |ahead| :: text[i] == piece.noise[i - |before|];
  }

  lemma NothingToFind<T(!new)>(before: string, tail: string, decode: Decoder<T>)
    requires '{' !in tail
    ensures IsScan(before + tail, decode, |before|, |before + tail|, [])
  {
    assert forall i | |before| <= i < |before + tail| :: (before + tail)[i] == tail[i - |before|];
  }

  lemma LaidFirst<T>(before: string, pieces: seq<Piece<T>>, tail: string)
    requires pieces != []
    ensures var ahead := before + pieces[0].noise + pieces[0].printed;
            && before + Laid(pieces, tail) == ahead + Laid(pieces[1..], tail)
            && Spans(pieces, |before|) == [Span(|before| + |pieces[0].noise|, |ahead|, pieces[0].value)] + Spans(pieces[1..], |ahead|)
  {
  }

  lemma {:induction false} LaidIsScan<T(!new)>(before: string, pieces: seq<Piece<T>>, tail: string, decode: Decoder<T>)
    requires Delimits(decode) && '{' !in tail
    requires forall piece | piece in pieces :: Prints(decode, piece)
    ensures IsScan(before + Laid(pieces, tail), decode, |before|, |before + Laid(pieces, tail)|, Spans(pieces, |before|))
    decreases |pieces|
  {
    hide IsScan, IsObject, Delimits, Prints;
    if pieces == [] {
      NothingToFind(before, tail, decode);
    } else {
      var p := pieces[0];
      var ahead := before + p.noise + p.printed;
      LaidFirst(before, pieces, tail);
      hide Laid, Spans;
      LaidIsScan(ahead, pieces[1..], tail, decode);
      PieceStandsOut(before, p, Laid(pieces[1..], tail), decode);
      ScanStarts(before + Laid(pieces, tail), decode, |before|, Span(|before| + |p.noise|, |ahead|, p.value), Spans(pieces[1..], |ahead|));
    }
  }

  lemma {:induction false} SpansHoldTheValues<T>(pieces: seq<Piece<T>>, offset: nat)
    ensures |Spans(pieces, offset)| == |pieces|
    ensures forall k | 0 <= k < |pieces| :: Spans(pieces, offset)[k].value == pieces[k].value
    decreases |pieces|
  {
    if pieces != [] {
      SpansHoldTheValues(pieces[1..], offset + |pieces[0].noise| + |pieces[0].printed|);
      assert forall k | 0 < k < |pieces| :: Spans(pieces, offset)[k].value == pieces[1..][k - 1].value;
    }
  }

  /** A text yields one list of objects and no other. */
  lemma OneScan<T(!new)>(text: string, decode: Decoder<T>, found: seq<T>, found': seq<T>)
    requires Advances(decode) && Scanned(text, decode, found) && Scanned(text, decode, found')
    ensures found == found'
  {
    var spans :| IsScan(text, decode, 0, |text|, spans) && found == Values(spans);
    var spans' :| IsScan(text, decode, 0, |text|, spans') && found' == Values(spans');
    ScansAgree(text, decode, 0, spans, spans');
  }

  /** Objects printed with anything but braces around them are found, all of them
      and nothing else, in order. */
  lemma PrintedObjectsAreFound<T(!new)>(pieces: seq<Piece<T>>, tail: string, decode: Decoder<T>, found: seq<T>)
    requires Advances(decode) && Delimits(decode) && '{' !in tail
    requires forall piece | piece in pieces :: Prints(decode, piece)
    requires Scanned(Laid(pieces, tail), decode, found)
    ensures |found| == |pieces| && forall k | 0 <= k < |found| :: found[k] == pieces[k].value
  {
    LaidIsScan("", pieces, tail, decode);
    assert "" + Laid(pieces, tail) == Laid(pieces, tail);
    SpansHoldTheValues(pieces, 0);
    OneScan(Laid(pieces, tail), decode, found, Values(Spans(pieces, 0)));
  }

  /** The object a reply has wrapped in prose: the last one there is. */
  method Embedded<T(!new)>(reply: string, decode: Decoder<T>) returns (candidate: Option<T>)
    requires Advances(decode)
    ensures forall found | Scanned(reply, decode, found) ::
              candidate == if found == [] then None else Some(found[|found| - 1])
  {
    hide Scanned, IsScan;
    var candidates := Objects(reply, decode);
    forall found | Scanned(reply, decode, found) ensures found == candidates {
      OneScan(reply, decode, found, candidates);
    }
    candidate := if candidates == [] then None else Some(candidates[|candidates| - 1]);
  }
}
