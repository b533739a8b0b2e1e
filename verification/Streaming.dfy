/** One output pipe of a running child, read as it comes. However its bytes are
    cut into reads, the text and the lines come out as from one whole buffer. */
module Streaming {
  import opened Common
  import opened Utf8
  import opened Newlines

  const CHUNK := 65536

  function Join(parts: seq<string>): string {
    if parts == [] then "" else Join(parts[..|parts| - 1]) + parts[|parts| - 1]
  }

  /** The lines that parse as events, in order. */
  function Parsed<E>(parse: string -> Option<E>, lines: seq<string>): seq<E> {
    if lines == [] then []
    else
      var first, others := parse(lines[0]), Parsed(parse, lines[1..]);
      if first.Some? then [first.value] + others else others
  }

  lemma {:induction false} ParsedSplits<E>(parse: string -> Option<E>, a: seq<string>, b: seq<string>)
    ensures Parsed(parse, a + b) == Parsed(parse, a) + Parsed(parse, b)
  {
    if a == [] {
      assert a + b == b;
    } else {
      assert (a + b)[1..] == a[1..] + b;
      ParsedSplits(parse, a[1..], b);
    }
  }

  /** Handing over the event on the first line leaves the same events in all. */
  lemma ParsedCons<E>(parse: string -> Option<E>, handed: seq<E>, line: string, lines: seq<string>)
    ensures handed + Parsed(parse, [line] + lines)
         == (if parse(line).Some? then handed + [parse(line).value] else handed) + Parsed(parse, lines)
  {
    assert ([line] + lines)[1..] == lines;
  }

  /** What may be let out of a text: all of it at the end, and until then not a
      closing CR, which may be half of a pair. */
  function Settled(text: string, final: bool): string {
    if EndsInCr(text) && !final then text[..|text| - 1] else text
  }

  /** One step of the newline decoder: with a CR held back or not, the new text
      put out and whether a CR is held back after it. */
  function NewlineStep(held: bool, decoded: string, final: bool): (string, bool) {
    if decoded == "" && !final then ("", held)
    else
      var output := if held then "\r" + decoded else decoded;
      (Translate(Settled(output, final)), EndsInCr(output) && !final)
  }

  /** A held-back CR is put before the new text, which is then settled with it. */
  lemma SettlingGoesOn(before: string, decoded: string, final: bool)
    ensures var output := if EndsInCr(before) then "\r" + decoded else decoded;
            && before + decoded == Settled(before, false) + output
            && (decoded != "" || final ==>
                  && Settled(before + decoded, final) == Settled(before, false) + Settled(output, final)
                  && EndsInCr(before + decoded) == EndsInCr(output))
  {
    assert before + decoded == Settled(before, false) + (if EndsInCr(before) then "\r" + decoded else decoded);
  }

  lemma NewlineStepsAddUp(before: string, decoded: string, final: bool)
    ensures var (out, held) := NewlineStep(EndsInCr(before), decoded, final);
            && held == (EndsInCr(before + decoded) && !final)
            && Translate(Settled(before + decoded, final)) == Translate(Settled(before, false)) + out
  {
    hide Translate;
    if decoded == "" && !final {
      assert before + decoded == before;
    } else {
      var output := if EndsInCr(before) then "\r" + decoded else decoded;
      SettlingGoesOn(before, decoded, final);
      TranslateSplits(Settled(before, false), Settled(output, final));
    }
  }

  /** What a decoder that has seen `bytes` has in hand: an incomplete character,
      and whether it holds back a CR. */
  ghost predicate Holds(bytes: seq<byte>, undecoded: seq<byte>, heldCr: bool, finished: bool) {
    && Decode(bytes).Decoded? && undecoded == Decode(bytes).rest
    && heldCr == (EndsInCr(Decode(bytes).text) && !finished)
    && (finished ==> undecoded == [])
  }

  /** The text that is out once a decoder has seen `bytes`. */
  ghost function Out(bytes: seq<byte>, finished: bool): string
    requires Decode(bytes).Decoded?
  {
    Translate(Settled(Decode(bytes).text, finished))
  }

  /** The events of the complete lines have been handed over, and the rest of the
      text is pending. */
  ghost predicate Showed<E>(parse: string -> Option<E>, text: string, pending: string, handed: seq<E>) {
    pending == Remainder(text) && handed == Parsed(parse, Lines(text))
  }

  /** Decoding goes on where it stopped: what comes of the next chunk is what the
      longer buffer comes to beyond the shorter one. */
  lemma DecodingGoesOn(before: seq<byte>, chunk: seq<byte>, final: bool, undecoded: seq<byte>, heldCr: bool)
    requires Holds(before, undecoded, heldCr, false)
    ensures var r, whole := Decode(undecoded + chunk), Decode(before + chunk);
            && Decode(before).Decoded? && (whole.Malformed? <==> r.Malformed?) && (r.Decoded? ==> whole.rest == r.rest)
            && (r.Decoded? && !(final && r.rest != []) ==>
                  var (output, held) := NewlineStep(heldCr, r.text, final);
                  Holds(before + chunk, r.rest, held, final) && Out(before + chunk, final) == Out(before, false) + output)
  {
    DecodeContinues(before, chunk);
    var r := Decode(undecoded + chunk);
    if r.Decoded? { NewlineStepsAddUp(Decode(before).text, r.text, final); }
    hide Decode, NewlineStep, Translate, Settled;
  }

  /** More text, and its lines, and no event twice. */
  lemma ShowingGoesOn<E>(parse: string -> Option<E>, before: string, more: string)
    ensures Showed(parse, before + more, Remainder(Remainder(before) + more),
                   Parsed(parse, Lines(before)) + Parsed(parse, Lines(Remainder(before) + more)))
  {
    LinesExtend(before, more);
    ParsedSplits(parse, Lines(before), Lines(Remainder(before) + more));
  }

  /** The kernel's end of an output pipe: what the child has written in all, what
      of that waits to be read, and whether the child has closed it. */
  class Pipe {
    var buffered: seq<byte>
    var ended: bool
    var open: bool
    ghost var written: seq<byte>

    constructor ()
      ensures buffered == written == [] && !ended && open
    {
      buffered, written, ended, open := [], [], false, true;
    }
  }

  datatype Progress = More | Eof | Undecodable

  class StreamingReader<E> {
    const pipe: Pipe
    const parse: string -> Option<E>
    const watched: bool           // is there a formatter to hand events to?
    var raw: seq<byte>
    var undecoded: seq<byte>      // the decoder's incomplete character
    var heldCr: bool
    var parts: seq<string>
    var pendingLine: string
    var handed: seq<E>            // the events given to the formatter
    ghost var finished: bool

    function Text(): string
      reads this
    {
      Join(parts)
    }

    /** The decoder has seen `bytes` and holds back what one pass over them would. */
    ghost predicate Decodes(bytes: seq<byte>)
      reads this
    {
      Holds(bytes, undecoded, heldCr, finished)
    }

    /** The formatter has been handed the complete lines of the text, once each. */
    ghost predicate Shows()
      reads this
    {
      if watched then Showed(parse, Text(), pendingLine, handed) else pendingLine == "" && handed == []
    }

    /** Everything the reader holds is what one pass over `raw` would give, and
        together with what is still in the pipe it is all the child has written. */
    ghost predicate Valid()
      reads this, pipe
    {
      && raw + pipe.buffered == pipe.written
      && Decodes(raw)
      && Text() == Out(raw, finished)
      && Shows()
      && pipe.open == !finished
      && (finished ==> pipe.ended && pipe.buffered == [])
    }

    constructor (pipe: Pipe, parse: string -> Option<E>, watched: bool)
      requires pipe.written == pipe.buffered && pipe.open
      ensures Valid() && raw == [] && !finished && this.pipe == pipe && this.parse == parse && this.watched == watched
    {
      this.pipe, this.parse, this.watched := pipe, parse, watched;
      raw, undecoded, heldCr, parts, pendingLine, handed := [], [], false, [], "", [];
      finished := false;
      new;
      assert raw + pipe.buffered == pipe.written;
      assert Shows() by { assert Text() == "" && Lines("") == [] && Remainder("") == ""; }
      assert Decodes([]) && Translate("") == "";
    }

    /** Bytes to characters, CRLF pairs to line feeds: the new text, or nothing
        if the bytes are no UTF-8. */
    method Decoder(ghost before: seq<byte>, chunk: seq<byte>, final: bool) returns (decoded: Option<string>)
      requires Decodes(before) && !finished
      modifies this`undecoded, this`heldCr, this`finished
      ensures decoded.None? ==> !finished
      ensures decoded.None? <==> Decode(before + chunk).Malformed? || (final && Decode(before + chunk).rest != [])
      ensures decoded.Some? ==>
                && finished == final && Decodes(before + chunk)
                && Decode(before).Decoded? && Out(before + chunk, final) == Out(before, false) + decoded.value
    {
      hide Decode, NewlineStep, Out;
      DecodingGoesOn(before, chunk, final, undecoded, heldCr);
      hide Holds;
      var r := Decode(undecoded + chunk);
      if r.Malformed? || (final && r.rest != []) { return None; }
      var (output, held) := NewlineStep(heldCr, r.text, final);
      undecoded, heldCr, finished := r.rest, held, final;
      decoded := Some(output);
    }

    /** Append new text, and hand over the events on the lines it completes. */
    method Append(decoded: string)
      requires Shows()
      modifies this`parts, this`pendingLine, this`handed
      ensures Shows() && Text() == old(Text()) + decoded
    {
      ghost var before := Text();
      if decoded == "" {
        assert before + decoded == before;
        return;
      }
      parts := parts + [decoded];
      assert Text() == before + decoded;
      if watched {
        ShowingGoesOn(parse, before, decoded);
        pendingLine := pendingLine + decoded;
        HandOver();
      }
    }

    /** Cut the complete lines off what is pending, one at a time. */
    method HandOver()
      modifies this`pendingLine, this`handed
      ensures pendingLine == Remainder(old(pendingLine))
      ensures handed == old(handed) + Parsed(parse, Lines(old(pendingLine)))
    {
      hide Lines, Remainder, Cut;
      ghost var total := handed + Parsed(parse, Lines(pendingLine));
      while Cut(pendingLine) < |pendingLine|
        invariant Remainder(old(pendingLine)) == Remainder(pendingLine)
        invariant handed + Parsed(parse, Lines(pendingLine)) == total
        decreases |pendingLine|
      {
        ghost var before, pending := handed, pendingLine;
        TakeLine();
        FirstLineOff(pending);
        ParsedCons(parse, before, pending[..Cut(pending)], Lines(pendingLine));
      }
      NoLine(pendingLine);
      assert handed + [] == handed;
    }

    method TakeLine()
      requires Cut(pendingLine) < |pendingLine|
      modifies this`pendingLine, this`handed
      ensures pendingLine == old(pendingLine)[Cut(old(pendingLine)) + 1..]
      ensures var event := parse(old(pendingLine)[..Cut(old(pendingLine))]);
              handed == if event.Some? then old(handed) + [event.value] else old(handed)
    {
      var cut := Cut(pendingLine);
      var line := pendingLine[..cut];
      pendingLine := pendingLine[cut + 1..];
      var event := parse(line);
      if event.Some? { handed := handed + [event.value]; }
    }

    /** The child writes, and perhaps closes its end; one that has closed it
        writes no more. */
    method ChildWrites(bytes: seq<byte>, ends: bool)
      requires Valid()
      modifies pipe`buffered, pipe`written, pipe`ended
      ensures Valid()
      ensures pipe.written == if old(pipe.ended) then old(pipe.written) else old(pipe.written) + bytes
      ensures pipe.ended == if old(pipe.ended) then true else ends
    {
      hide Holds, Showed, Join, Out, Decode;
      if !pipe.ended {
        assert raw + (pipe.buffered + bytes) == (raw + pipe.buffered) + bytes;
        pipe.buffered, pipe.written, pipe.ended := pipe.buffered + bytes, pipe.written + bytes, ends;
      }
    }

    /** Read one chunk, of whatever size the kernel makes available. */
    method Read(available: nat) returns (progress: Progress)
      requires Valid() && !finished
      requires pipe.buffered != [] ==> 1 <= available <= |pipe.buffered| && available <= CHUNK
      modifies this, pipe`buffered, pipe`open
      ensures raw + pipe.buffered == pipe.written
      ensures raw == if old(pipe.buffered) == [] then old(raw) else old(raw) + old(pipe.buffered)[..available]
      ensures progress.More? <==> if old(pipe.buffered) == [] then !old(pipe.ended) else !progress.Undecodable?
      ensures !progress.Undecodable? ==> Valid() && (finished <==> progress.Eof?)
      ensures progress.Eof? <==> old(pipe.ended) && old(pipe.buffered) == [] && DecodeAll(pipe.written).Some?
      ensures progress.Undecodable? ==>
                Decode(raw).Malformed? || (old(pipe.ended) && raw == pipe.written && DecodeAll(raw).None?)
    {
      if pipe.buffered != [] {
        var ok := Take(available);
        progress := if ok then More else Undecodable;
      } else if !pipe.ended {
        progress := More;
      } else {
        assert raw + [] == raw;
        var ok := Finish();
        progress := if ok then Eof else Undecodable;
      }
    }

    method Take(n: nat) returns (ok: bool)
      requires Valid() && !finished && 1 <= n <= |pipe.buffered|
      modifies this, pipe`buffered
      ensures raw == old(raw) + old(pipe.buffered)[..n] && raw + pipe.buffered == pipe.written
      ensures !finished && (if ok then Valid() else Decode(raw).Malformed?)
    {
      hide Decode, Out, Holds, Showed;
      var chunk := pipe.buffered[..n];
      ghost var before := raw;
      assert pipe.buffered == chunk + pipe.buffered[n..];
      assert before + (chunk + pipe.buffered[n..]) == (before + chunk) + pipe.buffered[n..];
      pipe.buffered := pipe.buffered[n..];
      raw := raw + chunk;
      var decoded := Decoder(before, chunk, false);
      ok := decoded.Some?;
      if ok { Append(decoded.value); }
    }

    method Finish() returns (ok: bool)
      requires Valid() && !finished && pipe.ended && pipe.buffered == []
      modifies this, pipe`open
      ensures raw == old(raw)
      ensures ok <==> DecodeAll(raw).Some?
      ensures ok ==> Valid() && finished
    {
      hide Decode, Out, Showed;
      var decoded := Decoder(raw, [], true);
      assert raw + [] == raw;
      ok := decoded.Some?;
      if ok {
        Append(decoded.value);
        pipe.open := false;
      }
    }
  }

  /** At every step: captured plus waiting is written, and the pipe is open until
      the end has been read. */
  lemma ReaderConserves<E>(reader: StreamingReader<E>)
    requires reader.Valid()
    ensures reader.raw + reader.pipe.buffered == reader.pipe.written
    ensures reader.pipe.open == !reader.finished
    ensures reader.finished ==> reader.pipe.ended && reader.pipe.buffered == []
  {
  }

  /** What a reader that reached the end has: exactly what decoding the whole
      output at once and translating its newlines gives, and each complete line
      of that handed over once. The cuts between reads left no trace. */
  lemma FinishedReaderIsBatch<E>(reader: StreamingReader<E>)
    requires reader.Valid() && reader.finished
    ensures reader.raw == reader.pipe.written && DecodeAll(reader.pipe.written).Some?
    ensures reader.Text() == Translate(DecodeAll(reader.pipe.written).value)
    ensures reader.watched ==> reader.handed == Parsed(reader.parse, Lines(reader.Text()))
  {
    assert reader.raw + [] == reader.raw;
  }
}
