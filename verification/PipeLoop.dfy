/** The loop that drives a child's three pipes without blocking. No byte is lost
    or made up on any of them, and it ends normally only when both outputs have
    ended and the prompt has been taken or refused. */
module PipeLoop {
  import opened Common
  import opened Utf8
  import opened Newlines
  import opened Streaming

  /** The kernel's end of the child's stdin. */
  class InputPipe {
    var open: bool
    ghost var accepted: seq<byte>

    constructor ()
      ensures open && accepted == []
    {
      open, accepted := true, [];
    }
  }

  /** What a ready stdin does with a write. */
  datatype WriteResult = Took(n: nat) | Broken

  class StreamingInput {
    const pipe: InputPipe
    ghost const prompt: seq<byte>
    var pending: seq<byte>
    ghost var refused: bool       // the child closed its end

    /** Written plus pending is the prompt, and a drained pipe is closed. */
    ghost predicate Valid()
      reads this, pipe
    {
      pipe.accepted + pending == prompt && (pipe.open <==> pending != [] && !refused)
    }

    constructor (pipe: InputPipe, data: seq<byte>)
      requires pipe.open && pipe.accepted == []
      modifies pipe
      ensures Valid() && prompt == data && !refused && this.pipe == pipe
      ensures pipe.accepted == []
    {
      this.pipe, prompt, pending, refused := pipe, data, data, false;
      new;
      if pending == [] { pipe.open := false; }
      assert pipe.accepted + pending == prompt;
    }

    /** Write one ready chunk; false once stdin is closed. */
    method Write(result: WriteResult) returns (more: bool)
      requires Valid() && pipe.open
      requires result.Took? ==> 1 <= result.n <= |pending|
      modifies this, pipe
      ensures Valid() && (more <==> pipe.open)
      ensures result.Took? ==> pipe.accepted == old(pipe.accepted) + old(pending)[..result.n] && refused == old(refused)
      ensures result.Broken? ==> refused && pipe.accepted == old(pipe.accepted)
    {
      match result
      case Broken =>
        pipe.open, refused := false, true;
        more := false;
      case Took(n) =>
        assert pending == pending[..n] + pending[n..];
        pipe.accepted := pipe.accepted + pending[..n];
        pending := pending[n..];
        if pending == [] { pipe.open := false; }
        more := pipe.open;
    }
  }

  datatype Stream = Stdout | Stderr

  /** One turn of the loop, as the child and the kernel decide it: what the child
      writes and closes, which pipes are found ready, and how much they move. */
  datatype Round = Round(
    out: seq<byte>, outEnds: bool, err: seq<byte>, errEnds: bool,
    readable: map<Stream, nat>, writable: Option<WriteResult>)

  datatype Ending =
    | Completed(stdout: string, stderr: string)
    | TimedOut(rawOut: seq<byte>, rawErr: seq<byte>)
    | BadText

  function Clamp(n: nat, most: nat): nat
    requires 1 <= most
    ensures 1 <= Clamp(n, most) <= most && (1 <= n <= most ==> Clamp(n, most) == n)
  {
    if n == 0 then 1 else if n < most then n else most
  }

  /** How much of what waits one read takes: something, and a chunk at most. */
  function Available(buffered: seq<byte>, n: nat): (taken: nat)
    ensures taken <= |buffered| && taken <= 65536 && (buffered != [] ==> 1 <= taken)
    ensures 1 <= n <= |buffered| && n <= 65536 ==> taken == n
  {
    if buffered == [] then 0 else Clamp(n, if |buffered| < CHUNK then |buffered| else CHUNK)
  }

  // ---- What the schedule makes of the pipes ------------------------------

  /** An output pipe: what the child has written to it in all and whether it has
      ended it, what has been captured, and whether its end has been read. */
  datatype Side = Side(written: seq<byte>, ended: bool, raw: seq<byte>, done: bool) {
    function Waiting(): seq<byte> { if |raw| <= |written| then written[|raw|..] else [] }
  }

  function Offered(side: Side, bytes: seq<byte>, ends: bool): Side {
    if side.ended then side else side.(written := side.written + bytes, ended := ends)
  }

  /** Found ready, a pipe gives up what one read takes, or its end. */
  function Drained(side: Side, ready: Option<nat>): Side {
    if side.done || ready.None? then side
    else if side.Waiting() == [] then side.(done := side.ended)
    else side.(raw := side.raw + side.Waiting()[..Available(side.Waiting(), ready.value)])
  }

  /** What has been taken of the prompt, and whether the child has refused the rest. */
  datatype Feed = Feed(accepted: seq<byte>, refused: bool) {
    predicate Over(prompt: seq<byte>) { refused || |prompt| <= |accepted| }
  }

  function Fed(feed: Feed, prompt: seq<byte>, ready: Option<WriteResult>): Feed {
    if feed.Over(prompt) || ready.None? then feed
    else
      match ready.value
      case Broken => feed.(refused := true)
      case Took(n) => feed.(accepted := prompt[..|feed.accepted| + Clamp(n, |prompt| - |feed.accepted|)])
  }

  datatype Streams = Streams(out: Side, err: Side, feed: Option<Feed>)

  predicate AllOver(s: Streams, prompt: seq<byte>) {
    s.out.done && s.err.done && (s.feed.Some? ==> s.feed.value.Over(prompt))
  }

  /** Is nothing that is still waited on ready? */
  predicate Idle(s: Streams, prompt: seq<byte>, round: Round) {
    && (s.out.done || Stdout !in round.readable) && (s.err.done || Stderr !in round.readable)
    && (s.feed.None? || s.feed.value.Over(prompt) || round.writable.None?)
  }

  function Acted(s: Streams, round: Round): Streams {
    s.(out := Offered(s.out, round.out, round.outEnds), err := Offered(s.err, round.err, round.errEnds))
  }

  function Served(s: Streams, prompt: seq<byte>, readable: map<Stream, nat>, writable: Option<WriteResult>): Streams {
    Streams(Drained(s.out, Lookup(readable, Stdout)), Drained(s.err, Lookup(readable, Stderr)),
            if s.feed.Some? then Some(Fed(s.feed.value, prompt, writable)) else None)
  }

  /** One round: the child writes, and what is ready is read and written. */
  function Passed(s: Streams, prompt: seq<byte>, round: Round): Streams {
    Served(Acted(s, round), prompt, round.readable, round.writable)
  }

  /** Are these the ready ones among the streams that are still waited on? */
  ghost predicate Selected(s: Streams, prompt: seq<byte>, round: Round, readable: map<Stream, nat>, writable: Option<WriteResult>) {
    && Lookup(readable, Stdout) == (if s.out.done then None else Lookup(round.readable, Stdout))
    && Lookup(readable, Stderr) == (if s.err.done then None else Lookup(round.readable, Stderr))
    && writable == (if s.feed.None? || s.feed.value.Over(prompt) then None else round.writable)
  }

  /** A stream that is over takes no part in a round. */
  lemma SelectingLosesNothing(s: Streams, prompt: seq<byte>, round: Round, readable: map<Stream, nat>, writable: Option<WriteResult>)
    requires Selected(Acted(s, round), prompt, round, readable, writable)
    ensures Served(Acted(s, round), prompt, readable, writable) == Passed(s, prompt, round)
    ensures Idle(s, prompt, round) <==> readable == map[] && writable.None?
  {
    forall stream | stream in readable ensures stream in {Stdout, Stderr} {
      match stream case Stdout => case Stderr =>
    }
    assert readable.Keys <= {Stdout, Stderr};
    if Stdout !in readable && Stderr !in readable { assert readable.Keys == {}; }
  }

  function Among(readable: map<Stream, nat>, waited: set<Stream>): map<Stream, nat> {
    map stream | stream in readable && stream in waited :: readable[stream]
  }

  lemma SelectedIsReadyAmongWaited(s: Streams, prompt: seq<byte>, round: Round, waited: set<Stream>, feeds: bool)
    requires (Stdout in waited <==> !s.out.done) && (Stderr in waited <==> !s.err.done)
    requires feeds <==> s.feed.Some? && !s.feed.value.Over(prompt)
    ensures Selected(s, prompt, round, Among(round.readable, waited), if feeds then round.writable else None)
  {
  }

  function After(s: Streams, prompt: seq<byte>, schedule: seq<Round>, n: nat): Streams
    requires n <= |schedule|
  {
    if n == 0 then s else Passed(After(s, prompt, schedule, n - 1), prompt, schedule[n - 1])
  }

  predicate AllText(s: Streams) { DecodeAll(s.out.written).Some? && DecodeAll(s.err.written).Some? }

  /** Does the schedule get every stream to its end after so many rounds, with text
      on both outputs, and never find nothing ready before? */
  predicate Through(s: Streams, prompt: seq<byte>, schedule: seq<Round>, n: nat)
    requires n <= |schedule|
  {
    && AllOver(After(s, prompt, schedule, n), prompt) && AllText(After(s, prompt, schedule, n))
    && forall k | 0 <= k < n ::
         AllOver(After(s, prompt, schedule, k), prompt) || !Idle(After(s, prompt, schedule, k), prompt, schedule[k])
  }

  /** Has no round so far been the last, and none found nothing ready? */
  ghost predicate GoingOn(s: Streams, prompt: seq<byte>, schedule: seq<Round>, k: nat)
    requires k <= |schedule|
  {
    forall j | 0 <= j < k ::
      !AllOver(After(s, prompt, schedule, j), prompt) && !Idle(After(s, prompt, schedule, j), prompt, schedule[j])
  }

  ghost predicate SomeTimeThrough(s: Streams, prompt: seq<byte>, schedule: seq<Round>) {
    exists n | 0 <= n <= |schedule| :: Through(s, prompt, schedule, n)
  }

  lemma NoRoundYet(s: Streams, prompt: seq<byte>, schedule: seq<Round>)
    ensures GoingOn(s, prompt, schedule, 0) && After(s, prompt, schedule, 0) == s
  {
  }

  lemma OneMoreRound(s: Streams, prompt: seq<byte>, schedule: seq<Round>, k: nat)
    requires k < |schedule| && GoingOn(s, prompt, schedule, k)
    requires !AllOver(After(s, prompt, schedule, k), prompt) && !Idle(After(s, prompt, schedule, k), prompt, schedule[k])
    ensures GoingOn(s, prompt, schedule, k + 1)
  {
    hide After, AllOver, Idle;
  }

  /** Time is over, or nothing is ready, before all streams are done. */
  lemma StuckIsNeverThrough(s: Streams, prompt: seq<byte>, schedule: seq<Round>, k: nat)
    requires k <= |schedule| && GoingOn(s, prompt, schedule, k) && !AllOver(After(s, prompt, schedule, k), prompt)
    requires k == |schedule| || Idle(After(s, prompt, schedule, k), prompt, schedule[k])
    ensures !SomeTimeThrough(s, prompt, schedule)
  {
    hide After, AllOver, Idle, AllText;
  }

  /** An output that is no text is none later on. */
  lemma SpoiledIsNeverThrough(s: Streams, prompt: seq<byte>, schedule: seq<Round>, k: nat, out: seq<byte>, err: seq<byte>)
    requires k < |schedule| && GoingOn(s, prompt, schedule, k) && !AllOver(After(s, prompt, schedule, k), prompt)
    requires var t := After(s, prompt, schedule, k + 1);
             && out <= t.out.written && err <= t.err.written
             && (|| Decode(out).Malformed? || (t.out.ended && out == t.out.written && DecodeAll(out).None?)
                 || Decode(err).Malformed? || (t.err.ended && err == t.err.written && DecodeAll(err).None?))
    ensures !SomeTimeThrough(s, prompt, schedule)
  {
    var t := After(s, prompt, schedule, k + 1);
    forall n | k < n <= |schedule| ensures !AllText(After(s, prompt, schedule, n)) {
      WritingContinues(s, prompt, schedule, k + 1, n);
      var later := After(s, prompt, schedule, n);
      if Decode(out).Malformed? || (t.out.ended && out == t.out.written && DecodeAll(out).None?) {
        SpoiledIsNoText(out, t.out, later.out);
      } else {
        SpoiledIsNoText(err, t.err, later.err);
      }
    }
    hide After, AllOver, Idle, AllText;
  }

  lemma ThroughNow(s: Streams, prompt: seq<byte>, schedule: seq<Round>, k: nat)
    requires k <= |schedule| && GoingOn(s, prompt, schedule, k)
    requires AllOver(After(s, prompt, schedule, k), prompt) && AllText(After(s, prompt, schedule, k))
    ensures SomeTimeThrough(s, prompt, schedule)
  {
    hide After, AllOver, Idle, AllText;
    assert Through(s, prompt, schedule, k);
  }

  lemma DrainingKeeps(side: Side, ready: Option<nat>)
    ensures Drained(side, ready).written == side.written && Drained(side, ready).ended == side.ended
  {
  }

  /** Bytes that were written stay written, and after the end there are no more. */
  predicate Continues(side: Side, later: Side) {
    side.written <= later.written && (side.ended ==> later.ended && later.written == side.written)
  }

  lemma {:induction false} WritingContinues(s: Streams, prompt: seq<byte>, schedule: seq<Round>, k: nat, n: nat)
    requires k <= n <= |schedule|
    ensures Continues(After(s, prompt, schedule, k).out, After(s, prompt, schedule, n).out)
    ensures Continues(After(s, prompt, schedule, k).err, After(s, prompt, schedule, n).err)
  {
    if k < n { WritingContinues(s, prompt, schedule, k, n - 1); }
  }

  /** What is no text does not become text by going on, nor by being over. */
  lemma SpoiledIsNoText(raw: seq<byte>, side: Side, later: Side)
    requires raw <= side.written && Continues(side, later)
    requires Decode(raw).Malformed? || (side.ended && raw == side.written && DecodeAll(raw).None?)
    ensures DecodeAll(later.written).None?
  {
    if Decode(raw).Malformed? {
      assert raw <= later.written;
      DecodeContinues(raw, later.written[|raw|..]);
      assert raw + later.written[|raw|..] == later.written;
    }
  }

  ghost function SideOf<E>(reader: StreamingReader<E>): Side
    reads reader, reader.pipe
  {
    Side(reader.pipe.written, reader.pipe.ended, reader.raw, reader.finished)
  }

  ghost function FeedOf(stdin: StreamingInput): Feed
    reads stdin, stdin.pipe
  {
    Feed(stdin.pipe.accepted, stdin.refused)
  }

  lemma WaitingIsBuffered<E>(reader: StreamingReader<E>)
    requires reader.Valid()
    ensures SideOf(reader).Waiting() == reader.pipe.buffered
  {
    ReaderConserves(reader);
    hide StreamingReader.Valid;
    assert reader.pipe.written[|reader.raw|..] == reader.pipe.buffered;
  }

  /** Is what was captured no text, whatever comes after it or because nothing does? */
  ghost predicate Spoiled<E>(reader: StreamingReader<E>)
    reads reader, reader.pipe
  {
    || Decode(reader.raw).Malformed?
    || (reader.pipe.ended && reader.raw == reader.pipe.written && DecodeAll(reader.raw).None?)
  }

  function Lookup(readable: map<Stream, nat>, stream: Stream): Option<nat> {
    if stream in readable then Some(readable[stream]) else None
  }

  lemma NothingDrained(side: Side)
    ensures Drained(side, None) == side
  {
  }

  lemma NothingFed(feed: Feed, prompt: seq<byte>)
    ensures Fed(feed, prompt, None) == feed
  {
  }

  class StreamingTurn<E> {
    const out: StreamingReader<E>
    const err: StreamingReader<E>
    const stdin: StreamingInput?
    var readers: map<Stream, StreamingReader<E>>   // the outputs still to be drained
    var input: StreamingInput?                     // the prompt still to be written

    ghost function Footprint(): set<object>
      reads this
    {
      {this, out, err, out.pipe, err.pipe} + (if stdin == null then {} else {stdin, stdin.pipe})
    }

    /** Every stream is conserved, and what the loop waits on is what is open. */
    ghost predicate Valid()
      reads this, out, err, out.pipe, err.pipe, stdin, if stdin == null then {} else {stdin.pipe}
    {
      && out != err && out.pipe != err.pipe
      && out.Valid() && err.Valid()
      && readers.Keys <= {Stdout, Stderr}
      && (Stdout in readers <==> !out.finished) && (Stdout in readers ==> readers[Stdout] == out)
      && (Stderr in readers <==> !err.finished) && (Stderr in readers ==> readers[Stderr] == err)
      && (stdin == null ==> input == null)
      && (stdin != null ==> stdin.Valid() && input == (if stdin.pipe.open then stdin else null))
    }

    constructor (out: StreamingReader<E>, err: StreamingReader<E>, stdin: StreamingInput?)
      requires out != err && out.pipe != err.pipe && out.Valid() && err.Valid()
      requires !out.finished && !err.finished && (stdin != null ==> stdin.Valid())
      ensures Valid() && this.out == out && this.err == err && this.stdin == stdin
    {
      hide StreamingReader.Valid;
      this.out, this.err, this.stdin := out, err, stdin;
      readers := map[Stdout := out, Stderr := err];
      input := if stdin != null && stdin.pipe.open then stdin else null;
    }

    /** Wait on every stream that is left; each of them is open. */
    method Select(round: Round) returns (readable: map<Stream, nat>, writable: Option<WriteResult>)
      requires Valid()
      ensures forall stream | stream in readers :: readers[stream].pipe.open
      ensures input != null ==> input.pipe.open
      ensures readable.Keys <= readers.Keys && (writable.Some? ==> input != null)
      ensures Selected(Now(), Prompt(), round, readable, writable)
    {
      hide StreamingReader.Valid, StreamingInput.Valid, Selected, Lookup;
      OverIffDrained();
      ValidConserves();
      SelectedIsReadyAmongWaited(Now(), Prompt(), round, readers.Keys, input != null);
      readable := Among(round.readable, readers.Keys);
      writable := if input == null then None else round.writable;
    }

    /** Read what one ready output has, and drop it once it has ended. */
    method ReadReady(stream: Stream, n: nat) returns (ok: bool)
      requires Valid() && stream in readers
      modifies this`readers, out, err, out.pipe, err.pipe
      ensures out.pipe.written == old(out.pipe.written) && err.pipe.written == old(err.pipe.written)
      ensures out.raw + out.pipe.buffered == out.pipe.written && err.raw + err.pipe.buffered == err.pipe.written
      ensures if ok then Valid() else Spoiled(old(readers)[stream])
      ensures out.pipe.ended == old(out.pipe.ended) && err.pipe.ended == old(err.pipe.ended)
      ensures ok ==> SideOf(old(readers)[stream]) == Drained(old(SideOf(readers[stream])), Some(n))
      ensures stream == Stdout ==> SideOf(err) == old(SideOf(err))
      ensures stream == Stderr ==> SideOf(out) == old(SideOf(out))
    {
      hide StreamingReader.Valid;
      var reader := readers[stream];
      var available := Available(reader.pipe.buffered, n);
      ReaderConserves(out);
      ReaderConserves(err);
      WaitingIsBuffered(reader);
      var progress := reader.Read(available);
      if progress.Eof? { readers := readers - {stream}; }
      ok := !progress.Undecodable?;
    }

    /** Write one ready chunk of the prompt, and stop once stdin has closed. */
    method WriteReady(result: WriteResult)
      requires Valid() && input != null
      modifies this`input, input, input.pipe
      ensures Valid() && readers == old(readers)
      ensures FeedOf(stdin) == Fed(old(FeedOf(stdin)), stdin.prompt, Some(result))
      ensures result.Broken? ==> stdin.refused && input == null && stdin.pipe.accepted == old(input.pipe.accepted)
      ensures result.Took? ==>
                && !stdin.refused && old(input.pipe.accepted) < stdin.pipe.accepted <= stdin.prompt
                && |stdin.pipe.accepted| <= |old(input.pipe.accepted)| + (if result.n == 0 then 1 else result.n)
                && (input == null <==> stdin.pipe.accepted == stdin.prompt)
    {
      hide StreamingReader.Valid;
      assert input.prompt[..|input.pipe.accepted|] == input.pipe.accepted;
      var taken := if result.Took? then Took(Clamp(result.n, |input.pending|)) else Broken;
      var more := input.Write(taken);
      if !more { input := null; }
    }

    method ChildActs(round: Round)
      requires Valid()
      modifies out.pipe`buffered, out.pipe`written, out.pipe`ended, err.pipe`buffered, err.pipe`written, err.pipe`ended
      ensures Valid() && Now() == Acted(old(Now()), round)
    {
      hide StreamingReader.Valid;
      out.ChildWrites(round.out, round.outEnds);
      err.ChildWrites(round.err, round.errEnds);
    }

    /** Captured plus waiting is written, on both outputs, and the prompt is what
        was written of it plus what is pending. */
    ghost predicate Conserved()
      reads this, out, err, out.pipe, err.pipe, stdin, if stdin == null then {} else {stdin.pipe}
    {
      && out.raw + out.pipe.buffered == out.pipe.written
      && err.raw + err.pipe.buffered == err.pipe.written
      && (stdin != null ==> stdin.Valid())
    }

    /** The pipes as they are, and the prompt there is to be written. */
    ghost function Now(): Streams
      reads this, out, err, out.pipe, err.pipe, stdin, if stdin == null then {} else {stdin.pipe}
    {
      Streams(SideOf(out), SideOf(err), if stdin == null then None else Some(FeedOf(stdin)))
    }

    ghost function Prompt(): seq<byte>
      reads this
    {
      if stdin == null then [] else stdin.prompt
    }

    /** Drive the child until every stream is done, the rounds of the schedule
        being all the time there is. The call completes exactly when the schedule
        gets all streams through in time and the child exits. */
    method Run(schedule: seq<Round>, exits: bool) returns (ending: Ending)
      requires Valid()
      modifies Footprint()
      ensures Conserved()
      ensures ending.Completed? <==>
                exits && SomeTimeThrough(old(Now()), old(Prompt()), schedule)
      ensures ending.Completed? ==>
                && DecodeAll(out.pipe.written).Some? && ending.stdout == Translate(DecodeAll(out.pipe.written).value)
                && DecodeAll(err.pipe.written).Some? && ending.stderr == Translate(DecodeAll(err.pipe.written).value)
                && Valid() && out.finished && err.finished && out.pipe.ended && err.pipe.ended
                && (out.watched ==> out.handed == Parsed(out.parse, Lines(ending.stdout)))
                && (stdin != null ==> stdin.refused || stdin.pipe.accepted == stdin.prompt)
      ensures ending.TimedOut? ==> ending.rawOut == out.raw && ending.rawErr == err.raw
      ensures ending.BadText? ==> Spoiled(out) || Spoiled(err)
    {
      hide Valid, StreamingReader.Valid, StreamingInput.Valid, Passed, SomeTimeThrough, GoingOn, AllOver, AllText, Idle, Conserved, Spoiled, Wrote;
      ghost var start, prompt := Now(), Prompt();
      var k := 0;
      assert GoingOn(start, prompt, schedule, 0) && After(start, prompt, schedule, 0) == start by { NoRoundYet(start, prompt, schedule); }
      while readers != map[] || input != null
        invariant k <= |schedule| && Valid() && Prompt() == prompt
        invariant Now() == After(start, prompt, schedule, k) && GoingOn(start, prompt, schedule, k)
        decreases |schedule| - k
      {
        OverIffDrained();
        ValidConserves();
        if k == |schedule| {
          StuckIsNeverThrough(start, prompt, schedule, k);
          return TimedOut(out.raw, err.raw);
        }
        var round := schedule[k];
        var going := Turn(round);
        if going.Some? {
          if going.value.TimedOut? {
            StuckIsNeverThrough(start, prompt, schedule, k);
          } else {
            SpoiltBy(start, prompt, schedule, k);
          }
          return going.value;
        }
        OneMoreRound(start, prompt, schedule, k);
        k := k + 1;
      }
      ValidConserves();
      AllRead();
      ThroughNow(start, prompt, schedule, k);
      ending := if exits then Completed(out.Text(), err.Text()) else TimedOut(out.raw, err.raw);
    }

    /** With nothing left to wait for, both outputs are there as text. */
    lemma AllRead()
      requires Valid() && readers == map[] && input == null
      ensures AllOver(Now(), Prompt()) && AllText(Now())
      ensures DecodeAll(out.pipe.written).Some? && out.Text() == Translate(DecodeAll(out.pipe.written).value)
      ensures DecodeAll(err.pipe.written).Some? && err.Text() == Translate(DecodeAll(err.pipe.written).value)
      ensures out.finished && err.finished && out.pipe.ended && err.pipe.ended
      ensures out.watched ==> out.handed == Parsed(out.parse, Lines(out.Text()))
      ensures stdin != null ==> stdin.refused || stdin.pipe.accepted == stdin.prompt
    {
      hide StreamingReader.Valid;
      OverIffDrained();
      ReaderConserves(out);
      ReaderConserves(err);
      FinishedReaderIsBatch(out);
      FinishedReaderIsBatch(err);
    }

    /** The round's writes are in the pipes. */
    ghost predicate Wrote(s: Streams, round: Round)
      reads this, out, err, out.pipe, err.pipe
    {
      && out.pipe.written == Acted(s, round).out.written && out.pipe.ended == Acted(s, round).out.ended
      && err.pipe.written == Acted(s, round).err.written && err.pipe.ended == Acted(s, round).err.ended
    }

    /** A pass that ended in bytes that are no text. */
    lemma SpoiltBy(start: Streams, prompt: seq<byte>, schedule: seq<Round>, k: nat)
      requires Conserved() && (Spoiled(out) || Spoiled(err))
      requires k < |schedule| && GoingOn(start, prompt, schedule, k) && !AllOver(After(start, prompt, schedule, k), prompt)
      requires Wrote(After(start, prompt, schedule, k), schedule[k])
      ensures !SomeTimeThrough(start, prompt, schedule)
    {
      hide StreamingInput.Valid, SomeTimeThrough, GoingOn, AllOver, Idle, Offered, Drained, Fed;
      var s, round := After(start, prompt, schedule, k), schedule[k];
      DrainingKeeps(Offered(s.out, round.out, round.outEnds), Lookup(round.readable, Stdout));
      DrainingKeeps(Offered(s.err, round.err, round.errEnds), Lookup(round.readable, Stderr));
      SpoiledIsNeverThrough(start, prompt, schedule, k, out.raw, err.raw);
    }

    /** Nothing is left to wait for exactly when all streams are over. */
    lemma OverIffDrained()
      requires Valid()
      ensures AllOver(Now(), Prompt()) <==> readers == map[] && input == null
      ensures stdin != null ==> stdin.Valid() && (input == null <==> FeedOf(stdin).Over(stdin.prompt))
    {
      hide StreamingReader.Valid;
      assert readers == map[] <==> Stdout !in readers && Stderr !in readers;
      if stdin != null { assert stdin.pipe.accepted + stdin.pending == stdin.prompt; }
    }

    /** One pass of the loop: all pipes as the round makes them; an ending if this
        was the last. */
    method Turn(round: Round) returns (ending: Option<Ending>)
      requires Valid()
      modifies Footprint()
      ensures Conserved() && Prompt() == old(Prompt())
      ensures ending == Some(TimedOut(out.raw, err.raw)) <==> Idle(old(Now()), Prompt(), round)
      ensures ending.Some? && !ending.value.TimedOut? ==> ending.value.BadText? && (Spoiled(out) || Spoiled(err))
      ensures ending.Some? && ending.value.TimedOut? ==> ending.value == TimedOut(out.raw, err.raw)
      ensures ending.None? ==> Valid() && Now() == Passed(old(Now()), Prompt(), round)
      ensures Wrote(old(Now()), round)
    {
      hide StreamingReader.Valid, StreamingInput.Valid, Spoiled, Conserved, Drained, Offered, Fed, Selected, Idle;
      ghost var before, prompt := Now(), Prompt();
      ChildActs(round);
      ValidConserves();
      var readable, writable := Select(round);
      SelectingLosesNothing(before, prompt, round, readable, writable);
      if readable == map[] && writable.None? {
        return Some(TimedOut(out.raw, err.raw));
      }
      var ok := Serve(readable, writable);
      ending := if ok then None else Some(BadText);
    }

    /** Read and write what is ready. */
    method Serve(readable: map<Stream, nat>, writable: Option<WriteResult>) returns (ok: bool)
      requires Valid() && readable.Keys <= readers.Keys && (writable.Some? ==> input != null)
      modifies this`readers, this`input, out, err, out.pipe, err.pipe, input, if input == null then {} else {input.pipe}
      ensures Conserved()
      ensures out.pipe.written == old(out.pipe.written) && err.pipe.written == old(err.pipe.written)
      ensures out.pipe.ended == old(out.pipe.ended) && err.pipe.ended == old(err.pipe.ended)
      ensures if ok then Valid() else Spoiled(out) || Spoiled(err)
      ensures ok ==> Now() == Served(old(Now()), Prompt(), readable, writable)
    {
      hide StreamingReader.Valid, Spoiled, Drained, Fed;
      ok := ReadReadyPipes(readable);
      if ok {
        if writable.Some? { WriteReady(writable.value); } else if stdin != null { NothingFed(FeedOf(stdin), stdin.prompt); }
        ReaderConserves(out);
        ReaderConserves(err);
      }
    }

    lemma ValidConserves()
      requires Valid()
      ensures Conserved()
      ensures forall stream | stream in readers :: readers[stream].pipe.open
    {
      ReaderConserves(out);
      ReaderConserves(err);
      hide StreamingReader.Valid;
    }

    /** Read every output that is ready. */
    method ReadReadyPipes(readable: map<Stream, nat>) returns (ok: bool)
      requires Valid() && readable.Keys <= readers.Keys
      modifies this`readers, out, err, out.pipe, err.pipe
      ensures Conserved()
      ensures out.pipe.written == old(out.pipe.written) && err.pipe.written == old(err.pipe.written)
      ensures out.pipe.ended == old(out.pipe.ended) && err.pipe.ended == old(err.pipe.ended)
      ensures if ok then Valid() else Spoiled(out) || Spoiled(err)
      ensures ok ==>
                && SideOf(out) == Drained(old(SideOf(out)), Lookup(readable, Stdout))
                && SideOf(err) == Drained(old(SideOf(err)), Lookup(readable, Stderr))
    {
      hide StreamingReader.Valid, Spoiled, Drained;
      NothingDrained(SideOf(out));
      NothingDrained(SideOf(err));
      ReaderConserves(out);
      ReaderConserves(err);
      if Stdout in readable {
        ok := ReadReady(Stdout, readable[Stdout]);
        if !ok { return; }
      }
      if Stderr in readable {
        ok := ReadReady(Stderr, readable[Stderr]);
        if !ok { return; }
      }
      ok := true;
      ReaderConserves(out);
      ReaderConserves(err);
    }
  }

  method OpenOutput<E>(parse: string -> Option<E>, watched: bool) returns (reader: StreamingReader<E>)
    ensures fresh(reader) && fresh(reader.pipe) && reader.Valid() && !reader.finished
    ensures SideOf(reader) == Side([], false, [], false)
    ensures reader.parse == parse && reader.watched == watched
  {
    var pipe := new Pipe();
    reader := new StreamingReader(pipe, parse, watched);
  }

  method OpenInput(prompt: Option<seq<byte>>) returns (input: StreamingInput?)
    ensures input == null <==> prompt.None?
    ensures input != null ==> fresh(input) && fresh(input.pipe) && input.Valid() && input.prompt == prompt.value
    ensures input != null ==> FeedOf(input) == Feed([], false)
  {
    input := null;
    if prompt.Some? {
      var pipe := new InputPipe();
      input := new StreamingInput(pipe, prompt.value);
    }
  }

  /** A whole call: fresh pipes to a child, and the loop until it is done. */
  method RunCli<E>(prompt: Option<seq<byte>>, parse: string -> Option<E>, watched: bool, schedule: seq<Round>, exits: bool)
    returns (ending: Ending, turn: StreamingTurn<E>)
    ensures turn.Conserved()
    ensures ending.Completed? <==>
              var silent := Side([], false, [], false);
              var feed := if prompt.Some? then Some(Feed([], false)) else None;
              exits && SomeTimeThrough(Streams(silent, silent, feed), prompt.GetOr([]), schedule)
    ensures ending.BadText? ==> Spoiled(turn.out) || Spoiled(turn.err)
    ensures ending.TimedOut? ==> ending.rawOut == turn.out.raw && ending.rawErr == turn.err.raw
    ensures ending.Completed? ==>
              && DecodeAll(turn.out.pipe.written).Some? && ending.stdout == Translate(DecodeAll(turn.out.pipe.written).value)
              && DecodeAll(turn.err.pipe.written).Some? && ending.stderr == Translate(DecodeAll(turn.err.pipe.written).value)
    ensures ending.Completed? && watched ==> turn.out.handed == Parsed(parse, Lines(ending.stdout))
    ensures (turn.stdin == null <==> prompt.None?) && (turn.stdin != null ==> turn.stdin.prompt == prompt.value)
    ensures ending.Completed? && turn.stdin != null && !turn.stdin.refused ==> turn.stdin.pipe.accepted == prompt.value
  {
    hide StreamingReader.Valid, StreamingInput.Valid;
    var out := OpenOutput(parse, watched);
    var err := OpenOutput(parse, false);
    var stdin := OpenInput(prompt);
    turn := new StreamingTurn(out, err, stdin);
    hide *;
    ending := turn.Run(schedule, exits);
  }
}
