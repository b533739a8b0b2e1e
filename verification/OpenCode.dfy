/** Folding an OpenCode event stream into the reply of one turn. */
module OpenCode {
  import opened Common

  // A field that is missing or of the wrong type reads as None.
  datatype Part = Part(id: Option<string>, text: Option<string>)

  datatype Kind = TextEvent | ErrorEvent(detail: Option<string>) | OtherEvent

  datatype Event = Event(kind: Kind, session: Option<string>, part: Option<Part>)

  datatype Error = Reported(detail: Option<string>) | NoSession

  datatype Turn = Turn(session: string, order: seq<string>, text: map<string, string>, reply: string)

  predicate IsSpace(c: char) {
    var n := c as int;
    9 <= n <= 13 || 28 <= n <= 32 || n == 133 || n == 160 || n == 5760 || 8192 <= n <= 8202
    || n == 8232 || n == 8233 || n == 8239 || n == 8287 || n == 12288
  }

  predicate Blank(text: string) { forall c | c in text :: IsSpace(c) }

  predicate NamesSession(event: Event) { event.session.Some? && !Blank(event.session.value) }

  /** The block an event writes, if it writes one. */
  function Block(event: Event): Option<(string, string)> {
    if event.kind == TextEvent && event.part.Some? && event.part.value.id.Some? && event.part.value.text.Some?
    then Some((event.part.value.id.value, event.part.value.text.value))
    else None
  }

  predicate Writes(event: Event, id: string) { Block(event).Some? && Block(event).value.0 == id }

  /** Where an id is first written; the end of the stream if nowhere. */
  function FirstOf(events: seq<Event>, id: string): (n: nat)
    ensures n <= |events|
  {
    if events == [] || Writes(events[0], id) then 0 else 1 + FirstOf(events[1..], id)
  }

  /** What was last written to an id. */
  function LastOf(events: seq<Event>, id: string): Option<string> {
    if events == [] then None
    else
      var last := events[|events| - 1];
      if Writes(last, id) then Some(Block(last).value.1) else LastOf(events[..|events| - 1], id)
  }

  ghost predicate Ascending(events: seq<Event>, order: seq<string>) {
    forall i, k | 0 <= i < k < |order| :: FirstOf(events, order[i]) < FirstOf(events, order[k])
  }

  /** The blocks a stream leaves: each id that is written, once, in the order of
      first writing, with what was written to it last. */
  ghost predicate IsFold(events: seq<Event>, order: seq<string>, text: map<string, string>) {
    && (forall id :: id in order <==> id in text)
    && (forall id :: id in text <==> LastOf(events, id).Some?)
    && (forall id | id in text :: LastOf(events, id) == Some(text[id]))
    && Ascending(events, order)
  }

  lemma {:induction false} FirstExtends(events: seq<Event>, event: Event, id: string)
    ensures FirstOf(events + [event], id)
         == if FirstOf(events, id) < |events| || Writes(event, id) then FirstOf(events, id) else |events| + 1
  {
    if events == [] {
      assert events + [event] == [event];
    } else {
      assert (events + [event])[1..] == events[1..] + [event];
      FirstExtends(events[1..], event, id);
    }
  }

  lemma {:induction false} WrittenHasFirst(events: seq<Event>, id: string)
    ensures FirstOf(events, id) < |events| <==> LastOf(events, id).Some?
  {
    if events != [] {
      var front, last := events[..|events| - 1], events[|events| - 1];
      assert events == front + [last];
      WrittenHasFirst(front, id);
      FirstExtends(front, last, id);
    }
  }

  function Put(order: seq<string>, text: map<string, string>, event: Event): (seq<string>, map<string, string>) {
    match Block(event)
    case None => (order, text)
    case Some((id, words)) => (if id in text then order else order + [id], text[id := words])
  }

  lemma AscendingExtends(events: seq<Event>, order: seq<string>, event: Event)
    requires Ascending(events, order) && forall k | 0 <= k < |order| :: FirstOf(events, order[k]) < |events|
    ensures Ascending(events + [event], order)
  {
    forall i, k | 0 <= i < k < |order| ensures FirstOf(events + [event], order[i]) < FirstOf(events + [event], order[k]) {
      FirstExtends(events, event, order[i]);
      FirstExtends(events, event, order[k]);
    }
  }

  lemma AscendingGrows(events: seq<Event>, order: seq<string>, event: Event, id: string)
    requires Ascending(events, order) && forall k | 0 <= k < |order| :: FirstOf(events, order[k]) < |events|
    requires FirstOf(events, id) == |events| && Writes(event, id)
    ensures Ascending(events + [event], order + [id])
  {
    AscendingExtends(events, order, event);
    FirstExtends(events, event, id);
    forall k | 0 <= k < |order| ensures FirstOf(events + [event], order[k]) < |events| {
      FirstExtends(events, event, order[k]);
    }
    hide FirstOf;
  }

  lemma LastExtends(events: seq<Event>, event: Event, id: string)
    ensures LastOf(events + [event], id) == if Writes(event, id) then Some(Block(event).value.1) else LastOf(events, id)
  {
    assert (events + [event])[..|events|] == events;
  }

  lemma OrderExtends(events: seq<Event>, order: seq<string>, text: map<string, string>, event: Event)
    requires IsFold(events, order, text)
    ensures Ascending(events + [event], Put(order, text, event).0)
  {
    forall k | 0 <= k < |order| ensures FirstOf(events, order[k]) < |events| {
      assert order[k] in text;
      WrittenHasFirst(events, order[k]);
    }
    hide IsFold;
    AscendingExtends(events, order, event);
    if Block(event).Some? && Block(event).value.0 !in text {
      WrittenHasFirst(events, Block(event).value.0);
      AscendingGrows(events, order, event, Block(event).value.0);
    }
  }

  /** One event more writes its own block and leaves every other alone. */
  lemma FoldExtends(events: seq<Event>, order: seq<string>, text: map<string, string>, event: Event)
    requires IsFold(events, order, text)
    ensures IsFold(events + [event], Put(order, text, event).0, Put(order, text, event).1)
  {
    OrderExtends(events, order, text, event);
    hide FirstOf, Ascending;
    forall id ensures LastOf(events + [event], id) == if Writes(event, id) then Some(Block(event).value.1) else LastOf(events, id) {
      LastExtends(events, event, id);
    }
    hide LastOf;
  }

  /** A stream leaves one set of blocks and no other. */
  lemma FoldsAgree(events: seq<Event>, order: seq<string>, text: map<string, string>, order': seq<string>, text': map<string, string>)
    requires IsFold(events, order, text) && IsFold(events, order', text')
    ensures order == order' && text == text'
  {
    assert text.Keys == text'.Keys;
    OrdersAgree(events, order, order');
  }

  lemma {:induction false} OrdersAgree(events: seq<Event>, a: seq<string>, b: seq<string>)
    requires Ascending(events, a) && Ascending(events, b) && forall id :: id in a <==> id in b
    ensures a == b
    decreases |a|
  {
    assert b != [] ==> b[0] in b;
    if a != [] {
      assert a[0] in b && b[0] in a;
      assert a[0] == b[0];
      forall id ensures id in a[1..] <==> id in b[1..] {
        assert id in a <==> id == a[0] || id in a[1..];
        assert id in b <==> id == b[0] || id in b[1..];
      }
      OrdersAgree(events, a[1..], b[1..]);
    }
  }

  /** An event that writes a known block changes that block alone, and nothing at
      all where it says what the block says already. */
  lemma UpdateChangesOneBlock(events: seq<Event>, event: Event, order: seq<string>, text: map<string, string>,
                              order': seq<string>, text': map<string, string>)
    requires IsFold(events, order, text) && IsFold(events + [event], order', text')
    requires Block(event).Some? && Block(event).value.0 in text
    ensures order' == order && text' == text[Block(event).value.0 := Block(event).value.1]
    ensures Block(event).value.1 == text[Block(event).value.0] ==> text' == text
  {
    FoldExtends(events, order, text, event);
    FoldsAgree(events + [event], Put(order, text, event).0, Put(order, text, event).1, order', text');
  }

  /** The detail of the last error event that has one. */
  function LastDetail(events: seq<Event>): Option<string> {
    if events == [] then None
    else
      var last := events[|events| - 1];
      if last.kind.ErrorEvent? && last.kind.detail.Some? then last.kind.detail else LastDetail(events[..|events| - 1])
  }

  ghost predicate Errs(events: seq<Event>) { exists event | event in events :: event.kind.ErrorEvent? }

  method ReportedError(events: seq<Event>) returns (detail: Option<string>)
    ensures detail == LastDetail(events)
  {
    var n := |events|;
    assert events[..n] == events;
    while n > 0
      invariant n <= |events| && LastDetail(events[..n]) == LastDetail(events)
    {
      n := n - 1;
      var event := events[n];
      if event.kind.ErrorEvent? && event.kind.detail.Some? { return event.kind.detail; }
      assert events[..n + 1][..n] == events[..n];
    }
    detail := None;
  }

  /** The turn an event stream reports. */
  method Parse(events: seq<Event>) returns (result: Result<Turn, Error>)
    ensures Errs(events) ==> result == Err(Reported(LastDetail(events)))
    ensures !Errs(events) && (events == [] || exists event | event in events :: event.session.None? || Blank(event.session.value)) ==>
              result == Err(NoSession)
    ensures !Errs(events) && events != [] && (forall event | event in events :: event.session.Some? && !Blank(event.session.value)) ==>
              && result.Ok? && IsFold(events, result.value.order, result.value.text)
              && Some(result.value.session) == events[|events| - 1].session
              && result.value.reply == Reply(result.value.order, result.value.text)
  {
    if exists event | event in events :: event.kind.ErrorEvent? {
      var detail := ReportedError(events);
      return Err(Reported(detail));
    }
    var session: Option<string> := None;
    var order, text := [], map[];
    for i := 0 to |events|
      invariant forall k | 0 <= k < i :: NamesSession(events[k])
      invariant session == if i == 0 then None else events[i - 1].session
      invariant IsFold(events[..i], order, text)
    {
      var event := events[i];
      if !NamesSession(event) { return Err(NoSession); }
      session := event.session;
      FoldExtends(events[..i], order, text, event);
      assert events[..i + 1] == events[..i] + [event];
      match Block(event)
      case None =>
      case Some((id, words)) =>
        if id !in text { order := order + [id]; }
        text := text[id := words];
    }
    assert events[..|events|] == events;
    if session.None? { return Err(NoSession); }
    result := Ok(Turn(session.value, order, text, Reply(order, text)));
  }

  /** The blocks as a reply, a line feed between them. */
  function Reply(order: seq<string>, text: map<string, string>): string
    requires forall id | id in order :: id in text
  {
    if order == [] then ""
    else
      var n := |order| - 1;
      (if n == 0 then "" else Reply(order[..n], text) + "\n") + text[order[n]]
  }

  lemma OneBlockIsTheReply(id: string, text: map<string, string>)
    requires id in text
    ensures Reply([], text) == "" && Reply([id], text) == text[id]
  {
  }

  lemma OneBlockMore(order: seq<string>, id: string, text: map<string, string>)
    requires order != [] && id in text && forall each | each in order :: each in text
    ensures Reply(order + [id], text) == Reply(order, text) + "\n" + text[id]
  {
    assert (order + [id])[..|order|] == order;
  }

  /** Between any two parts of a reply there is a line feed. */
  lemma {:induction false} RepliesJoin(a: seq<string>, b: seq<string>, text: map<string, string>)
    requires a != [] && b != []
    requires (forall id | id in a :: id in text) && (forall id | id in b :: id in text)
    ensures Reply(a + b, text) == Reply(a, text) + "\n" + Reply(b, text)
    decreases |b|
  {
    hide Reply;
    var n := |b| - 1;
    var front, last := b[..n], b[n];
    assert b == front + [last];
    if n == 0 {
      assert b == [last];
      OneBlockIsTheReply(last, text);
      OneBlockMore(a, last, text);
    } else {
      assert a + b == (a + front) + [last];
      RepliesJoin(a, front, text);
      OneBlockMore(front, last, text);
      OneBlockMore(a + front, last, text);
      Regroup(Reply(a, text), Reply(front, text), text[last]);
    }
  }

  lemma Regroup(x: string, y: string, z: string)
    ensures (x + "\n" + y) + "\n" + z == x + "\n" + (y + "\n" + z)
  {
  }

  /** Which events write: text events whose part has an id and a text. */
  lemma TextEventsWrite(event: Event, id: string, words: string)
    ensures Block(event) == Some((id, words)) <==> event == Event(TextEvent, event.session, Some(Part(Some(id), Some(words))))
  {
  }
}
