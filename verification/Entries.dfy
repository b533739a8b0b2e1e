/** The JSON shape of one registry entry, and its reading and writing. */
module Entries {
  import opened Common
  import opened Registry

  datatype Value = Null | Text(text: string) | Count(count: nat)

  // The keys of an entry, by meaning; any other text is a key this program never
  // writes.
  datatype EntryKey =
    | BACKEND | SESSION | PENDING | MODEL | EFFORT | CREATED | LAST_TURN | TURNS
    | Foreign(text: string)

  predicate WellTyped(entry: map<EntryKey, Value>) {
    && (forall key | key in entry && key != TURNS :: !entry[key].Count?)
    && (TURNS in entry ==> !entry[TURNS].Text?)
  }

  type Entry = entry: map<EntryKey, Value> | WellTyped(entry) witness map[]

  function TextAt(entry: Entry, key: EntryKey): Option<string> {
    if key in entry && entry[key].Text? then Some(entry[key].text) else None
  }

  function CountAt(entry: Entry, key: EntryKey): Option<nat> {
    if key in entry && entry[key].Count? then Some(entry[key].count) else None
  }

  /** Reading an entry needs a backend and nothing else. */
  function FromEntry(entry: Entry): (record: Option<Record>)
    ensures record.None? <==> BACKEND !in entry || entry[BACKEND].Null?
  {
    match TextAt(entry, BACKEND)
    case None => None
    case Some(backend) =>
      Some(Record(Config(backend, TextAt(entry, MODEL), TextAt(entry, EFFORT)),
                  TextAt(entry, SESSION), TextAt(entry, PENDING),
                  TextAt(entry, CREATED), TextAt(entry, LAST_TURN), CountAt(entry, TURNS)))
  }

  function AsText(value: Option<string>): Option<Value> {
    if value.Some? then Some(Text(value.value)) else None
  }

  /** What is written under a key: the session always, null if need be, and
      everything else only when it is set. */
  function Written(r: Record, key: EntryKey): Option<Value> {
    match key
    case BACKEND => Some(Text(r.config.backend))
    case SESSION => Some(if r.session.Some? then Text(r.session.value) else Null)
    case PENDING => AsText(r.pending)
    case MODEL => AsText(r.config.model)
    case EFFORT => AsText(r.config.effort)
    case CREATED => AsText(r.created)
    case LAST_TURN => AsText(r.lastTurn)
    case TURNS => if r.turns.Some? then Some(Count(r.turns.value)) else None
    case Foreign(_) => None
  }

  const KEYS := {BACKEND, SESSION, PENDING, MODEL, EFFORT, CREATED, LAST_TURN, TURNS}

  function ToEntry(r: Record): (entry: Entry)
    ensures forall key :: key in entry <==> Written(r, key).Some?
    ensures forall key | key in entry :: entry[key] == Written(r, key).value
  {
    map key | key in KEYS && Written(r, key).Some? :: Written(r, key).value
  }

  /** The text under a key, or no text: the key is absent or null. */
  predicate Holds(entry: Entry, key: EntryKey, text: Option<string>) {
    if text.Some? then key in entry && entry[key] == Text(text.value) else key in entry ==> entry[key] == Null
  }

  /** Which record an entry is, key by key. */
  lemma ReadsEachKeyIntoItsField(entry: Entry, r: Record)
    ensures FromEntry(entry) == Some(r) <==>
              && BACKEND in entry && entry[BACKEND] == Text(r.config.backend)
              && Holds(entry, MODEL, r.config.model) && Holds(entry, EFFORT, r.config.effort)
              && Holds(entry, SESSION, r.session) && Holds(entry, PENDING, r.pending)
              && Holds(entry, CREATED, r.created) && Holds(entry, LAST_TURN, r.lastTurn)
              && (if r.turns.Some? then TURNS in entry && entry[TURNS] == Count(r.turns.value)
                  else TURNS in entry ==> entry[TURNS] == Null)
  {
  }

  lemma ReadsBackWhatItWrote(r: Record)
    ensures FromEntry(ToEntry(r)) == Some(r)
  {
  }

  /** An entry in the shape this program writes: no key it does not know, the
      session spelled out, and no other key set to null. */
  predicate Canonical(entry: Entry) {
    && BACKEND in entry && entry[BACKEND].Text? && SESSION in entry
    && (forall key | key in entry :: !key.Foreign?)
    && (forall key | key in entry && key != SESSION :: !entry[key].Null?)
  }

  /** An entry is rewritten unchanged exactly when it is in canonical shape, so
      an older registry that lacks the newer keys survives as it was. */
  lemma RewritesExactlyTheCanonical(entry: Entry)
    requires FromEntry(entry).Some?
    ensures ToEntry(FromEntry(entry).value) == entry <==> Canonical(entry)
  {
    var again := ToEntry(FromEntry(entry).value);
    if Canonical(entry) {
      forall key ensures (key in entry <==> key in again) && (key in entry ==> entry[key] == again[key]) {
        match key case Foreign(_) => case _ =>
      }
    } else if again == entry {
      assert forall key | key in again :: !key.Foreign?;
    }
  }

  predicate Usable(entry: Entry, known: set<string>) {
    FromEntry(entry).Some? && FromEntry(entry).value.config.backend in known
  }

  /** A whole registry file, decoded and encoded entry by entry. */
  predicate Readable(entries: map<Name, Entry>, known: set<string>) {
    forall name | name in entries :: Usable(entries[name], known)
  }

  function Decode(entries: map<Name, Entry>): Agents
    requires forall name | name in entries :: FromEntry(entries[name]).Some?
  {
    map name | name in entries :: FromEntry(entries[name]).value
  }

  function Encode(agents: Agents): map<Name, Entry> {
    map name | name in agents :: ToEntry(agents[name])
  }

  lemma DecodesWhatItEncoded(agents: Agents)
    ensures (forall name | name in Encode(agents) :: FromEntry(Encode(agents)[name]).Some?) && Decode(Encode(agents)) == agents
  {
    hide FromEntry, ToEntry;
    forall name | name in agents ensures FromEntry(Encode(agents)[name]) == Some(agents[name]) {
      ReadsBackWhatItWrote(agents[name]);
    }
    assert Decode(Encode(agents)).Keys == agents.Keys;
  }
}
