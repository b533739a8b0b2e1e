/** The strict subset of JSON Schema that a reply schema must keep to, and what
    keeping to it means for every reply that validates. */
module Schema {
  import opened Common
  import opened Ordering

  // An object lists its keys in document order; only the walk looks at it.
  datatype Json =
    | Null
    | Bool(b: bool)
    | Num(n: real)
    | Str(s: string)
    | Arr(elems: seq<Json>)
    | Obj(order: seq<string>, fields: map<string, Json>)

  const TYPE := "type"
  const PROPERTIES := "properties"
  const REQUIRED := "required"
  const ADDITIONAL := "additionalProperties"
  const PATTERNS := "patternProperties"
  const ITEMS := "items"
  const PREFIX := "prefixItems"
  const ANY_OF := "anyOf"
  const DEFS := "$defs"

  const FORBIDDEN := ["oneOf", "allOf", "not"]

  predicate Dict(j: Json) {
    && j.Obj?
    && (forall key | key in j.order :: key in j.fields)
    && (forall key | key in j.fields :: key in j.order)
  }

  /** A document the metaschema accepts, as far as these keywords go. */
  predicate IsSchema(j: Json)
    decreases j, 0
  {
    j.Bool? ||
      (Dict(j) && ShapesFit(j) && (forall key | key in j.fields :: PartsFit(key, j.fields[key])))
  }

  predicate ShapesFit(j: Json)
    requires j.Obj?
  {
    && (TYPE in j.fields ==> IsTypes(j.fields[TYPE]))
    && (REQUIRED in j.fields ==> j.fields[REQUIRED].Arr? && forall name | name in j.fields[REQUIRED].elems :: name.Str?)
  }

  /** What a keyword that holds subschemas must hold. */
  predicate PartsFit(key: string, part: Json)
    decreases part, 1
  {
    if key == PROPERTIES || key == DEFS || key == PATTERNS then
      Dict(part) && forall name | name in part.fields :: IsSchema(part.fields[name])
    else if key == ITEMS || key == ADDITIONAL then IsSchema(part)
    else if key == ANY_OF || key == PREFIX then
      part.Arr? && part.elems != [] && forall i | 0 <= i < |part.elems| :: IsSchema(part.elems[i])
    else true
  }

  const TYPES := {"null", "boolean", "object", "array", "number", "string", "integer"}

  predicate IsTypes(j: Json) {
    || (j.Str? && j.s in TYPES)
    || (j.Arr? && j.elems != [] && forall t | t in j.elems :: t.Str? && t.s in TYPES)
  }

  // ---- The walk over the document ----------------------------------------

  /** The type names a node declares; none where it declares nothing. */
  function DeclaredTypes(node: Json): seq<Json>
    requires node.Obj?
  {
    if TYPE !in node.fields then [] else if node.fields[TYPE].Arr? then node.fields[TYPE].elems else [node.fields[TYPE]]
  }

  /** Does it describe an object: by its type, by one of its types, or by listing
      properties? */
  predicate IsObjectNode(node: Json): (described: bool)
    requires node.Obj?
    ensures "properties" in node.fields ==> described
    ensures described && "properties" !in node.fields ==> "type" in node.fields
    ensures "type" in node.fields && node.fields["type"].Str? ==>
              (described <==> node.fields["type"].s == "object" || "properties" in node.fields)
    ensures "type" in node.fields && node.fields["type"].Arr? ==>
              (described <==> Str("object") in node.fields["type"].elems || "properties" in node.fields)
  {
    Str("object") in DeclaredTypes(node) || PROPERTIES in node.fields
  }

  /** The object under a keyword, empty where the keyword is absent. */
  function Table(node: Json, key: string): (table: Json)
    requires IsSchema(node) && node.Obj? && key in {PROPERTIES, DEFS, PATTERNS}
    ensures Dict(table) && forall name | name in table.fields :: table.fields[name] < node
    ensures if key in node.fields then node.fields[key] == table else table.fields == map[]
    ensures forall name | name in table.fields :: IsSchema(table.fields[name])
  {
    if key in node.fields then
      assert PartsFit(key, node.fields[key]);
      node.fields[key]
    else Obj([], map[])
  }

  function RequiredNames(node: Json): (names: seq<Json>)
    requires IsSchema(node) && node.Obj?
  {
    if REQUIRED in node.fields then node.fields[REQUIRED].elems else []
  }

  datatype Rule = Forbidden(keyword: string) | NotClosed | NotRequired(missing: seq<string>)

  function Missing(names: seq<string>, required: seq<Json>): (missing: seq<string>)
    ensures forall name :: name in missing <==> name in names && Str(name) !in required
  {
    if names == [] then []
    else (if Str(names[0]) in required then [] else [names[0]]) + Missing(names[1..], required)
  }

  predicate IsClosed(node: Json)
    requires node.Obj?
  {
    ADDITIONAL in node.fields && node.fields[ADDITIONAL] == Bool(false)
  }

  /** The first rule a node itself breaks; its children are not looked at. */
  function RuleBroken(node: Json): (broken: Option<Rule>)
    requires IsSchema(node) && node.Obj?
    ensures broken.None? <==>
              && (forall keyword | keyword in ["oneOf", "allOf", "not"] :: keyword !in node.fields)
              && (IsObjectNode(node) ==>
                    && IsClosed(node)
                    && forall name | name in Table(node, PROPERTIES).fields ::
                         "required" in node.fields && Str(name) in node.fields["required"].elems)
    ensures broken.Some? && broken.value.Forbidden? ==>
              && broken.value.keyword in ["oneOf", "allOf", "not"] && broken.value.keyword in node.fields
              && ("oneOf" in node.fields ==> broken.value.keyword == "oneOf")
              && ("allOf" in node.fields ==> broken.value.keyword != "not")
    ensures broken.Some? && !broken.value.Forbidden? ==>
              && (forall keyword | keyword in ["oneOf", "allOf", "not"] :: keyword !in node.fields)
              && IsObjectNode(node) && (broken.value.NotClosed? <==> !IsClosed(node))
    ensures broken.Some? && broken.value.NotRequired? ==>
              forall name :: name in broken.value.missing <==>
                name in Table(node, PROPERTIES).fields && Str(name) !in RequiredNames(node)
  {
    if FORBIDDEN[0] in node.fields then Some(Forbidden(FORBIDDEN[0]))
    else if FORBIDDEN[1] in node.fields then Some(Forbidden(FORBIDDEN[1]))
    else if FORBIDDEN[2] in node.fields then Some(Forbidden(FORBIDDEN[2]))
    else if !IsObjectNode(node) then None
    else if !IsClosed(node) then Some(NotClosed)
    else
      var missing := Missing(Table(node, PROPERTIES).order, RequiredNames(node));
      if missing != [] then assert missing[0] in missing; Some(NotRequired(missing)) else None
  }

  datatype Step = Property(name: string) | Items | Branch(index: nat) | Definition(name: string)

  datatype Kid = Kid(node: Json, step: Step)

  function Named(table: Json, names: seq<string>, definitions: bool): (kids: seq<Kid>)
    requires table.Obj? && forall name | name in names :: name in table.fields
    ensures |kids| == |names|
    ensures forall i | 0 <= i < |kids| :: kids[i] ==
              Kid(table.fields[names[i]], if definitions then Definition(names[i]) else Property(names[i]))
  {
    seq(|names|, i requires 0 <= i < |names| =>
      Kid(table.fields[names[i]], if definitions then Definition(names[i]) else Property(names[i])))
  }

  function Branches(node: Json): (kids: seq<Kid>)
    requires IsSchema(node) && node.Obj?
    ensures forall kid | kid in kids :: kid.node < node && IsSchema(kid.node)
    ensures ANY_OF !in node.fields ==> kids == []
    ensures ANY_OF in node.fields ==>
              node.fields[ANY_OF].Arr? && |kids| == |node.fields[ANY_OF].elems|
              && forall i | 0 <= i < |kids| :: kids[i] == Kid(node.fields[ANY_OF].elems[i], Branch(i))
  {
    if ANY_OF !in node.fields then []
    else
      assert PartsFit(ANY_OF, node.fields[ANY_OF]);
      var elems := node.fields[ANY_OF].elems;
      seq(|elems|, i requires 0 <= i < |elems| => Kid(elems[i], Branch(i)))
  }

  function ItemsOf(node: Json): (kids: seq<Kid>)
    requires IsSchema(node) && node.Obj?
    ensures forall kid | kid in kids :: kid.node < node && IsSchema(kid.node)
    ensures kids == if ITEMS in node.fields then [Kid(node.fields[ITEMS], Items)] else []
  {
    if ITEMS in node.fields then assert PartsFit(ITEMS, node.fields[ITEMS]); [Kid(node.fields[ITEMS], Items)] else []
  }

  /** The child subschemas, in the order they are walked. */
  function Kids(node: Json): (kids: seq<Kid>)
    requires IsSchema(node) && node.Obj?
    ensures forall kid | kid in kids :: kid.node < node && IsSchema(kid.node)
  {
    var properties, definitions := Table(node, PROPERTIES), Table(node, DEFS);
    Named(properties, properties.order, false) + ItemsOf(node) + Branches(node) + Named(definitions, definitions.order, true)
  }

  /** They are the values of `properties` and `$defs`, the `items` and the
      branches of `anyOf`, and nothing else. */
  lemma KidsAreTheSubschemas(node: Json, kid: Kid)
    requires IsSchema(node) && node.Obj?
    ensures kid in Kids(node) <==>
      match kid.step
      case Property(name) => name in Table(node, PROPERTIES).fields && kid.node == Table(node, PROPERTIES).fields[name]
      case Items => ITEMS in node.fields && kid.node == node.fields[ITEMS]
      case Branch(i) => i < |Branches(node)| && Branches(node)[i] == kid
      case Definition(name) => name in Table(node, DEFS).fields && kid.node == Table(node, DEFS).fields[name]
  {
    NamedIffThere(Table(node, PROPERTIES), false, kid);
    NamedIffThere(Table(node, DEFS), true, kid);
    assert kid in Branches(node) <==> kid.step.Branch? && kid.step.index < |Branches(node)| && Branches(node)[kid.step.index] == kid;
  }

  function Rank(step: Step): nat {
    match step
    case Property(_) => 0
    case Items => 1
    case Branch(_) => 2
    case Definition(_) => 3
  }

  /** Properties come before the items, those before the branches and those before
      the definitions, and each kind is in the order of the document. */
  lemma KidsInDocumentOrder(node: Json, i: nat, j: nat)
    requires IsSchema(node) && node.Obj? && i < j < |Kids(node)|
    ensures var a, b := Kids(node)[i].step, Kids(node)[j].step;
            var properties, definitions := Table(node, PROPERTIES).order, Table(node, DEFS).order;
            var first := |Kids(node)| - |definitions|;
            && Rank(a) <= Rank(b)
            && (a.Property? && b.Property? ==> j < |properties| && a.name == properties[i] && b.name == properties[j])
            && (a.Branch? && b.Branch? ==> a.index < b.index)
            && (a.Definition? && b.Definition? ==>
                  0 <= first <= i && a.name == definitions[i - first] && b.name == definitions[j - first])
  {
    hide Kids, IsSchema, Table;
    StepAt(node, i);
    StepAt(node, j);
  }

  lemma StepAt(node: Json, i: nat)
    requires IsSchema(node) && node.Obj? && i < |Kids(node)|
    ensures var properties, definitions := Table(node, PROPERTIES).order, Table(node, DEFS).order;
            var last := |Kids(node)| - |definitions|;
            && |properties| <= last
            && Kids(node)[i].step ==
                 if i < |properties| then Property(properties[i])
                 else if i >= last then Definition(definitions[i - last])
                 else if ITEMS in node.fields then (if i == |properties| then Items else Branch(i - |properties| - 1))
                 else Branch(i - |properties|)
  {
    hide IsSchema, Table, ItemsOf, Branches;
  }

  lemma NamedIffThere(table: Json, definitions: bool, kid: Kid)
    requires Dict(table)
    ensures kid in Named(table, table.order, definitions) <==>
      && (if definitions then kid.step.Definition? else kid.step.Property?)
      && kid.step.name in table.fields && kid.node == table.fields[kid.step.name]
  {
    var kids := Named(table, table.order, definitions);
    if (if definitions then kid.step.Definition? else kid.step.Property?)
       && kid.step.name in table.fields && kid.node == table.fields[kid.step.name] {
      var i :| 0 <= i < |table.order| && table.order[i] == kid.step.name;
      assert kids[i] == kid;
    }
  }

  type Path = seq<Step>

  datatype Violation = Violation(where: Path, rule: Rule)

  /** The first broken rule, depth first; boolean subschemas have none to break. */
  function FirstViolation(node: Json, where: Path): Option<Violation>
    requires IsSchema(node) && node.Obj?
    decreases node, 1, 0
  {
    var broken := RuleBroken(node);
    if broken.Some? then Some(Violation(where, broken.value)) else FirstAmong(node, Kids(node), where)
  }

  function FirstAmong(parent: Json, kids: seq<Kid>, where: Path): Option<Violation>
    requires forall kid | kid in kids :: kid.node < parent && IsSchema(kid.node)
    decreases parent, 0, |kids|
  {
    if kids == [] then None
    else
      var broken := if kids[0].node.Obj? then FirstViolation(kids[0].node, where + [kids[0].step]) else None;
      if broken.Some? then broken else FirstAmong(parent, kids[1..], where)
  }

  datatype Place = Place(node: Json, where: Path)

  /** Every object node of the document, a node before its children and children
      in document order. */
  function Walk(node: Json, where: Path): (places: seq<Place>)
    requires IsSchema(node) && node.Obj?
    ensures forall place | place in places :: IsSchema(place.node) && place.node.Obj?
    decreases node, 1, 0
  {
    [Place(node, where)] + WalkAll(node, Kids(node), where)
  }

  function WalkAll(parent: Json, kids: seq<Kid>, where: Path): (places: seq<Place>)
    requires forall kid | kid in kids :: kid.node < parent && IsSchema(kid.node)
    ensures forall place | place in places :: IsSchema(place.node) && place.node.Obj?
    decreases parent, 0, |kids|
  {
    if kids == [] then []
    else (if kids[0].node.Obj? then Walk(kids[0].node, where + [kids[0].step]) else []) + WalkAll(parent, kids[1..], where)
  }

  predicate Keeps(place: Place) {
    IsSchema(place.node) && place.node.Obj? && RuleBroken(place.node).None?
  }

  /** Is it the verdict on a list of places: nothing where all of them keep the
      rules, and otherwise the rule broken at the first that does not? */
  predicate IsVerdict(verdict: Option<Violation>, places: seq<Place>) {
    match verdict
    case None => forall place | place in places :: Keeps(place)
    case Some(v) =>
      exists i | 0 <= i < |places| ::
        && (forall k | 0 <= k < i :: Keeps(places[k]))
        && IsSchema(places[i].node) && places[i].node.Obj?
        && v.where == places[i].where && RuleBroken(places[i].node) == Some(v.rule)
  }

  lemma VerdictOnAll(first: Option<Violation>, a: seq<Place>, second: Option<Violation>, b: seq<Place>)
    requires IsVerdict(first, a) && IsVerdict(second, b)
    ensures IsVerdict(if first.Some? then first else second, a + b)
  {
    hide Keeps, IsSchema, RuleBroken;
    if first.Some? {
      var i :| 0 <= i < |a| && (forall k | 0 <= k < i :: Keeps(a[k]))
        && IsSchema(a[i].node) && a[i].node.Obj?
        && first.value.where == a[i].where && RuleBroken(a[i].node) == Some(first.value.rule);
      assert (a + b)[i] == a[i] && forall k | 0 <= k < i :: (a + b)[k] == a[k];
    } else if second.Some? {
      var i :| 0 <= i < |b| && (forall k | 0 <= k < i :: Keeps(b[k]))
        && IsSchema(b[i].node) && b[i].node.Obj?
        && second.value.where == b[i].where && RuleBroken(b[i].node) == Some(second.value.rule);
      assert (a + b)[|a| + i] == b[i];
      assert forall k | 0 <= k < |a| + i :: (a + b)[k] == if k < |a| then a[k] else b[k - |a|];
    }
  }

  /** The walk names the first node in document order that breaks a rule, and
      nothing exactly when every node it walks keeps them all. */
  lemma {:induction false} NamesTheFirst(node: Json, where: Path)
    requires IsSchema(node) && node.Obj?
    ensures IsVerdict(FirstViolation(node, where), Walk(node, where))
    decreases node, 1, 0
  {
    var broken := RuleBroken(node);
    var own := if broken.Some? then Some(Violation(where, broken.value)) else None;
    assert IsVerdict(own, [Place(node, where)]) by {
      if broken.Some? { assert [Place(node, where)][0].node == node; }
    }
    NamesTheFirstAmong(node, Kids(node), where);
    VerdictOnAll(own, [Place(node, where)], FirstAmong(node, Kids(node), where), WalkAll(node, Kids(node), where));
  }

  lemma {:induction false} NamesTheFirstAmong(parent: Json, kids: seq<Kid>, where: Path)
    requires forall kid | kid in kids :: kid.node < parent && IsSchema(kid.node)
    ensures IsVerdict(FirstAmong(parent, kids, where), WalkAll(parent, kids, where))
    decreases parent, 0, |kids|
  {
    if kids != [] {
      var deeper := where + [kids[0].step];
      NamesTheFirstAmong(parent, kids[1..], where);
      var first, places := None, [];
      if kids[0].node.Obj? {
        NamesTheFirst(kids[0].node, deeper);
        first, places := FirstViolation(kids[0].node, deeper), Walk(kids[0].node, deeper);
      }
      VerdictOnAll(first, places, FirstAmong(parent, kids[1..], where), WalkAll(parent, kids[1..], where));
    }
  }

  /** Is this an object subschema some chain of steps leads to? */
  predicate Reaches(node: Json, where: Path, place: Place)
    requires IsSchema(node) && node.Obj?
    decreases node
  {
    || place == Place(node, where)
    || exists kid | kid in Kids(node) :: kid.node.Obj? && Reaches(kid.node, where + [kid.step], place)
  }

  lemma {:induction false} WalksWhatItReaches(node: Json, where: Path, place: Place)
    requires IsSchema(node) && node.Obj?
    ensures place in Walk(node, where) <==> Reaches(node, where, place)
    decreases node, 1, 0
  {
    WalksWhatTheyReach(node, Kids(node), where, place);
  }

  lemma {:induction false} WalksWhatTheyReach(parent: Json, kids: seq<Kid>, where: Path, place: Place)
    requires forall kid | kid in kids :: kid.node < parent && IsSchema(kid.node)
    ensures place in WalkAll(parent, kids, where)
       <==> exists kid | kid in kids :: kid.node.Obj? && Reaches(kid.node, where + [kid.step], place)
    decreases parent, 0, |kids|
  {
    if kids != [] {
      WalksWhatTheyReach(parent, kids[1..], where, place);
      if kids[0].node.Obj? { WalksWhatItReaches(kids[0].node, where + [kids[0].step], place); }
      assert forall kid :: kid in kids <==> kid == kids[0] || kid in kids[1..];
    }
  }

  /** A schema passes exactly when every object subschema within reach keeps the
      rules. */
  lemma PassesIffAllKeep(node: Json)
    requires IsSchema(node) && node.Obj?
    ensures FirstViolation(node, []).None? <==> forall place | Reaches(node, [], place) :: Keeps(place)
  {
    NamesTheFirst(node, []);
    forall place ensures place in Walk(node, []) <==> Reaches(node, [], place) {
      WalksWhatItReaches(node, [], place);
    }
    var verdict, places := FirstViolation(node, []), Walk(node, []);
    if verdict.Some? {
      var i :| 0 <= i < |places| && (forall k | 0 <= k < i :: Keeps(places[k]))
        && IsSchema(places[i].node) && places[i].node.Obj?
        && verdict.value.where == places[i].where && RuleBroken(places[i].node) == Some(verdict.value.rule);
      assert places[i] in places && !Keeps(places[i]);
    }
  }

  // ---- What validation asks of a reply -----------------------------------

  /** What the model leaves open of a validator: how a pattern matches a key, and
      what every keyword other than the ones below has to say. */
  datatype Dialect = Dialect(matches: (string, string) -> bool, others: (Json, Json) -> bool)

  predicate HasType(v: Json, t: Json) {
    match v
    case Null => t == Str("null")
    case Bool(_) => t == Str("boolean")
    case Num(n) => t == Str("number") || (t == Str("integer") && n.Floor as real == n)
    case Str(_) => t == Str("string")
    case Arr(_) => t == Str("array")
    case Obj(_, _) => t == Str("object")
  }

  predicate MatchesPattern(d: Dialect, node: Json, key: string)
    requires IsSchema(node) && node.Obj?
  {
    exists pattern | pattern in Table(node, PATTERNS).fields :: d.matches(pattern, key)
  }

  /** Is a value valid under a schema? Each keyword adds its own demand. */
  predicate Validates(d: Dialect, node: Json, v: Json)
    requires IsSchema(node)
    decreases node, 2
  {
    if node.Bool? then node.b
    else
      && d.others(node, v)
      && (TYPE in node.fields ==> exists t | t in DeclaredTypes(node) :: HasType(v, t))
      && (v.Obj? ==> ObjectFits(d, node, v))
      && (v.Arr? ==> ArrayFits(d, node, v))
      && (ANY_OF in node.fields ==> exists kid | kid in Branches(node) :: Validates(d, kid.node, v))
  }

  predicate ObjectFits(d: Dialect, node: Json, v: Json)
    requires IsSchema(node) && node.Obj? && v.Obj?
    decreases node, 1
  {
    && (forall name | name in RequiredNames(node) && name.Str? :: name.s in v.fields)
    && (forall name | name in Table(node, PROPERTIES).fields && name in v.fields ::
          Validates(d, Table(node, PROPERTIES).fields[name], v.fields[name]))
    && (forall name | name in v.fields :: PatternsFit(d, node, name, v.fields[name]))
    && (ADDITIONAL in node.fields ==>
          assert PartsFit(ADDITIONAL, node.fields[ADDITIONAL]);
          forall name | name in v.fields && name !in Table(node, PROPERTIES).fields && !MatchesPattern(d, node, name) ::
            Validates(d, node.fields[ADDITIONAL], v.fields[name]))
  }

  /** Is a value what every pattern that matches its key asks for? */
  predicate PatternsFit(d: Dialect, node: Json, key: string, x: Json)
    requires IsSchema(node) && node.Obj?
    decreases node, 0
  {
    forall pattern | pattern in Table(node, PATTERNS).fields && d.matches(pattern, key) ::
      Validates(d, Table(node, PATTERNS).fields[pattern], x)
  }

  predicate ArrayFits(d: Dialect, node: Json, v: Json)
    requires IsSchema(node) && node.Obj? && v.Arr?
    decreases node, 0
  {
    ITEMS in node.fields ==>
      assert PartsFit(ITEMS, node.fields[ITEMS]);
      forall i | Prefix(node) <= i < |v.elems| :: Validates(d, node.fields[ITEMS], v.elems[i])
  }

  /** How many leading elements `prefixItems` takes out of `items`. */
  function Prefix(node: Json): nat
    requires IsSchema(node) && node.Obj?
  {
    if PREFIX in node.fields then assert PartsFit(PREFIX, node.fields[PREFIX]); |node.fields[PREFIX].elems| else 0
  }

  /** Does a value have the shape the schema draws? Wherever a node describes an
      object, the object has every declared key, and no other but what the node's
      own patterns let in. */
  predicate Shaped(d: Dialect, node: Json, v: Json)
    requires IsSchema(node)
    decreases node
  {
    node.Obj? ==>
      && (v.Obj? && IsObjectNode(node) ==>
            && (forall name | name in Table(node, PROPERTIES).fields ::
                  name in v.fields && Shaped(d, Table(node, PROPERTIES).fields[name], v.fields[name]))
            && (forall name | name in v.fields ::
                  name in Table(node, PROPERTIES).fields || MatchesPattern(d, node, name)))
      && (v.Arr? && ITEMS in node.fields ==>
            assert PartsFit(ITEMS, node.fields[ITEMS]);
            forall i | Prefix(node) <= i < |v.elems| :: Shaped(d, node.fields[ITEMS], v.elems[i]))
      && (ANY_OF in node.fields ==> exists kid | kid in Branches(node) :: Shaped(d, kid.node, v))
  }

  /** Is every object subschema at or below a schema within the rules? */
  predicate Strict(node: Json, where: Path)
    requires IsSchema(node)
  {
    node.Obj? ==> FirstViolation(node, where).None?
  }

  lemma {:induction false} StrictKid(parent: Json, kids: seq<Kid>, where: Path, kid: Kid)
    requires forall kid | kid in kids :: kid.node < parent && IsSchema(kid.node)
    requires FirstAmong(parent, kids, where).None? && kid in kids
    ensures Strict(kid.node, where + [kid.step])
    decreases |kids|
  {
    if kid != kids[0] { StrictKid(parent, kids[1..], where, kid); }
  }

  /** Under a schema that passes, validity alone pins the shape of the reply, at
      every level and whatever other keywords may add. */
  lemma {:induction false} ValidHasShape(d: Dialect, node: Json, where: Path, v: Json)
    requires IsSchema(node) && Strict(node, where) && Validates(d, node, v)
    ensures Shaped(d, node, v)
    decreases node
  {
    if node.Obj? {
      if v.Obj? && IsObjectNode(node) { ClosedHere(d, node, v); }
      var properties := Table(node, PROPERTIES);
      if v.Obj? && IsObjectNode(node) {
        forall name | name in properties.fields ensures Shaped(d, properties.fields[name], v.fields[name]) {
          var kid := Kid(properties.fields[name], Property(name));
          KidsAreTheSubschemas(node, kid);
          StrictKid(node, Kids(node), where, kid);
          ValidHasShape(d, kid.node, where + [kid.step], v.fields[name]);
        }
      }
      if v.Arr? && ITEMS in node.fields {
        assert PartsFit(ITEMS, node.fields[ITEMS]);
        var kid := Kid(node.fields[ITEMS], Items);
        KidsAreTheSubschemas(node, kid);
        StrictKid(node, Kids(node), where, kid);
        forall i | Prefix(node) <= i < |v.elems| ensures Shaped(d, node.fields[ITEMS], v.elems[i]) {
          ValidHasShape(d, kid.node, where + [kid.step], v.elems[i]);
        }
      }
      if ANY_OF in node.fields {
        var kid :| kid in Branches(node) && Validates(d, kid.node, v);
        StrictKid(node, Kids(node), where, kid);
        ValidHasShape(d, kid.node, where + [kid.step], v);
      }
    }
  }

  /** One level of it: the keys of a valid object. */
  lemma ClosedHere(d: Dialect, node: Json, v: Json)
    requires IsSchema(node) && node.Obj? && RuleBroken(node).None? && Validates(d, node, v)
    requires v.Obj? && IsObjectNode(node)
    ensures forall name | name in Table(node, PROPERTIES).fields :: name in v.fields
    ensures forall name | name in v.fields :: name in Table(node, PROPERTIES).fields || MatchesPattern(d, node, name)
  {
    var properties, required := Table(node, PROPERTIES), RequiredNames(node);
    assert node.fields[ADDITIONAL] == Bool(false) && Missing(properties.order, required) == [];
    assert forall name | name in required && name.Str? :: name.s in v.fields;
    forall name | name in v.fields ensures name in properties.fields || MatchesPattern(d, node, name) {
      assert !Validates(d, node.fields[ADDITIONAL], v.fields[name]);
    }
    hide Validates, RuleBroken, IsSchema, RequiredNames;
    forall name | name in properties.fields ensures name in v.fields {
      assert name in properties.order && name !in Missing(properties.order, required);
      assert Str(name) in required;
    }
  }

  /** The object with one key more, or another value under one it has. */
  function WithKey(v: Json, key: string, x: Json): Json
    requires v.Obj?
  {
    Obj(if key in v.fields then v.order else v.order + [key], v.fields[key := x])
  }

  /** A valid object stays valid with any undeclared key that patterns match, under
      a value that all of those ask for, unless some other keyword objects. */
  lemma PatternAdmits(d: Dialect, node: Json, v: Json, key: string, x: Json)
    requires IsSchema(node) && node.Obj? && ANY_OF !in node.fields && v.Obj? && Validates(d, node, v)
    requires key !in Table(node, PROPERTIES).fields && MatchesPattern(d, node, key) && PatternsFit(d, node, key, x)
    requires d.others(node, WithKey(v, key, x))
    ensures Validates(d, node, WithKey(v, key, x))
  {
    var more := WithKey(v, key, x);
    assert ObjectFits(d, node, v);
    assert forall name | name in more.fields :: more.fields[name] == if name == key then x else v.fields[name];
    assert forall t :: HasType(more, t) == HasType(v, t);
    assert ObjectFits(d, node, more) by { hide IsSchema, Validates, RequiredNames, Table, PatternsFit; }
  }

  /** Does every object valid under a node have exactly the declared keys? */
  ghost predicate PinsKeys(d: Dialect, node: Json)
    requires IsSchema(node) && node.Obj?
  {
    forall v: Json | v.Obj? && Validates(d, node, v) :: v.fields.Keys == Table(node, PROPERTIES).fields.Keys
  }

  /** May the key be there without being declared? A pattern must match it, and
      some value must be what all patterns that do ask for. */
  ghost predicate Admits(d: Dialect, node: Json, key: string)
    requires IsSchema(node) && node.Obj?
  {
    key !in Table(node, PROPERTIES).fields && MatchesPattern(d, node, key) && exists x :: PatternsFit(d, node, key, x)
  }

  ghost predicate NoObjectFits(d: Dialect, node: Json)
    requires IsSchema(node) && node.Obj?
  {
    forall v: Json | v.Obj? :: !Validates(d, node, v)
  }

  /** Do the keywords not modelled here let such a key into an object they accept,
      under some such value? */
  ghost predicate Welcomes(d: Dialect, node: Json)
    requires IsSchema(node) && node.Obj?
  {
    forall v: Json, key | v.Obj? && d.others(node, v) && Admits(d, node, key) :: Welcome(d, node, v, key)
  }

  ghost predicate Welcome(d: Dialect, node: Json, v: Json, key: string)
    requires IsSchema(node) && node.Obj? && v.Obj?
  {
    exists x :: PatternsFit(d, node, key, x) && d.others(node, WithKey(v, key, x))
  }

  /** An object node within the rules pins the keys of its objects exactly when its
      patterns admit no undeclared key, or no object is valid under it. */
  lemma PinsKeysIff(d: Dialect, node: Json)
    requires IsSchema(node) && node.Obj? && IsObjectNode(node) && RuleBroken(node).None?
    requires ANY_OF !in node.fields && Welcomes(d, node)
    ensures PinsKeys(d, node) <==> (forall key :: !Admits(d, node, key)) || NoObjectFits(d, node)
  {
    if forall key :: !Admits(d, node, key) {
      forall v: Json | v.Obj? && Validates(d, node, v) ensures v.fields.Keys == Table(node, PROPERTIES).fields.Keys {
        ClosedHere(d, node, v);
        assert ObjectFits(d, node, v);
        hide Validates, IsSchema, RuleBroken, Table, MatchesPattern;
        forall name | name in v.fields ensures name in Table(node, PROPERTIES).fields {
          assert PatternsFit(d, node, name, v.fields[name]) && !Admits(d, node, name);
        }
      }
    } else if !NoObjectFits(d, node) {
      var v: Json :| v.Obj? && Validates(d, node, v);
      var key :| Admits(d, node, key);
      assert Welcome(d, node, v, key);
      var x :| PatternsFit(d, node, key, x) && d.others(node, WithKey(v, key, x));
      PatternAdmits(d, node, v, key, x);
      assert key in WithKey(v, key, x).fields.Keys;
    }
  }

  // ---- Loading a schema and checking a reply -----------------------------

  /** The document as it is kept: the keys of every object in ascending order. */
  function Canonical(j: Json): Json {
    match j
    case Obj(order, fields) => Obj(Sorted(order), map key | key in fields :: Canonical(fields[key]))
    case Arr(elems) => Arr(seq(|elems|, i requires 0 <= i < |elems| => Canonical(elems[i])))
    case _ => j
  }

  lemma CanonicalDict(j: Json)
    requires Dict(j)
    ensures Dict(Canonical(j))
  {
    SortedHasTheSame(j.order);
  }

  lemma {:induction false} CanonicalSchema(j: Json)
    requires IsSchema(j)
    ensures IsSchema(Canonical(j))
    decreases j, 0
  {
    if j.Obj? {
      CanonicalDict(j);
      var c := Canonical(j);
      forall key | key in j.fields ensures PartsFit(key, c.fields[key]) {
        CanonicalParts(key, j.fields[key]);
      }
      if TYPE in j.fields { CanonicalTexts(j.fields[TYPE]); }
      if REQUIRED in j.fields { CanonicalTexts(j.fields[REQUIRED]); }
    }
  }

  lemma {:induction false} CanonicalParts(key: string, part: Json)
    requires PartsFit(key, part)
    ensures PartsFit(key, Canonical(part))
    decreases part, 1
  {
    if key == PROPERTIES || key == DEFS || key == PATTERNS {
      CanonicalDict(part);
      forall name | name in part.fields { CanonicalSchema(part.fields[name]); }
    } else if key == ITEMS || key == ADDITIONAL {
      CanonicalSchema(part);
    } else if key == ANY_OF || key == PREFIX {
      forall i | 0 <= i < |part.elems| { CanonicalSchema(part.elems[i]); }
    }
  }

  /** Names and lists of names have no keys to sort. */
  lemma CanonicalTexts(j: Json)
    requires j.Str? || (j.Arr? && forall e | e in j.elems :: e.Str?)
    ensures Canonical(j) == j
  {
    if j.Arr? { assert forall i | 0 <= i < |j.elems| :: j.elems[i] in j.elems; }
  }

  /** No keyword looks at the order of keys. */
  ghost predicate Orderless(d: Dialect) {
    forall node, v :: d.others(Canonical(node), v) == d.others(node, v)
  }

  /** The canonical form holds the same under the same keys. */
  lemma CanonicalFields(j: Json)
    requires j.Obj?
    ensures Canonical(j).Obj? && Canonical(j).fields.Keys == j.fields.Keys
    ensures forall key | key in j.fields :: Canonical(j).fields[key] == Canonical(j.fields[key])
    ensures Ascending(Canonical(j).order) && multiset(Canonical(j).order) == multiset(j.order)
  {
  }

  lemma CanonicalElements(j: Json)
    requires j.Arr?
    ensures Canonical(j).Arr? && |Canonical(j).elems| == |j.elems|
    ensures forall i | 0 <= i < |j.elems| :: Canonical(j).elems[i] == Canonical(j.elems[i])
  {
  }

  lemma CanonicalTables(node: Json, key: string)
    requires IsSchema(node) && node.Obj? && Canonical(node).Obj? && IsSchema(Canonical(node)) && key in {PROPERTIES, DEFS, PATTERNS}
    ensures Table(Canonical(node), key).fields.Keys == Table(node, key).fields.Keys
    ensures forall name | name in Table(node, key).fields ::
              Table(Canonical(node), key).fields[name] == Canonical(Table(node, key).fields[name])
  {
    hide IsSchema, Canonical;
    CanonicalFields(node);
    if key in node.fields {
      assert Table(node, key) == node.fields[key];
      CanonicalFields(node.fields[key]);
    }
  }

  lemma CanonicalBranches(node: Json)
    requires IsSchema(node) && node.Obj? && Canonical(node).Obj? && IsSchema(Canonical(node))
    ensures |Branches(Canonical(node))| == |Branches(node)|
    ensures forall i | 0 <= i < |Branches(node)| :: Branches(Canonical(node))[i].node == Canonical(Branches(node)[i].node)
  {
    var kids := Branches(node);
    hide IsSchema, Canonical, Branches;
    CanonicalFields(node);
    if ANY_OF in node.fields { CanonicalElements(node.fields[ANY_OF]); }
  }

  lemma CanonicalPrefix(node: Json)
    requires IsSchema(node) && node.Obj? && Canonical(node).Obj? && IsSchema(Canonical(node))
    ensures Prefix(Canonical(node)) == Prefix(node)
  {
    CanonicalFields(node);
    if PREFIX in node.fields {
      assert PartsFit(PREFIX, node.fields[PREFIX]);
      hide IsSchema, Canonical, PartsFit;
      CanonicalElements(node.fields[PREFIX]);
    }
  }

  lemma CanonicalNames(node: Json)
    requires IsSchema(node) && node.Obj? && Canonical(node).Obj? && IsSchema(Canonical(node))
    ensures DeclaredTypes(Canonical(node)) == DeclaredTypes(node)
    ensures RequiredNames(Canonical(node)) == RequiredNames(node)
  {
    assert ShapesFit(node);
    hide IsSchema, Canonical;
    CanonicalFields(node);
    if TYPE in node.fields { CanonicalTexts(node.fields[TYPE]); }
    if REQUIRED in node.fields { CanonicalTexts(node.fields[REQUIRED]); }
  }

  /** Keeping the schema in canonical form changes no verdict on any reply. */
  lemma {:induction false} CanonicalMeansTheSame(d: Dialect, node: Json, v: Json)
    requires Orderless(d) && IsSchema(node)
    ensures IsSchema(Canonical(node)) && (Validates(d, Canonical(node), v) <==> Validates(d, node, v))
    decreases node, 2
  {
    CanonicalSchema(node);
    if node.Obj? {
      CanonicalFields(node);
      hide IsSchema, Canonical, ObjectFits, ArrayFits, DeclaredTypes, Branches, RequiredNames;
      CanonicalNames(node);
      if v.Obj? { CanonicalObject(d, node, v); }
      if v.Arr? { CanonicalArray(d, node, v); }
      CanonicalChoice(d, node, v);
    }
  }

  lemma {:induction false} CanonicalChoice(d: Dialect, node: Json, v: Json)
    requires Orderless(d) && IsSchema(node) && node.Obj? && Canonical(node).Obj? && IsSchema(Canonical(node))
    ensures (exists kid | kid in Branches(Canonical(node)) :: Validates(d, kid.node, v))
       <==> (exists kid | kid in Branches(node) :: Validates(d, kid.node, v))
    decreases node, 0
  {
    CanonicalBranches(node);
    var a, b := Branches(Canonical(node)), Branches(node);
    hide IsSchema, Canonical, Validates, Branches;
    forall i | 0 <= i < |a|
      ensures IsSchema(a[i].node) && IsSchema(b[i].node) && (Validates(d, a[i].node, v) <==> Validates(d, b[i].node, v))
    {
      assert b[i] in b;
      CanonicalMeansTheSame(d, b[i].node, v);
    }
    SameSomewhere(d, a, b, v);
  }

  lemma {:induction false} CanonicalPatterns(d: Dialect, node: Json, key: string, x: Json)
    requires Orderless(d) && IsSchema(node) && node.Obj? && Canonical(node).Obj? && IsSchema(Canonical(node))
    ensures PatternsFit(d, Canonical(node), key, x) <==> PatternsFit(d, node, key, x)
    decreases node, 0
  {
    CanonicalTables(node, PATTERNS);
    var patterns := Table(node, PATTERNS);
    hide IsSchema, Canonical, Table, Validates;
    forall pattern | pattern in patterns.fields
      ensures IsSchema(Canonical(patterns.fields[pattern]))
      ensures Validates(d, Canonical(patterns.fields[pattern]), x) <==> Validates(d, patterns.fields[pattern], x)
    {
      CanonicalMeansTheSame(d, patterns.fields[pattern], x);
    }
  }

  lemma {:induction false} CanonicalObject(d: Dialect, node: Json, v: Json)
    requires Orderless(d) && IsSchema(node) && node.Obj? && v.Obj? && Canonical(node).Obj? && IsSchema(Canonical(node))
    ensures ObjectFits(d, Canonical(node), v) <==> ObjectFits(d, node, v)
    decreases node, 1
  {
    assert ADDITIONAL in node.fields ==> PartsFit(ADDITIONAL, node.fields[ADDITIONAL]);
    CanonicalFields(node);
    CanonicalNames(node);
    CanonicalTables(node, PROPERTIES);
    CanonicalTables(node, PATTERNS);
    assert forall name :: MatchesPattern(d, Canonical(node), name) == MatchesPattern(d, node, name);
    hide IsSchema, Canonical, RequiredNames, Table, Validates, MatchesPattern, PatternsFit;
    var properties := Table(node, PROPERTIES);
    forall name | name in v.fields
      ensures PatternsFit(d, Canonical(node), name, v.fields[name]) <==> PatternsFit(d, node, name, v.fields[name])
    {
      CanonicalPatterns(d, node, name, v.fields[name]);
    }
    forall name | name in properties.fields && name in v.fields {
      CanonicalMeansTheSame(d, properties.fields[name], v.fields[name]);
    }
    forall name | ADDITIONAL in node.fields && name in v.fields {
      CanonicalMeansTheSame(d, node.fields[ADDITIONAL], v.fields[name]);
    }
  }

  lemma {:induction false} CanonicalArray(d: Dialect, node: Json, v: Json)
    requires Orderless(d) && IsSchema(node) && node.Obj? && v.Arr? && Canonical(node).Obj? && IsSchema(Canonical(node))
    ensures ArrayFits(d, Canonical(node), v) <==> ArrayFits(d, node, v)
    decreases node, 0
  {
    assert ITEMS in node.fields ==> PartsFit(ITEMS, node.fields[ITEMS]);
    CanonicalFields(node);
    CanonicalPrefix(node);
    hide IsSchema, Canonical, Prefix, Validates;
    forall i | ITEMS in node.fields && 0 <= i < |v.elems|
      ensures Validates(d, Canonical(node.fields[ITEMS]), v.elems[i]) <==> Validates(d, node.fields[ITEMS], v.elems[i])
    {
      CanonicalMeansTheSame(d, node.fields[ITEMS], v.elems[i]);
    }
  }

  lemma SameSomewhere(d: Dialect, a: seq<Kid>, b: seq<Kid>, v: Json)
    requires |a| == |b| && forall i | 0 <= i < |a| ::
               IsSchema(a[i].node) && IsSchema(b[i].node) && (Validates(d, a[i].node, v) <==> Validates(d, b[i].node, v))
    ensures (exists kid | kid in a :: Validates(d, kid.node, v)) <==> (exists kid | kid in b :: Validates(d, kid.node, v))
  {
    if kid :| kid in a && Validates(d, kid.node, v) {
      var i :| 0 <= i < |a| && a[i] == kid;
      assert b[i] in b;
    }
    if kid :| kid in b && Validates(d, kid.node, v) {
      var i :| 0 <= i < |b| && b[i] == kid;
      assert a[i] in a;
    }
  }

  datatype LoadError = NotJson | NotAnObject | NotASchema | Breaks(violation: Violation) | RootIsNoObject

  /** Load a schema document; what is kept of it is its canonical form. */
  function LoadSchema(document: Option<Json>): (schema: Result<Json, LoadError>)
    ensures schema.Ok? ==> IsSchema(schema.value)
  {
    if document.None? then Err(NotJson)
    else if !document.value.Obj? then Err(NotAnObject)
    else if !IsSchema(document.value) then Err(NotASchema)
    else
      var broken := FirstViolation(document.value, []);
      if broken.Some? then Err(Breaks(broken.value))
      else if !IsObjectNode(document.value) then Err(RootIsNoObject)
      else
        CanonicalSchema(document.value);
        Ok(Canonical(document.value))
  }

  /** A document loads exactly when it is a schema for an object and every object
      subschema within reach keeps the rules. */
  lemma LoadsIffStrict(document: Option<Json>)
    ensures LoadSchema(document).Ok? <==>
      && document.Some? && document.value.Obj? && IsSchema(document.value) && IsObjectNode(document.value)
      && forall place | Reaches(document.value, [], place) :: Keeps(place)
  {
    if document.Some? && document.value.Obj? && IsSchema(document.value) { PassesIffAllKeep(document.value); }
  }

  /** What it says of a document that does not load: the first of five causes, in
      the order they are looked for. */
  lemma LoadingFailsAtTheFirstCause(document: Option<Json>)
    ensures LoadSchema(document).Err? ==>
      match LoadSchema(document).error
      case NotJson => document.None?
      case NotAnObject => document.Some? && !document.value.Obj?
      case NotASchema => document.Some? && document.value.Obj? && !IsSchema(document.value)
      case Breaks(violation) =>
        && document.Some? && document.value.Obj? && IsSchema(document.value)
        && IsVerdict(Some(violation), Walk(document.value, []))
      case RootIsNoObject =>
        && document.Some? && document.value.Obj? && IsSchema(document.value) && !IsObjectNode(document.value)
        && forall place | Reaches(document.value, [], place) :: Keeps(place)
  {
    if document.Some? && document.value.Obj? && IsSchema(document.value) {
      PassesIffAllKeep(document.value);
      NamesTheFirst(document.value, []);
    }
  }

  datatype ReplyError = NotAJsonObject | Unsatisfied

  function ValidateReply(d: Dialect, structured: Option<Json>, schema: Json): Result<Json, ReplyError>
    requires IsSchema(schema)
  {
    if structured.None? || !structured.value.Obj? then Err(NotAJsonObject)
    else if Validates(d, schema, structured.value) then Ok(structured.value)
    else Err(Unsatisfied)
  }

  /** A reply is let through, as it is, exactly when it is an object that is valid
      under the schema as its file has it. */
  lemma RepliesPassIffValid(d: Dialect, document: Option<Json>, structured: Option<Json>)
    requires Orderless(d) && LoadSchema(document).Ok?
    ensures document.Some? && IsSchema(document.value)
    ensures forall x :: ValidateReply(d, structured, LoadSchema(document).value) == Ok(x)
                   <==> structured == Some(x) && x.Obj? && Validates(d, document.value, x)
    ensures ValidateReply(d, structured, LoadSchema(document).value) == Err(NotAJsonObject)
       <==> structured.None? || !structured.value.Obj?
  {
    if structured.Some? { CanonicalMeansTheSame(d, document.value, structured.value); }
  }

  /** What that comes to for an object node within the rules that has no patterns
      and no branches: an object with exactly the declared keys, each valid under
      its own schema, unless a type or another keyword objects. */
  lemma ValidIffFilledIn(d: Dialect, node: Json, v: Json)
    requires IsSchema(node) && node.Obj? && IsObjectNode(node) && RuleBroken(node).None?
    requires PATTERNS !in node.fields && ANY_OF !in node.fields && v.Obj?
    ensures Validates(d, node, v) <==>
              && d.others(node, v) && (TYPE in node.fields ==> Str("object") in DeclaredTypes(node))
              && v.fields.Keys == Table(node, PROPERTIES).fields.Keys
              && (forall name | name in RequiredNames(node) && name.Str? :: name.s in Table(node, PROPERTIES).fields)
              && (forall name | name in v.fields && name in Table(node, PROPERTIES).fields ::
                    Validates(d, Table(node, PROPERTIES).fields[name], v.fields[name]))
  {
    hide IsSchema, RequiredNames, Table, RuleBroken, ObjectFits;
    assert Table(node, PATTERNS).fields == map[];
    if Validates(d, node, v) {
      ClosedHere(d, node, v);
      assert v.fields.Keys == Table(node, PROPERTIES).fields.Keys;
    }
    if v.fields.Keys == Table(node, PROPERTIES).fields.Keys { FilledInFits(d, node, v); }
    assert forall t :: HasType(v, t) <==> t == Str("object");
  }

  lemma FilledInFits(d: Dialect, node: Json, v: Json)
    requires IsSchema(node) && node.Obj? && IsObjectNode(node) && RuleBroken(node).None?
    requires PATTERNS !in node.fields && v.Obj?
    requires v.fields.Keys == Table(node, PROPERTIES).fields.Keys
    ensures ObjectFits(d, node, v) <==>
              && (forall name | name in RequiredNames(node) && name.Str? :: name.s in Table(node, PROPERTIES).fields)
              && (forall name | name in v.fields && name in Table(node, PROPERTIES).fields ::
                    Validates(d, Table(node, PROPERTIES).fields[name], v.fields[name]))
  {
    assert Table(node, PATTERNS).fields == map[];
    hide IsSchema, Validates, RequiredNames, RuleBroken;
  }

  /** Every reply that is let through under a schema that was let through has the
      shape the schema's own file draws, from the root down. */
  lemma AcceptedRepliesHaveTheShape(d: Dialect, document: Option<Json>, structured: Option<Json>)
    requires Orderless(d)
    ensures LoadSchema(document).Ok? && ValidateReply(d, structured, LoadSchema(document).value).Ok? ==>
      && structured.Some? && structured.value.Obj?
      && ValidateReply(d, structured, LoadSchema(document).value) == Ok(structured.value)
      && IsSchema(document.value) && Shaped(d, document.value, structured.value)
      && (forall name | name in Table(document.value, PROPERTIES).fields :: name in structured.value.fields)
      && (PATTERNS !in document.value.fields ==>
            structured.value.fields.Keys == Table(document.value, PROPERTIES).fields.Keys)
  {
    if LoadSchema(document).Ok? && structured.Some? {
      CanonicalMeansTheSame(d, document.value, structured.value);
      if Validates(d, document.value, structured.value) { ValidHasShape(d, document.value, [], structured.value); }
    }
  }

  /** Declares no key, is closed, and has one pattern. */
  const PATTERN_ONLY := Obj([TYPE, ADDITIONAL, PATTERNS],
    map[TYPE := Str("object"), ADDITIONAL := Bool(false), PATTERNS := Obj([""], map["" := Bool(true)])])

  lemma PatternOnlyLacks()
    ensures var fields := PATTERN_ONLY.fields;
            && PROPERTIES !in fields && REQUIRED !in fields && ITEMS !in fields && ANY_OF !in fields && DEFS !in fields
            && FORBIDDEN[0] !in fields && FORBIDDEN[1] !in fields && FORBIDDEN[2] !in fields
  {
    assert forall key | key in PATTERN_ONLY.fields :: key == TYPE || key == ADDITIONAL || key == PATTERNS;
    assert |TYPE| == 4 && |ADDITIONAL| == 20 && |PATTERNS| == 17;
    assert |PROPERTIES| == 10 && |REQUIRED| == 8 && |ITEMS| == |ANY_OF| == |DEFS| == 5;
    assert |FORBIDDEN[0]| == |FORBIDDEN[1]| == 5 && |FORBIDDEN[2]| == 3;
  }

  lemma PatternOnlyIsSchema()
    ensures IsSchema(PATTERN_ONLY)
  {
    PatternOnlyLacks();
    var patterns := Obj([""], map["" := Bool(true)]);
    assert PartsFit(PATTERNS, patterns) by { assert IsSchema(patterns.fields[""]); }
    assert PartsFit(ADDITIONAL, Bool(false));
    assert PartsFit(TYPE, Str("object"));
  }

  lemma PatternOnlyLoads()
    ensures IsSchema(PATTERN_ONLY) && LoadSchema(Some(PATTERN_ONLY)) == Ok(Canonical(PATTERN_ONLY))
    ensures Table(PATTERN_ONLY, PROPERTIES).fields == map[]
  {
    PatternOnlyLacks();
    PatternOnlyIsSchema();
    hide IsSchema, Canonical;
    assert Table(PATTERN_ONLY, PROPERTIES) == Obj([], map[]);
    assert Str("object") in DeclaredTypes(PATTERN_ONLY);
    assert RuleBroken(PATTERN_ONLY).None?;
    assert Kids(PATTERN_ONLY) == [] && FirstViolation(PATTERN_ONLY, []).None?;
  }

  lemma PatternOnlyMatches(d: Dialect, key: string)
    requires IsSchema(PATTERN_ONLY) && d.matches("", key)
    ensures MatchesPattern(d, PATTERN_ONLY, key) && ANY_OF !in PATTERN_ONLY.fields
    ensures PatternsFit(d, PATTERN_ONLY, key, Null)
  {
    PatternOnlyLacks();
    assert Table(PATTERN_ONLY, PATTERNS).fields == map["" := Bool(true)];
    hide IsSchema;
    assert "" in Table(PATTERN_ONLY, PATTERNS).fields;
  }

  lemma EmptyValidates(d: Dialect)
    requires IsSchema(PATTERN_ONLY) && d.others(PATTERN_ONLY, Obj([], map[]))
    ensures Validates(d, PATTERN_ONLY, Obj([], map[]))
  {
    PatternOnlyLacks();
    hide IsSchema;
    assert HasType(Obj([], map[]), Str("object"));
    assert Str("object") in DeclaredTypes(PATTERN_ONLY);
  }

  /** Without the proviso on patterns it is false: a pattern of the node's own
      lets a key in that nothing declares, and the walk does not object. */
  lemma PatternsLetKeysIn(d: Dialect, key: string)
    requires Orderless(d)
    requires forall node, v :: d.others(node, v)
    requires d.matches("", key)
    ensures var reply := Obj([key], map[key := Null]);
            && LoadSchema(Some(PATTERN_ONLY)).Ok?
            && ValidateReply(d, Some(reply), LoadSchema(Some(PATTERN_ONLY)).value) == Ok(reply)
            && IsSchema(PATTERN_ONLY) && key !in Table(PATTERN_ONLY, PROPERTIES).fields
  {
    hide IsSchema, Canonical, Validates, LoadSchema, Table, MatchesPattern, PatternsFit;
    var reply := Obj([key], map[key := Null]);
    PatternOnlyLoads();
    PatternOnlyMatches(d, key);
    EmptyValidates(d);
    assert reply == WithKey(Obj([], map[]), key, Null) by { assert [] + [key] == [key]; }
    PatternAdmits(d, PATTERN_ONLY, Obj([], map[]), key, Null);
    CanonicalMeansTheSame(d, PATTERN_ONLY, reply);
  }
}
