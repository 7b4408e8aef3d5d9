/** JSON documents and the evaluation of JSON Schema 2020-12, with assertion keywords left abstract. */
module JsonSchema {
  import opened Prelude

  datatype Json =
    | Null
    | Bool(b: bool)
    | Num(n: real)
    | Str(s: string)
    | Arr(items: seq<Json>)
    | Obj(fields: map<string, Json>)

  /** What a validator brings along: assertion keywords, patterns, and the reading of references. */
  datatype Vocabulary = Vocabulary(
    asserts: (string, Json, Json) -> bool,      // keyword, its value, the instance
    matches: (string, string) -> bool,          // pattern, property name
    locate: string -> Option<seq<string>>,      // a local reference: its pointer, or where its anchor stands
    index: (string, nat) -> Option<nat>)        // a pointer segment read as an index into a list of some length

  const REFERENCES := {"$ref", "$dynamicRef"}
  const ASSERTIONS := {
    "type", "enum", "const", "required", "dependentRequired", "minProperties", "maxProperties", "minItems",
    "maxItems", "uniqueItems", "format", "pattern", "contentMediaType", "contentEncoding", "minLength",
    "maxLength", "minimum", "maximum", "exclusiveMinimum", "exclusiveMaximum", "multipleOf"}

  /** The member or element a path of segments leads to. */
  function Resolve(w: Vocabulary, v: Json, path: seq<string>): Option<Json>
    decreases path
  {
    if path == [] then Some(v)
    else match v
      case Obj(m) => if path[0] in m then Resolve(w, m[path[0]], path[1..]) else None
      case Arr(xs) =>
        (match w.index(path[0], |xs|)
         case Some(i) => if i < |xs| then Resolve(w, xs[i], path[1..]) else None
         case None => None)
      case _ => None
  }

  /** Verdict, and the properties and items this schema evaluated (section 7.7.1 of JSON Schema Core). */
  datatype Out = Out(valid: bool, props: set<string>, items: set<nat>)

  const PASS := Out(true, {}, {})
  const FAIL := Out(false, {}, {})

  function Both(a: Out, b: Out): Out {
    Out(a.valid && b.valid, a.props + b.props, a.items + b.items)
  }

  function MapAt(m: map<string, Json>, k: string): map<string, Json> {
    if k in m && m[k].Obj? then m[k].fields else map[]
  }

  function ListAt(m: map<string, Json>, k: string): seq<Json> {
    if k in m && m[k].Arr? then m[k].items else []
  }

  predicate HasChild(m: map<string, Json>, k: string) {
    k in m && (m[k].Obj? || m[k].Bool?)
  }

  function CountAt(m: map<string, Json>, k: string, default: real): real {
    if k in m && m[k].Num? then m[k].n else default
  }

  function Members(x: Json): map<string, Json> {
    if x.Obj? then x.fields else map[]
  }

  function Elements(x: Json): seq<Json> {
    if x.Arr? then x.items else []
  }

  function Indices(n: nat): (s: set<nat>)
    ensures forall i: nat :: i in s <==> i < n
  {
    if n == 0 then {} else Indices(n - 1) + {n - 1}
  }

  // ---- Evaluation: apply every subschema, then combine what they said ----

  /** A way to evaluate a subschema, or to follow a reference value, on an instance. */
  type Evaluator = (Json, Json) -> Out

  /**
   * Evaluation of schema `s` of document `root` on instance `x`, following at most `fuel` nested references.
   */
  ghost function Eval(w: Vocabulary, root: Json, s: Json, x: Json, fuel: nat): Out
    decreases 2 * fuel + 1, s, 1
  {
    match s
    case Bool(b) => Out(b, {}, {})
    case Obj(m) => Combine(w, m, x, Apply(w, m, x, Below(w, root, s, fuel), (v, y) => Follow(w, root, v, y, fuel)))
    case _ => FAIL
  }

  /** The evaluator of the proper parts of `s`. */
  ghost function Below(w: Vocabulary, root: Json, s: Json, fuel: nat): Evaluator
    decreases 2 * fuel + 1, s, 0
  {
    (c: Json, y: Json) => if c < s then Eval(w, root, c, y, fuel) else FAIL
  }

  ghost function Follow(w: Vocabulary, root: Json, v: Json, x: Json, fuel: nat): Out
    decreases 2 * fuel
  {
    if !v.Str? || fuel == 0 then FAIL
    else match w.locate(v.s)
      case None => FAIL
      case Some(path) =>
        match Resolve(w, root, path)
        case None => FAIL
        case Some(target) => Eval(w, root, target, x, fuel - 1)
  }

  /** How many schemas of a list accept, and what the accepting ones evaluated. */
  datatype Tally = Tally(count: nat, props: set<string>, items: set<nat>)

  /** The outcome of every subschema of one schema object on one instance. */
  datatype Outcomes = Outcomes(
    ref: Out, dynamicRef: Out,
    negated: Out, test: Out, consequent: Out, alternative: Out,
    all: Tally, any: Tally, one: Tally,
    dependents: map<string, Out>,                   // by member present in the instance
    declared: map<string, bool>,                    // member against its own `properties` entry
    patterned: map<(string, string), bool>,         // (pattern, member)
    additional: map<string, bool>, names: map<string, bool>, unevaluatedMembers: map<string, bool>,
    prefix: map<nat, bool>,                         // element against its `prefixItems` entry
    rest: map<nat, bool>, contained: map<nat, bool>, unevaluatedElements: map<nat, bool>)

  function Apply(w: Vocabulary, m: map<string, Json>, x: Json, ev: Evaluator, follow: Evaluator): Outcomes {
    Outcomes(
      if "$ref" in m then follow(m["$ref"], x) else PASS,
      if "$dynamicRef" in m then follow(m["$dynamicRef"], x) else PASS,
      OnSelf(m, "not", x, ev), OnSelf(m, "if", x, ev), OnSelf(m, "then", x, ev), OnSelf(m, "else", x, ev),
      Poll(ListAt(m, "allOf"), x, ev), Poll(ListAt(m, "anyOf"), x, ev), Poll(ListAt(m, "oneOf"), x, ev),
      OnDependents(m, x, ev), OnDeclared(m, x, ev), OnPatterns(w, m, x, ev),
      OnMembers(m, "additionalProperties", x, ev), OnNames(m, x, ev), OnMembers(m, "unevaluatedProperties", x, ev),
      OnPrefix(m, x, ev),
      OnElements(m, "items", x, ev), OnElements(m, "contains", x, ev), OnElements(m, "unevaluatedItems", x, ev))
  }

  function OnSelf(m: map<string, Json>, k: string, x: Json, ev: Evaluator): Out {
    if HasChild(m, k) then ev(m[k], x) else PASS
  }

  function Poll(ss: seq<Json>, x: Json, ev: Evaluator): Tally {
    if ss == [] then Tally(0, {}, {})
    else
      var first, rest := ev(ss[0], x), Poll(ss[1..], x, ev);
      if first.valid then Tally(1 + rest.count, first.props + rest.props, first.items + rest.items) else rest
  }

  function OnDependents(m: map<string, Json>, x: Json, ev: Evaluator): map<string, Out> {
    var d := MapAt(m, "dependentSchemas");
    map n | n in d && n in Members(x) :: ev(d[n], x)
  }

  function OnDeclared(m: map<string, Json>, x: Json, ev: Evaluator): map<string, bool> {
    var d := MapAt(m, "properties");
    map n | n in d && n in Members(x) :: ev(d[n], Members(x)[n]).valid
  }

  function OnPatterns(w: Vocabulary, m: map<string, Json>, x: Json, ev: Evaluator): map<(string, string), bool> {
    var d := MapAt(m, "patternProperties");
    map p, n | p in d && n in Members(x) && w.matches(p, n) :: (p, n) := ev(d[p], Members(x)[n]).valid
  }

  function OnMembers(m: map<string, Json>, k: string, x: Json, ev: Evaluator): map<string, bool> {
    map n | n in Members(x) && HasChild(m, k) :: ev(m[k], Members(x)[n]).valid
  }

  function OnNames(m: map<string, Json>, x: Json, ev: Evaluator): map<string, bool> {
    map n | n in Members(x) && HasChild(m, "propertyNames") :: ev(m["propertyNames"], Str(n)).valid
  }

  function OnPrefix(m: map<string, Json>, x: Json, ev: Evaluator): map<nat, bool> {
    var ss := ListAt(m, "prefixItems");
    map i | i in Indices(|ss|) && i in Indices(|Elements(x)|) :: ev(ss[i], Elements(x)[i]).valid
  }

  function OnElements(m: map<string, Json>, k: string, x: Json, ev: Evaluator): map<nat, bool> {
    map i | i in Indices(|Elements(x)|) && HasChild(m, k) :: ev(m[k], Elements(x)[i]).valid
  }

  // ---- Combining outcomes ----

  predicate AllTrue<K>(verdicts: map<K, bool>) {
    forall k | k in verdicts :: verdicts[k]
  }

  /** Keywords that apply subschemas to the instance itself. */
  function InPlace(m: map<string, Json>, u: Outcomes): Out {
    var branched := Out(
      && u.all.count == |ListAt(m, "allOf")|
      && ("anyOf" in m ==> u.any.count >= 1) && ("oneOf" in m ==> u.one.count == 1),
      u.all.props + u.any.props + u.one.props, u.all.items + u.any.items + u.one.items);
    var conditional :=
      if !HasChild(m, "if") then PASS
      else if u.test.valid then Both(u.test, u.consequent)
      else u.alternative;
    var depended := Out(
      (forall n | n in u.dependents :: u.dependents[n].valid),
      set n, p | n in u.dependents && p in u.dependents[n].props :: p,
      set n, i | n in u.dependents && i in u.dependents[n].items :: i);
    Both(Both(Both(u.ref, u.dynamicRef), Out(HasChild(m, "not") ==> !u.negated.valid, {}, {})),
         Both(branched, Both(conditional, depended)))
  }

  predicate Patterned(w: Vocabulary, patterns: set<string>, n: string) {
    exists p | p in patterns :: w.matches(p, n)
  }

  predicate IsAdditional(w: Vocabulary, m: map<string, Json>, n: string) {
    n !in MapAt(m, "properties") && !Patterned(w, MapAt(m, "patternProperties").Keys, n)
  }

  /** Keywords that apply subschemas to the members of an object. */
  function OnObject(w: Vocabulary, m: map<string, Json>, x: Json, u: Outcomes): Out {
    Out(&& AllTrue(u.declared) && AllTrue(u.patterned) && AllTrue(u.names)
        && (forall n | n in u.additional && IsAdditional(w, m, n) :: u.additional[n]),
        set n | n in Members(x) && (!IsAdditional(w, m, n) || HasChild(m, "additionalProperties")),
        {})
  }

  predicate CountAllowed(m: map<string, Json>, x: Json, found: nat) {
    x.Arr? && HasChild(m, "contains") ==>
      CountAt(m, "minContains", 1.0) <= found as real
      && ("maxContains" in m ==> found as real <= CountAt(m, "maxContains", 0.0))
  }

  /** Keywords that apply subschemas to the elements of an array. */
  function OnArray(m: map<string, Json>, x: Json, u: Outcomes): Out {
    var prefix, length := |ListAt(m, "prefixItems")|, |Elements(x)|;
    var found := set i | i in u.contained && u.contained[i];
    Out(&& AllTrue(u.prefix)
        && (forall i | i in u.rest && prefix <= i :: u.rest[i])
        && CountAllowed(m, x, |found|),
        {},
        (if HasChild(m, "items") then Indices(length) else Indices(length) * Indices(prefix)) + found)
  }

  /** `unevaluatedProperties` and `unevaluatedItems`, on what `here` left over. */
  function Unevaluated(m: map<string, Json>, x: Json, here: Out, u: Outcomes): Out {
    Out(&& (forall n | n in u.unevaluatedMembers && n !in here.props :: u.unevaluatedMembers[n])
        && (forall i | i in u.unevaluatedElements && i !in here.items :: u.unevaluatedElements[i]),
        if HasChild(m, "unevaluatedProperties") then Members(x).Keys else {},
        if HasChild(m, "unevaluatedItems") then Indices(|Elements(x)|) else {})
  }

  predicate Asserted(w: Vocabulary, m: map<string, Json>, x: Json) {
    forall k | k in m && k in ASSERTIONS :: w.asserts(k, m[k], x)
  }

  function Combine(w: Vocabulary, m: map<string, Json>, x: Json, u: Outcomes): Out {
    var here := Both(InPlace(m, u), Both(OnObject(w, m, x, u), OnArray(m, x, u)));
    Both(Out(Asserted(w, m, x), {}, {}), Both(here, Unevaluated(m, x, here, u)))
  }
}
