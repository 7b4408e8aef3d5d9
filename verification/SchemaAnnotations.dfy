/** Removing annotations from a tool schema, and when that preserves what the schema validates. */
module SchemaAnnotations {
  import opened Prelude
  import opened JsonSchema

  const ANNOTATIONS := {
    "description", "examples", "default", "title", "$comment", "deprecated", "readOnly", "writeOnly"}
  const SCHEMA_MAPS := {"properties", "patternProperties", "$defs", "definitions", "dependentSchemas"}
  const SCHEMA_CHILDREN := {
    "items", "additionalItems", "additionalProperties", "contains", "propertyNames", "not", "if", "then", "else",
    "unevaluatedItems", "unevaluatedProperties", "contentSchema"}
  const SCHEMA_LISTS := {"anyOf", "oneOf", "allOf", "prefixItems"}
  const OTHER_KEYWORDS := {
    "$schema", "$id", "$anchor", "$dynamicAnchor", "$ref", "$dynamicRef", "$vocabulary", "minContains", "maxContains"}
  const META_SCHEMA := "https://json-schema.org/draft/2020-12/schema"
  const INSPECTED := {"enum", "const", "pattern", "contentMediaType", "contentEncoding"}

  /** The wording checks of the application: which texts and which formats it lets through. */
  datatype Policy = Policy(allows: string -> bool, formats: set<string>)

  predicate IsKeyword(k: string) {
    k in SCHEMA_MAPS || k in SCHEMA_CHILDREN || k in SCHEMA_LISTS || k in ANNOTATIONS || k in OTHER_KEYWORDS || k in ASSERTIONS
  }

  /** How the value of a keyword is treated. */
  datatype Slot = Dropped | MapOfSchemas | OneSchema | ListOfSchemas | Verbatim

  function SlotOf(k: string, v: Json): Slot {
    if k in ANNOTATIONS then Dropped
    else if k in SCHEMA_MAPS && v.Obj? then MapOfSchemas
    else if k in SCHEMA_CHILDREN && (v.Obj? || v.Bool?) then OneSchema
    else if k in SCHEMA_LISTS && v.Arr? then ListOfSchemas
    else Verbatim
  }

  predicate LiteralAllowed(policy: Policy, v: Json) {
    match v
    case Str(s) => s == "" || policy.allows(s)
    case Obj(m) => forall k | k in m :: policy.allows(k) && LiteralAllowed(policy, m[k])
    case Arr(xs) => forall x | x in xs :: LiteralAllowed(policy, x)
    case _ => true
  }

  predicate KeyAllowed(policy: Policy, k: string, v: Json) {
    && IsKeyword(k) && k != "$vocabulary"
    && (k == "$schema" ==> v == Str(META_SCHEMA))
    && (k in INSPECTED ==> LiteralAllowed(policy, v))
    && (k == "format" ==> v.Str? && v.s in policy.formats)
  }

  /** The schemas the function returns a value for. */
  predicate Accepts(policy: Policy, s: Json)
    decreases s, 0
  {
    match s
    case Bool(_) => true
    case Obj(m) => (forall k | k in m :: EntryAccepted(policy, k, m[k]))
    case _ => false
  }

  predicate EntryAccepted(policy: Policy, k: string, v: Json)
    decreases v, 2
  {
    KeyAllowed(policy, k, v) && SlotAccepted(policy, k, v)
  }

  predicate SlotAccepted(policy: Policy, k: string, v: Json)
    decreases v, 1
  {
    match SlotOf(k, v)
    case MapOfSchemas => (forall n | n in v.fields :: Accepts(policy, v.fields[n]))
    case OneSchema => Accepts(policy, v)
    case ListOfSchemas => (forall c | c in v.items :: Accepts(policy, c))
    case _ => true
  }

  /** The schema without its annotations. */
  function Strip(s: Json): Json
    decreases s, 0
  {
    match s
    case Obj(m) => Obj(map k | k in m && SlotOf(k, m[k]) != Dropped :: StripSlot(k, m[k]))
    case _ => s
  }

  function StripSlot(k: string, v: Json): Json
    decreases v, 1
  {
    match SlotOf(k, v)
    case MapOfSchemas => StripMap(v)
    case OneSchema => Strip(v)
    case ListOfSchemas => StripList(v)
    case _ => v
  }

  function StripMap(v: Json): Json
    decreases v, 0
  {
    match v
    case Obj(m) => Obj(map n | n in m :: Strip(m[n]))
    case _ => v
  }

  function StripList(v: Json): Json
    decreases v, 0
  {
    match v
    case Arr(xs) => Arr(seq(|xs|, i requires 0 <= i < |xs| => Strip(xs[i])))
    case _ => v
  }

  // ---- What the result is, said of positions ----

  /** Keywords whose value maps names to schemas, holds one, or lists some. */
  predicate HoldsSchemaMap(k: string, v: Json) {
    v.Obj? && k in {"properties", "patternProperties", "$defs", "definitions", "dependentSchemas"}
  }

  predicate HoldsSchema(k: string, v: Json) {
    (v.Obj? || v.Bool?) && k in {
      "items", "additionalItems", "additionalProperties", "contains", "propertyNames", "not", "if", "then", "else",
      "unevaluatedItems", "unevaluatedProperties", "contentSchema"}
  }

  predicate HoldsSchemaList(k: string, v: Json) {
    v.Arr? && k in {"anyOf", "oneOf", "allOf", "prefixItems"}
  }

  predicate IsAnnotation(k: string) {
    k in {"description", "examples", "default", "title", "$comment", "deprecated", "readOnly", "writeOnly"}
  }

  /** No schema, here or anywhere below, has an annotation. */
  predicate Unannotated(s: Json)
    decreases s, 0
  {
    s.Obj? ==> forall k | k in s.fields :: !IsAnnotation(k) && UnannotatedBelow(k, s.fields[k])
  }

  predicate UnannotatedBelow(k: string, v: Json)
    decreases v, 1
  {
    && (HoldsSchemaMap(k, v) ==> forall n | n in v.fields :: Unannotated(v.fields[n]))
    && (HoldsSchema(k, v) ==> Unannotated(v))
    && (HoldsSchemaList(k, v) ==> forall c | c in v.items :: Unannotated(c))
  }

  /** The second schema is the first without its annotations: every other keyword is there, with the same value. */
  predicate WithoutThem(s: Json, t: Json)
    decreases s, 0
  {
    if s.Obj? then
      && t.Obj? && t.fields.Keys == (set k | k in s.fields && !IsAnnotation(k))
      && forall k | k in s.fields && k in t.fields :: SameBelow(k, s.fields[k], t.fields[k])
    else t == s
  }

  /** The values of a keyword: schemas in them lose their annotations, and nothing else changes. */
  predicate SameBelow(k: string, v: Json, w: Json)
    decreases v, 1
  {
    if HoldsSchemaMap(k, v) then
      w.Obj? && w.fields.Keys == v.fields.Keys && forall n | n in v.fields && n in w.fields :: WithoutThem(v.fields[n], w.fields[n])
    else if HoldsSchema(k, v) then WithoutThem(v, w)
    else if HoldsSchemaList(k, v) then
      w.Arr? && |w.items| == |v.items| && forall i | 0 <= i < |v.items| && i < |w.items| :: WithoutThem(v.items[i], w.items[i])
    else w == v
  }

  lemma SlotExactly(k: string, v: Json)
    ensures SlotOf(k, v) ==
            if IsAnnotation(k) then Dropped
            else if HoldsSchemaMap(k, v) then MapOfSchemas
            else if HoldsSchema(k, v) then OneSchema
            else if HoldsSchemaList(k, v) then ListOfSchemas
            else Verbatim
  {
  }

  /** No keyword is of two kinds. */
  lemma KindsAreDisjoint(k: string, v: Json)
    ensures IsAnnotation(k) ==> !HoldsSchemaMap(k, v) && !HoldsSchema(k, v) && !HoldsSchemaList(k, v)
    ensures HoldsSchemaMap(k, v) ==> !HoldsSchema(k, v) && !HoldsSchemaList(k, v)
    ensures HoldsSchema(k, v) ==> !HoldsSchemaList(k, v)
    ensures (HoldsSchemaMap(k, v) ==> v.Obj?) && (HoldsSchema(k, v) ==> v.Obj? || v.Bool?) && (HoldsSchemaList(k, v) ==> v.Arr?)
  {
  }

  lemma {:induction false} StripIsWithoutThem(s: Json)
    ensures WithoutThem(s, Strip(s))
    decreases s, 0
  {
    if s.Obj? {
      forall k | k in s.fields && k in Strip(s).fields ensures SameBelow(k, s.fields[k], Strip(s).fields[k]) {
        SlotIsSame(k, s.fields[k]);
      }
      forall k | k in s.fields ensures k in Strip(s).fields <==> !IsAnnotation(k) { SlotExactly(k, s.fields[k]); }
    }
  }

  lemma {:induction false} SlotIsSame(k: string, v: Json)
    ensures SameBelow(k, v, StripSlot(k, v)) || IsAnnotation(k)
    decreases v, 1
  {
    hide SlotOf, HoldsSchemaMap, HoldsSchema, HoldsSchemaList, IsAnnotation, WithoutThem, Strip;
    SlotExactly(k, v);
    KindsAreDisjoint(k, v);
    if HoldsSchemaMap(k, v) {
      forall n | n in v.fields ensures WithoutThem(v.fields[n], Strip(v.fields[n])) { StripIsWithoutThem(v.fields[n]); }
    } else if HoldsSchema(k, v) {
      StripIsWithoutThem(v);
    } else if HoldsSchemaList(k, v) {
      forall i | 0 <= i < |v.items| ensures WithoutThem(v.items[i], Strip(v.items[i])) { StripIsWithoutThem(v.items[i]); }
    }
  }

  lemma {:induction false} WithoutThemIsUnannotated(s: Json, t: Json)
    requires WithoutThem(s, t)
    ensures Unannotated(t)
    decreases s, 0
  {
    if s.Obj? {
      forall k | k in t.fields ensures UnannotatedBelow(k, t.fields[k]) { SameIsUnannotatedBelow(k, s.fields[k], t.fields[k]); }
    }
  }

  lemma {:induction false} SameIsUnannotatedBelow(k: string, v: Json, w: Json)
    requires SameBelow(k, v, w)
    ensures UnannotatedBelow(k, w)
    decreases v, 1
  {
    if HoldsSchemaMap(k, v) {
      forall n | n in w.fields ensures Unannotated(w.fields[n]) { WithoutThemIsUnannotated(v.fields[n], w.fields[n]); }
    } else if HoldsSchema(k, v) {
      WithoutThemIsUnannotated(v, w);
    } else if HoldsSchemaList(k, v) {
      forall i | 0 <= i < |w.items| ensures Unannotated(w.items[i]) { WithoutThemIsUnannotated(v.items[i], w.items[i]); }
    }
  }

  /** After stripping no annotation is left at any schema position, and everything else is still there. */
  lemma StrippedIsUnannotated(s: Json)
    ensures Unannotated(Strip(s)) && WithoutThem(s, Strip(s))
  {
    StripIsWithoutThem(s);
    WithoutThemIsUnannotated(s, Strip(s));
  }

  // ---- Which schemas are accepted, said of positions ----

  /** The texts and keys anywhere inside a literal. */
  function Texts(v: Json): set<string> {
    match v
    case Str(s) => if s == "" then {} else {s}
    case Obj(m) => m.Keys + set k, t | k in m && t in Texts(m[k]) :: t
    case Arr(xs) => set x, t | x in xs && t in Texts(x) :: t
    case _ => {}
  }

  /** A keyword of the dialect other than `$vocabulary`, with a value of which the wording may go out. */
  predicate KeywordFits(policy: Policy, k: string, v: Json) {
    && (IsAnnotation(k) || k in {
      "properties", "patternProperties", "$defs", "definitions", "dependentSchemas", "items", "additionalItems",
      "additionalProperties", "contains", "propertyNames", "not", "if", "then", "else", "unevaluatedItems",
      "unevaluatedProperties", "contentSchema", "anyOf", "oneOf", "allOf", "prefixItems", "$schema", "$id", "$anchor",
      "$dynamicAnchor", "$ref", "$dynamicRef", "type", "enum", "const", "required", "dependentRequired", "minProperties",
      "maxProperties", "minItems", "maxItems", "minContains", "maxContains", "uniqueItems", "format", "pattern",
      "contentMediaType", "contentEncoding", "minLength", "maxLength", "minimum", "maximum", "exclusiveMinimum",
      "exclusiveMaximum", "multipleOf"})
    && (k == "$schema" ==> v == Str("https://json-schema.org/draft/2020-12/schema"))
    && (k in {"enum", "const", "pattern", "contentMediaType", "contentEncoding"} ==>
          forall t | t in Texts(v) :: policy.allows(t))
    && (k == "format" ==> v.Str? && v.s in policy.formats)
  }

  /** Truth values, and objects whose keywords fit; so are the schemas below, except under annotations. */
  predicate Fits(policy: Policy, s: Json)
    decreases s, 0
  {
    s.Bool? || (s.Obj? && forall k | k in s.fields :: KeywordFits(policy, k, s.fields[k]) && FitsBelow(policy, k, s.fields[k]))
  }

  predicate FitsBelow(policy: Policy, k: string, v: Json)
    decreases v, 1
  {
    && (HoldsSchemaMap(k, v) ==> forall n | n in v.fields :: Fits(policy, v.fields[n]))
    && (HoldsSchema(k, v) ==> Fits(policy, v))
    && (HoldsSchemaList(k, v) ==> forall c | c in v.items :: Fits(policy, c))
  }

  lemma {:induction false} LiteralTexts(policy: Policy, v: Json)
    ensures LiteralAllowed(policy, v) <==> forall t | t in Texts(v) :: policy.allows(t)
    decreases v
  {
    match v
    case Obj(m) =>
      forall k | k in m ensures LiteralAllowed(policy, m[k]) <==> forall t | t in Texts(m[k]) :: policy.allows(t) {
        LiteralTexts(policy, m[k]);
      }
      assert forall k, t | k in m && t in Texts(m[k]) :: t in Texts(v);
    case Arr(xs) =>
      forall x | x in xs ensures LiteralAllowed(policy, x) <==> forall t | t in Texts(x) :: policy.allows(t) {
        LiteralTexts(policy, x);
      }
      assert forall x, t | x in xs && t in Texts(x) :: t in Texts(v);
    case _ =>
  }

  lemma KeyExact(policy: Policy, k: string, v: Json)
    ensures KeyAllowed(policy, k, v) <==> KeywordFits(policy, k, v)
  {
    LiteralTexts(policy, v);
  }

  /** The schemas that are accepted are exactly those. */
  lemma {:induction false} AcceptedExactly(policy: Policy, s: Json)
    ensures Accepts(policy, s) <==> Fits(policy, s)
    decreases s, 0
  {
    if s.Obj? {
      forall k | k in s.fields
        ensures EntryAccepted(policy, k, s.fields[k]) <==>
                KeywordFits(policy, k, s.fields[k]) && FitsBelow(policy, k, s.fields[k])
      {
        KeyExact(policy, k, s.fields[k]);
        SlotExact(policy, k, s.fields[k]);
      }
    }
  }

  lemma {:induction false} SlotExact(policy: Policy, k: string, v: Json)
    ensures SlotAccepted(policy, k, v) <==> FitsBelow(policy, k, v)
    decreases v, 1
  {
    hide SlotOf, HoldsSchemaMap, HoldsSchema, HoldsSchemaList, IsAnnotation, Accepts, Fits;
    SlotExactly(k, v);
    KindsAreDisjoint(k, v);
    if HoldsSchemaMap(k, v) {
      forall n | n in v.fields ensures Accepts(policy, v.fields[n]) <==> Fits(policy, v.fields[n]) {
        AcceptedExactly(policy, v.fields[n]);
      }
    } else if HoldsSchema(k, v) {
      AcceptedExactly(policy, v);
    } else if HoldsSchemaList(k, v) {
      forall c | c in v.items ensures Accepts(policy, c) <==> Fits(policy, c) { AcceptedExactly(policy, c); }
    }
  }

  /** The cleaned keywords among `ks`. */
  function Kept(m: map<string, Json>, ks: set<string>): map<string, Json> {
    map k | k in m && k in ks && SlotOf(k, m[k]) != Dropped :: StripSlot(k, m[k])
  }

  lemma KeptNone(m: map<string, Json>)
    ensures Kept(m, {}) == map[]
  {
  }

  lemma KeptNext(m: map<string, Json>, ks: set<string>, k: string)
    requires k in m
    ensures Kept(m, ks + {k}) ==
            if SlotOf(k, m[k]) == Dropped then Kept(m, ks) else Kept(m, ks)[k := StripSlot(k, m[k])]
  {
  }

  lemma KeptAll(m: map<string, Json>)
    ensures Strip(Obj(m)) == Obj(Kept(m, m.Keys))
  {
  }

  /** Recursive, filling a fresh dictionary keyword by keyword. */
  method WithoutAnnotations(policy: Policy, schema: Json) returns (r: Result<Json>)
    ensures r.Success? <==> Accepts(policy, schema)
    ensures r.Success? ==> r.value == Strip(schema)
    decreases schema, 1
  {
    match schema
    case Bool(_) => return Success(schema);
    case Obj(m) =>
      hide Kept, Strip, StripSlot, EntryAccepted, SlotOf;
      var clean: map<string, Json> := map[];
      var left := m.Keys;
      ghost var done := {};
      KeptNone(m);
      while left != {}
        invariant left + done == m.Keys
        invariant clean == Kept(m, done)
        invariant forall k | k in done :: EntryAccepted(policy, k, m[k])
        decreases |left|
      {
        var k :| k in left;
        KeptNext(m, done, k);
        left, done := left - {k}, done + {k};
        var kept := WithoutAnnotationsEntry(policy, k, m[k]);
        if kept.Failure? { return Failure; }
        if kept.value.Some? { clean := clean[k := kept.value.value]; }
      }
      KeptAll(m);
      return Success(Obj(clean));
    case _ => return Failure;
  }

  /** One keyword: rejected, dropped (None), or kept with its cleaned value. */
  method WithoutAnnotationsEntry(policy: Policy, k: string, v: Json) returns (r: Result<Option<Json>>)
    ensures r.Success? <==> EntryAccepted(policy, k, v)
    ensures r.Success? ==> r.value == if SlotOf(k, v) == Dropped then None else Some(StripSlot(k, v))
    decreases v, 2
  {
    if !KeyAllowed(policy, k, v) { return Failure; }
    var kept := Success(v);
    match SlotOf(k, v) {
      case Dropped => return Success(None);
      case MapOfSchemas => kept := WithoutAnnotationsMap(policy, v);
      case OneSchema => kept := WithoutAnnotations(policy, v);
      case ListOfSchemas => kept := WithoutAnnotationsList(policy, v);
      case Verbatim =>
    }
    return if kept.Failure? then Failure else Success(Some(kept.value));
  }

  method WithoutAnnotationsMap(policy: Policy, v: Json) returns (r: Result<Json>)
    requires v.Obj?
    ensures r.Success? <==> forall n | n in v.fields :: Accepts(policy, v.fields[n])
    ensures r.Success? ==> r.value == StripMap(v)
    decreases v, 0
  {
    var clean: map<string, Json> := map[];
    var left := v.fields.Keys;
    while left != {}
      invariant left <= v.fields.Keys
      invariant clean == map n | n in v.fields.Keys - left :: Strip(v.fields[n])
      invariant forall n | n in v.fields.Keys - left :: Accepts(policy, v.fields[n])
      decreases |left|
    {
      var n :| n in left;
      left := left - {n};
      var child := WithoutAnnotations(policy, v.fields[n]);
      if child.Failure? { return Failure; }
      clean := clean[n := child.value];
    }
    return Success(Obj(clean));
  }

  method WithoutAnnotationsList(policy: Policy, v: Json) returns (r: Result<Json>)
    requires v.Arr?
    ensures r.Success? <==> forall c | c in v.items :: Accepts(policy, c)
    ensures r.Success? ==> r.value == StripList(v)
    decreases v, 0
  {
    var clean: seq<Json> := [];
    for i := 0 to |v.items|
      invariant |clean| == i && forall n | 0 <= n < i :: clean[n] == Strip(v.items[n]) && Accepts(policy, v.items[n])
    {
      var child := WithoutAnnotations(policy, v.items[i]);
      if child.Failure? { return Failure; }
      clean := clean + [child.value];
    }
    return Success(Arr(clean));
  }
}
