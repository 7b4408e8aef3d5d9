/**
 * Stripping annotations preserves what a schema validates, provided its references land on schemas, or on data and
 * keyword maps that stripping leaves alone and whose own references land.
 */
module SchemaMeaning {
  import opened Prelude
  import opened JsonSchema
  import opened SchemaAnnotations

  // ---- Where a path through a schema document leads ----

  datatype Kind = AtSchema | AtMap | AtList | AtLiteral | AtDropped
  datatype Place = Place(value: Json, kind: Kind)

  function SlotKind(slot: Slot): Kind {
    match slot
    case Dropped => AtDropped
    case MapOfSchemas => AtMap
    case OneSchema => AtSchema
    case ListOfSchemas => AtList
    case Verbatim => AtLiteral
  }

  function FieldKind(kind: Kind, k: string, v: Json): Kind {
    match kind
    case AtSchema => SlotKind(SlotOf(k, v))
    case AtMap => AtSchema
    case AtList => AtLiteral
    case _ => kind
  }

  function ItemKind(kind: Kind): Kind {
    match kind
    case AtList => AtSchema
    case AtDropped => AtDropped
    case _ => AtLiteral
  }

  function Walk(w: Vocabulary, p: Place, path: seq<string>): Option<Place>
    decreases path
  {
    if path == [] then Some(p)
    else match p.value
      case Obj(m) =>
        if path[0] in m then Walk(w, Place(m[path[0]], FieldKind(p.kind, path[0], m[path[0]])), path[1..]) else None
      case Arr(xs) =>
        (match w.index(path[0], |xs|)
         case Some(i) => if i < |xs| then Walk(w, Place(xs[i], ItemKind(p.kind)), path[1..]) else None
         case None => None)
      case _ => None
  }

  /** What a place holds once annotations are gone. */
  function Image(p: Place): Json {
    match p.kind
    case AtSchema => Strip(p.value)
    case AtMap => StripMap(p.value)
    case AtList => StripList(p.value)
    case _ => p.value
  }

  /**
   * A path lands on a schema, on a list (which is none, before and after), or on one of the values `kept`: data that is
   * copied, or a keyword map that stripping leaves as it is.
   */
  ghost predicate Lands(w: Vocabulary, root: Json, kept: set<Json>, path: seq<string>) {
    match Walk(w, Place(root, AtSchema), path)
    case None => true
    case Some(q) => PlaceKept(kept, q) && q.kind != AtDropped
  }

  ghost predicate PlaceKept(kept: set<Json>, q: Place) {
    match q.kind
    case AtMap => q.value in kept && StripMap(q.value) == q.value
    case AtLiteral => q.value in kept
    case _ => true
  }

  /** Every reference in the schemas of `s` lands. */
  ghost predicate RefsLand(w: Vocabulary, root: Json, kept: set<Json>, s: Json)
    decreases s, 0
  {
    match s
    case Obj(m) => (forall k | k in m :: EntryLands(w, root, kept, k, m[k]))
    case _ => true
  }

  ghost predicate EntryLands(w: Vocabulary, root: Json, kept: set<Json>, k: string, v: Json)
    decreases v, 1
  {
    && (k in REFERENCES && v.Str? && w.locate(v.s).Some? ==> Lands(w, root, kept, w.locate(v.s).value))
    && match SlotOf(k, v)
       case MapOfSchemas => (forall n | n in v.fields :: RefsLand(w, root, kept, v.fields[n]))
       case OneSchema => RefsLand(w, root, kept, v)
       case ListOfSchemas => (forall c | c in v.items :: RefsLand(w, root, kept, c))
       case _ => true
  }

  /** So does every reference in the values kept, read as schemas. */
  ghost predicate KeptLand(w: Vocabulary, root: Json, kept: set<Json>) {
    forall v | v in kept :: RefsLand(w, root, kept, v)
  }

  ghost predicate PlaceLands(w: Vocabulary, root: Json, kept: set<Json>, p: Place) {
    match p.kind
    case AtSchema => RefsLand(w, root, kept, p.value)
    case AtMap => p.value.Obj? && forall n | n in p.value.fields :: RefsLand(w, root, kept, p.value.fields[n])
    case AtList => p.value.Arr? && forall c | c in p.value.items :: RefsLand(w, root, kept, c)
    case _ => true
  }

  lemma {:induction false} WalkLands(w: Vocabulary, root: Json, kept: set<Json>, p: Place, path: seq<string>)
    requires PlaceLands(w, root, kept, p) && Walk(w, p, path).Some?
    ensures PlaceLands(w, root, kept, Walk(w, p, path).value)
    decreases path
  {
    if path != [] {
      match p.value
      case Obj(m) =>
        var k := path[0];
        if p.kind == AtSchema { assert EntryLands(w, root, kept, k, m[k]); }
        WalkLands(w, root, kept, Place(m[k], FieldKind(p.kind, k, m[k])), path[1..]);
      case Arr(xs) =>
        WalkLands(w, root, kept, Place(xs[w.index(path[0], |xs|).value], ItemKind(p.kind)), path[1..]);
      case _ =>
    }
  }

  lemma {:induction false} DroppedStays(w: Vocabulary, v: Json, path: seq<string>)
    ensures var q := Walk(w, Place(v, AtDropped), path); q.Some? ==> q.value.kind == AtDropped
    decreases path
  {
    if path != [] {
      match v
      case Obj(m) => if path[0] in m { DroppedStays(w, m[path[0]], path[1..]); }
      case Arr(xs) =>
        var i := w.index(path[0], |xs|);
        if i.Some? && i.value < |xs| { DroppedStays(w, xs[i.value], path[1..]); }
      case _ =>
    }
  }

  lemma ImageField(p: Place, k: string)
    requires p.value.Obj? && k in p.value.fields && (p.kind == AtMap ==> p.value.Obj?) && p.kind != AtList
    requires FieldKind(p.kind, k, p.value.fields[k]) != AtDropped
    ensures Image(p).Obj? && k in Image(p).fields
    ensures Image(p).fields[k] == Image(Place(p.value.fields[k], FieldKind(p.kind, k, p.value.fields[k])))
  {
    var v := p.value.fields[k];
    if p.kind == AtSchema {
      assert Strip(p.value).fields[k] == StripSlot(k, v);
      assert StripSlot(k, v) == Image(Place(v, SlotKind(SlotOf(k, v))));
    }
  }

  /** Stripping neither moves nor changes what a path leads to, other than by stripping it. */
  lemma {:induction false} WalkImage(w: Vocabulary, p: Place, path: seq<string>)
    requires p.kind != AtDropped && (p.kind == AtMap ==> p.value.Obj?) && (p.kind == AtList ==> p.value.Arr?)
    ensures var q := Walk(w, p, path);
            Resolve(w, Image(p), path) == if q.Some? && q.value.kind != AtDropped then Some(Image(q.value)) else None
    decreases path
  {
    if path != [] {
      match p.value
      case Obj(m) =>
        var k := path[0];
        if k in m {
          if FieldKind(p.kind, k, m[k]) == AtDropped {
            DroppedStays(w, m[k], path[1..]);
          } else {
            var child := Place(m[k], FieldKind(p.kind, k, m[k]));
            ImageField(p, k);
            WalkImage(w, child, path[1..]);
          }
        }
      case Arr(xs) =>
        var i := w.index(path[0], |xs|);
        if i.Some? && i.value < |xs| { WalkImage(w, Place(xs[i.value], ItemKind(p.kind)), path[1..]); }
      case _ =>
    }
  }

  // ---- Evaluation before and after ----

  function After(verbatim: bool, s: Json): Json {
    if verbatim then s else Strip(s)
  }

  /** The keyword tables do not overlap, so each keyword is treated in one way. */
  lemma ChildrenApart(k: string)
    requires k in SCHEMA_CHILDREN
    ensures k !in ANNOTATIONS && k !in SCHEMA_MAPS
  {
  }

  lemma MapsApart(k: string)
    requires k in SCHEMA_MAPS
    ensures k !in ANNOTATIONS
  {
  }

  lemma ListsApart(k: string)
    requires k in SCHEMA_LISTS
    ensures k !in ANNOTATIONS && k !in SCHEMA_MAPS && k !in SCHEMA_CHILDREN
  {
  }

  lemma ValuesApart(k: string)
    requires k in ASSERTIONS || k in REFERENCES || k == "minContains" || k == "maxContains"
    ensures k !in ANNOTATIONS && k !in SCHEMA_MAPS && k !in SCHEMA_CHILDREN && k !in SCHEMA_LISTS
  {
  }

  /** Two schema objects seen through two evaluators: the same keyword leads to equal outcomes. */
  datatype Mirror = Mirror(m: map<string, Json>, m': map<string, Json>, ev: Evaluator, ev': Evaluator)
  {
    ghost predicate Child(k: string) {
      (HasChild(m', k) <==> HasChild(m, k)) && (HasChild(m, k) ==> forall y :: ev'(m'[k], y) == ev(m[k], y))
    }

    ghost predicate Map(k: string) {
      && MapAt(m', k).Keys == MapAt(m, k).Keys
      && forall n, y | n in MapAt(m, k) :: ev'(MapAt(m', k)[n], y) == ev(MapAt(m, k)[n], y)
    }

    ghost predicate List(k: string) {
      && (k in m' <==> k in m) && |ListAt(m', k)| == |ListAt(m, k)|
      && forall i, y | 0 <= i < |ListAt(m, k)| :: ev'(ListAt(m', k)[i], y) == ev(ListAt(m, k)[i], y)
    }

    ghost predicate Value(k: string) {
      (k in m' <==> k in m) && (k in m ==> m'[k] == m[k])
    }

    ghost predicate Valid() {
      && Child("not") && Child("if") && Child("then") && Child("else")
      && Child("additionalProperties") && Child("propertyNames") && Child("unevaluatedProperties")
      && Child("items") && Child("contains") && Child("unevaluatedItems")
      && Map("properties") && Map("patternProperties") && Map("dependentSchemas")
      && List("allOf") && List("anyOf") && List("oneOf") && List("prefixItems")
      && Value("$ref") && Value("$dynamicRef") && Value("minContains") && Value("maxContains")
      && forall k | k in ASSERTIONS :: Value(k)
    }
  }

  lemma {:induction false} SamePoll(ss: seq<Json>, ss': seq<Json>, x: Json, ev: Evaluator, ev': Evaluator)
    requires |ss'| == |ss| && forall i | 0 <= i < |ss| :: ev'(ss'[i], x) == ev(ss[i], x)
    ensures Poll(ss', x, ev') == Poll(ss, x, ev)
  {
    if ss != [] { SamePoll(ss[1..], ss'[1..], x, ev, ev'); }
  }

  lemma SamePolls(g: Mirror, x: Json)
    requires g.Valid()
    ensures forall k | k in ["allOf", "anyOf", "oneOf"] :: Poll(ListAt(g.m', k), x, g.ev') == Poll(ListAt(g.m, k), x, g.ev)
  {
    SamePoll(ListAt(g.m, "allOf"), ListAt(g.m', "allOf"), x, g.ev, g.ev');
    SamePoll(ListAt(g.m, "anyOf"), ListAt(g.m', "anyOf"), x, g.ev, g.ev');
    SamePoll(ListAt(g.m, "oneOf"), ListAt(g.m', "oneOf"), x, g.ev, g.ev');
  }

  lemma SameDependents(g: Mirror, x: Json)
    requires g.Map("dependentSchemas")
    ensures OnDependents(g.m', x, g.ev') == OnDependents(g.m, x, g.ev)
  {
  }

  lemma SameDeclared(g: Mirror, x: Json)
    requires g.Map("properties")
    ensures OnDeclared(g.m', x, g.ev') == OnDeclared(g.m, x, g.ev)
  {
  }

  lemma SamePatterns(w: Vocabulary, g: Mirror, x: Json)
    requires g.Map("patternProperties")
    ensures OnPatterns(w, g.m', x, g.ev') == OnPatterns(w, g.m, x, g.ev)
  {
  }

  lemma SamePrefix(g: Mirror, x: Json)
    requires g.List("prefixItems")
    ensures OnPrefix(g.m', x, g.ev') == OnPrefix(g.m, x, g.ev)
  {
  }

  lemma SameMembers(g: Mirror, k: string, x: Json)
    requires g.Child(k)
    ensures OnSelf(g.m', k, x, g.ev') == OnSelf(g.m, k, x, g.ev)
    ensures OnMembers(g.m', k, x, g.ev') == OnMembers(g.m, k, x, g.ev)
    ensures OnElements(g.m', k, x, g.ev') == OnElements(g.m, k, x, g.ev)
    ensures k == "propertyNames" ==> OnNames(g.m', x, g.ev') == OnNames(g.m, x, g.ev)
  {
  }

  /** All subschemas have the same outcomes. */
  lemma SameOutcomes(w: Vocabulary, g: Mirror, x: Json, follow: Evaluator, follow': Evaluator)
    requires g.Valid()
    requires forall k | k in REFERENCES && k in g.m :: follow'(g.m[k], x) == follow(g.m[k], x)
    ensures Apply(w, g.m', x, g.ev', follow') == Apply(w, g.m, x, g.ev, follow)
  {
    SamePolls(g, x);
    SameDependents(g, x);
    SameDeclared(g, x);
    SamePatterns(w, g, x);
    SamePrefix(g, x);
    SameMembers(g, "not", x);
    SameMembers(g, "if", x);
    SameMembers(g, "then", x);
    SameMembers(g, "else", x);
    SameMembers(g, "additionalProperties", x);
    SameMembers(g, "propertyNames", x);
    SameMembers(g, "unevaluatedProperties", x);
    SameMembers(g, "items", x);
    SameMembers(g, "contains", x);
    SameMembers(g, "unevaluatedItems", x);
    assert "allOf" in ["allOf", "anyOf", "oneOf"] && "anyOf" in ["allOf", "anyOf", "oneOf"] && "oneOf" in ["allOf", "anyOf", "oneOf"];
  }

  lemma SameOnObject(w: Vocabulary, g: Mirror, x: Json, u: Outcomes)
    requires g.Map("properties") && g.Map("patternProperties") && g.Child("additionalProperties")
    ensures OnObject(w, g.m', x, u) == OnObject(w, g.m, x, u)
  {
    assert forall n :: IsAdditional(w, g.m', n) == IsAdditional(w, g.m, n);
  }

  lemma SameOnArray(g: Mirror, x: Json, u: Outcomes)
    requires g.List("prefixItems") && g.Child("items") && g.Child("contains") && g.Value("minContains") && g.Value("maxContains")
    ensures OnArray(g.m', x, u) == OnArray(g.m, x, u)
  {
  }

  lemma SameAsserted(w: Vocabulary, g: Mirror, x: Json)
    requires forall k | k in ASSERTIONS :: g.Value(k)
    ensures Asserted(w, g.m', x) == Asserted(w, g.m, x)
  {
    assert forall k | k in ASSERTIONS :: g.Value(k);
  }

  /** What combining looks at besides the outcomes is the same. */
  lemma SameCombination(w: Vocabulary, g: Mirror, x: Json, u: Outcomes)
    requires g.Valid()
    ensures Combine(w, g.m', x, u) == Combine(w, g.m, x, u)
  {
    assert InPlace(g.m', u) == InPlace(g.m, u);
    SameOnObject(w, g, x, u);
    SameOnArray(g, x, u);
    SameAsserted(w, g, x);
  }

  // ---- Stripping gives such a mirror ----

  lemma SameChild(verbatim: bool, s: Json, k: string)
    requires s.Obj? && k in SCHEMA_CHILDREN
    ensures HasChild(After(verbatim, s).fields, k) == HasChild(s.fields, k)
    ensures HasChild(s.fields, k) ==> After(verbatim, s).fields[k] == After(verbatim, s.fields[k])
  {
    ChildrenApart(k);
    if !verbatim && k in s.fields { assert StripSlot(k, s.fields[k]).Obj? || StripSlot(k, s.fields[k]).Bool? <==> HasChild(s.fields, k); }
  }

  lemma SameMap(verbatim: bool, s: Json, k: string)
    requires s.Obj? && k in SCHEMA_MAPS
    ensures var d, d' := MapAt(s.fields, k), MapAt(After(verbatim, s).fields, k);
            d'.Keys == d.Keys && forall n | n in d :: d'[n] == After(verbatim, d[n])
  {
    MapsApart(k);
    if !verbatim && k in s.fields { assert StripSlot(k, s.fields[k]) == StripMap(s.fields[k]); }
  }

  lemma SameList(verbatim: bool, s: Json, k: string)
    requires s.Obj? && k in SCHEMA_LISTS
    ensures var m, m' := s.fields, After(verbatim, s).fields;
            && (k in m' <==> k in m) && |ListAt(m', k)| == |ListAt(m, k)|
            && forall i | 0 <= i < |ListAt(m, k)| :: ListAt(m', k)[i] == After(verbatim, ListAt(m, k)[i])
  {
    ListsApart(k);
    if !verbatim && k in s.fields { assert StripSlot(k, s.fields[k]) == StripList(s.fields[k]); }
  }

  lemma SameValue(verbatim: bool, s: Json, k: string)
    requires s.Obj? && (k in ASSERTIONS || k in REFERENCES || k == "minContains" || k == "maxContains")
    ensures k in After(verbatim, s).fields <==> k in s.fields
    ensures k in s.fields ==> After(verbatim, s).fields[k] == s.fields[k]
  {
    ValuesApart(k);
    if !verbatim && k in s.fields { assert StripSlot(k, s.fields[k]) == s.fields[k]; }
  }

  /** Schema `c` gives every instance the same verdict and annotations in both documents. */
  ghost predicate Agree(w: Vocabulary, root: Json, verbatim: bool, c: Json, fuel: nat) {
    forall x :: Eval(w, Strip(root), After(verbatim, c), x, fuel) == Eval(w, root, c, x, fuel)
  }

  ghost function MirrorOf(w: Vocabulary, root: Json, verbatim: bool, s: Json, fuel: nat): Mirror
    requires s.Obj?
  {
    Mirror(s.fields, After(verbatim, s).fields, Below(w, root, s, fuel), Below(w, Strip(root), After(verbatim, s), fuel))
  }

  /** A proper part that agrees gets the same outcome from both evaluators. */
  lemma MirrorApplies(w: Vocabulary, root: Json, verbatim: bool, s: Json, c: Json, y: Json, fuel: nat)
    requires s.Obj? && c < s && After(verbatim, c) < After(verbatim, s) && Agree(w, root, verbatim, c, fuel)
    ensures var g := MirrorOf(w, root, verbatim, s, fuel); g.ev'(After(verbatim, c), y) == g.ev(c, y)
  {
    assert Eval(w, Strip(root), After(verbatim, c), y, fuel) == Eval(w, root, c, y, fuel);
  }

  lemma ChildMirrored(w: Vocabulary, root: Json, verbatim: bool, s: Json, k: string, fuel: nat)
    requires s.Obj? && k in SCHEMA_CHILDREN && (HasChild(s.fields, k) ==> Agree(w, root, verbatim, s.fields[k], fuel))
    ensures MirrorOf(w, root, verbatim, s, fuel).Child(k)
  {
    SameChild(verbatim, s, k);
    if HasChild(s.fields, k) {
      forall y { MirrorApplies(w, root, verbatim, s, s.fields[k], y, fuel); }
    }
  }

  lemma MapMirrored(w: Vocabulary, root: Json, verbatim: bool, s: Json, k: string, fuel: nat)
    requires s.Obj? && k in SCHEMA_MAPS
    requires forall n | n in MapAt(s.fields, k) :: Agree(w, root, verbatim, MapAt(s.fields, k)[n], fuel)
    ensures MirrorOf(w, root, verbatim, s, fuel).Map(k)
  {
    SameMap(verbatim, s, k);
    var g := MirrorOf(w, root, verbatim, s, fuel);
    var d, d' := MapAt(g.m, k), MapAt(g.m', k);
    forall n, y | n in d ensures g.ev'(d'[n], y) == g.ev(d[n], y) {
      assert d[n] < g.m[k] < s && d'[n] < g.m'[k] < After(verbatim, s);
      MirrorApplies(w, root, verbatim, s, d[n], y, fuel);
    }
  }

  lemma ListMirrored(w: Vocabulary, root: Json, verbatim: bool, s: Json, k: string, fuel: nat)
    requires s.Obj? && k in SCHEMA_LISTS
    requires forall c | c in ListAt(s.fields, k) :: Agree(w, root, verbatim, c, fuel)
    ensures MirrorOf(w, root, verbatim, s, fuel).List(k)
  {
    SameList(verbatim, s, k);
    var g := MirrorOf(w, root, verbatim, s, fuel);
    var d, d' := ListAt(g.m, k), ListAt(g.m', k);
    forall i, y | 0 <= i < |d| ensures g.ev'(d'[i], y) == g.ev(d[i], y) {
      assert d[i] < g.m[k] < s && d'[i] < g.m'[k] < After(verbatim, s);
      assert d[i] in d;
      MirrorApplies(w, root, verbatim, s, d[i], y, fuel);
    }
  }

  lemma MirrorValid(g: Mirror)
    requires forall k | k in SCHEMA_CHILDREN :: g.Child(k)
    requires forall k | k in SCHEMA_MAPS :: g.Map(k)
    requires forall k | k in SCHEMA_LISTS :: g.List(k)
    requires forall k | k in ASSERTIONS || k in REFERENCES || k == "minContains" || k == "maxContains" :: g.Value(k)
    ensures g.Valid()
  {
  }

  /** One object, once everything below it and every reference in it agrees. */
  lemma ObjectAgrees(w: Vocabulary, root: Json, verbatim: bool, s: Json, x: Json, fuel: nat)
    requires s.Obj? && MirrorOf(w, root, verbatim, s, fuel).Valid()
    requires forall k | k in REFERENCES && k in s.fields :: Follow(w, Strip(root), s.fields[k], x, fuel) == Follow(w, root, s.fields[k], x, fuel)
    ensures Eval(w, Strip(root), After(verbatim, s), x, fuel) == Eval(w, root, s, x, fuel)
  {
    hide Combine, Apply, Follow, Mirror.Valid;
    var g := MirrorOf(w, root, verbatim, s, fuel);
    var follow, follow' := (v, y) => Follow(w, root, v, y, fuel), (v, y) => Follow(w, Strip(root), v, y, fuel);
    SameOutcomes(w, g, x, follow, follow');
    SameCombination(w, g, x, Apply(w, g.m, x, g.ev, follow));
  }

  /** `t'` is what became of the schema `t` a reference leads to. */
  ghost predicate Landed(w: Vocabulary, root: Json, kept: set<Json>, verbatim: bool, t: Json, t': Json) {
    RefsLand(w, root, kept, t) && t' == After(verbatim, t)
  }

  /** What a landing reference leads to, before and after: no schema at all, or a schema and its image. */
  lemma LandedTarget(w: Vocabulary, root: Json, kept: set<Json>, path: seq<string>)
    requires RefsLand(w, root, kept, root) && KeptLand(w, root, kept) && Lands(w, root, kept, path)
    ensures var t, t' := Resolve(w, root, path), Resolve(w, Strip(root), path);
            && (t.None? <==> t'.None?)
            && (t.Some? ==> (t.value.Arr? && t'.value.Arr?)
                            || exists verbatim :: Landed(w, root, kept, verbatim, t.value, t'.value))
  {
    var start := Place(root, AtSchema);
    WalkImage(w, start, path);
    RawWalk(w, start, path);
    var q := Walk(w, start, path);
    if q.Some? {
      WalkLands(w, root, kept, start, path);
      if q.value.kind == AtSchema { assert Landed(w, root, kept, false, q.value.value, Image(q.value)); }
      if q.value.kind == AtLiteral || q.value.kind == AtMap {
        assert Landed(w, root, kept, true, q.value.value, Image(q.value));
      }
    }
  }

  lemma ArrayFails(w: Vocabulary, root: Json, s: Json, x: Json, fuel: nat)
    requires s.Arr?
    ensures Eval(w, root, s, x, fuel) == FAIL
  {
  }

  /** A reference is followed to the same place in both documents. */
  lemma {:induction false} FollowAgrees(w: Vocabulary, root: Json, kept: set<Json>, v: Json, x: Json, fuel: nat)
    requires RefsLand(w, root, kept, root) && KeptLand(w, root, kept)
    requires v.Str? && w.locate(v.s).Some? ==> Lands(w, root, kept, w.locate(v.s).value)
    ensures Follow(w, Strip(root), v, x, fuel) == Follow(w, root, v, x, fuel)
    decreases 2 * fuel
  {
    hide RefsLand, KeptLand, Lands, Eval, After, Strip, Resolve;
    if v.Str? && fuel > 0 && w.locate(v.s).Some? {
      var path := w.locate(v.s).value;
      LandedTarget(w, root, kept, path);
      var t, t' := Resolve(w, root, path), Resolve(w, Strip(root), path);
      if t.Some? {
        if verbatim :| Landed(w, root, kept, verbatim, t.value, t'.value) {
          EvalAgrees(w, root, kept, verbatim, t.value, fuel - 1);
        } else {
          ArrayFails(w, root, t.value, x, fuel - 1);
          ArrayFails(w, Strip(root), t'.value, x, fuel - 1);
        }
      }
    }
  }

  lemma {:induction false} RawWalk(w: Vocabulary, p: Place, path: seq<string>)
    ensures Resolve(w, p.value, path) == match Walk(w, p, path) case None => None case Some(q) => Some(q.value)
    decreases path
  {
    if path != [] {
      match p.value
      case Obj(m) => if path[0] in m { RawWalk(w, Place(m[path[0]], FieldKind(p.kind, path[0], m[path[0]])), path[1..]); }
      case Arr(xs) =>
        var i := w.index(path[0], |xs|);
        if i.Some? && i.value < |xs| { RawWalk(w, Place(xs[i.value], ItemKind(p.kind)), path[1..]); }
      case _ =>
    }
  }

  lemma {:induction false} EvalAgrees(w: Vocabulary, root: Json, kept: set<Json>, verbatim: bool, s: Json, fuel: nat)
    requires RefsLand(w, root, kept, root) && KeptLand(w, root, kept) && RefsLand(w, root, kept, s)
    ensures Agree(w, root, verbatim, s, fuel)
    decreases 2 * fuel + 1, s
  {
    if s.Obj? {
      hide Eval, Follow, RefsLand, KeptLand, Lands, Strip, After, MirrorOf, Mirror.Child, Mirror.Map, Mirror.List, Mirror.Value;
      var m, g := s.fields, MirrorOf(w, root, verbatim, s, fuel);
      forall k | k in SCHEMA_CHILDREN ensures g.Child(k) {
        if HasChild(m, k) {
          ChildLands(w, root, kept, s, k);
          EvalAgrees(w, root, kept, verbatim, m[k], fuel);
        }
        ChildMirrored(w, root, verbatim, s, k, fuel);
      }
      forall k | k in SCHEMA_MAPS ensures g.Map(k) {
        forall n | n in MapAt(m, k) ensures Agree(w, root, verbatim, MapAt(m, k)[n], fuel) {
          MemberLands(w, root, kept, s, k, n);
          EvalAgrees(w, root, kept, verbatim, m[k].fields[n], fuel);
        }
        MapMirrored(w, root, verbatim, s, k, fuel);
      }
      forall k | k in SCHEMA_LISTS ensures g.List(k) {
        forall c | c in ListAt(m, k) ensures Agree(w, root, verbatim, c, fuel) {
          ElementLands(w, root, kept, s, k, c);
          EvalAgrees(w, root, kept, verbatim, c, fuel);
        }
        ListMirrored(w, root, verbatim, s, k, fuel);
      }
      forall k | k in ASSERTIONS || k in REFERENCES || k == "minContains" || k == "maxContains" ensures g.Value(k) {
        SameValue(verbatim, s, k);
      }
      MirrorValid(g);
      forall x ensures Eval(w, Strip(root), After(verbatim, s), x, fuel) == Eval(w, root, s, x, fuel) {
        forall k | k in REFERENCES && k in m
          ensures Follow(w, Strip(root), m[k], x, fuel) == Follow(w, root, m[k], x, fuel)
        {
          ReferenceLands(w, root, kept, s, k);
          FollowAgrees(w, root, kept, m[k], x, fuel);
        }
        ObjectAgrees(w, root, verbatim, s, x, fuel);
      }
    }
  }

  lemma ReferenceLands(w: Vocabulary, root: Json, kept: set<Json>, s: Json, k: string)
    requires s.Obj? && RefsLand(w, root, kept, s) && k in REFERENCES && k in s.fields
    ensures var v := s.fields[k]; v.Str? && w.locate(v.s).Some? ==> Lands(w, root, kept, w.locate(v.s).value)
  {
    assert EntryLands(w, root, kept, k, s.fields[k]);
  }

  lemma ChildLands(w: Vocabulary, root: Json, kept: set<Json>, s: Json, k: string)
    requires s.Obj? && RefsLand(w, root, kept, s) && k in SCHEMA_CHILDREN && HasChild(s.fields, k)
    ensures RefsLand(w, root, kept, s.fields[k])
  {
    ChildrenApart(k);
    assert EntryLands(w, root, kept, k, s.fields[k]);
  }

  lemma MemberLands(w: Vocabulary, root: Json, kept: set<Json>, s: Json, k: string, n: string)
    requires s.Obj? && RefsLand(w, root, kept, s) && k in SCHEMA_MAPS && n in MapAt(s.fields, k)
    ensures RefsLand(w, root, kept, s.fields[k].fields[n])
  {
    MapsApart(k);
    assert EntryLands(w, root, kept, k, s.fields[k]);
  }

  lemma ElementLands(w: Vocabulary, root: Json, kept: set<Json>, s: Json, k: string, c: Json)
    requires s.Obj? && RefsLand(w, root, kept, s) && k in SCHEMA_LISTS && c in ListAt(s.fields, k)
    ensures RefsLand(w, root, kept, c)
  {
    ListsApart(k);
    assert EntryLands(w, root, kept, k, s.fields[k]);
  }

  /** A document and its stripped form accept the same instances, however deep references are followed. */
  lemma StripPreservesMeaning(w: Vocabulary, root: Json, kept: set<Json>, x: Json, fuel: nat)
    requires RefsLand(w, root, kept, root) && KeptLand(w, root, kept)
    ensures Eval(w, Strip(root), Strip(root), x, fuel) == Eval(w, root, root, x, fuel)
  {
    EvalAgrees(w, root, kept, false, root, fuel);
  }
}
