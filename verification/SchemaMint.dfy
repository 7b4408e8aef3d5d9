/** The local-reference check a schema passes before it is minted, and what it leaves to go wrong. */
module SchemaMint {
  import opened Prelude
  import opened JsonPointer
  import opened JsonSchema
  import opened SchemaAnnotations
  import opened SchemaMeaning

  /** The schema objects of a document: itself and, keyword by keyword, the schemas below. */
  function SchemaObjects(s: Json): set<Json>
    decreases s, 1
  {
    match s
    case Obj(m) => {s} + SubschemaObjects(s, m.Keys)
    case _ => {}
  }

  /** Those reached through some of the keywords. */
  function SubschemaObjects(s: Json, keys: set<string>): set<Json>
    requires s.Obj? && keys <= s.fields.Keys
    decreases s, 0
  {
    set k, o | k in keys && o in SlotObjects(k, s.fields[k]) :: o
  }

  function SlotObjects(k: string, v: Json): set<Json>
    decreases v, 2
  {
    match SlotOf(k, v)
    case MapOfSchemas => (set n, o | n in v.fields && o in SchemaObjects(v.fields[n]) :: o)
    case OneSchema => SchemaObjects(v)
    case ListOfSchemas => (set c, o | c in v.items && o in SchemaObjects(c) :: o)
    case _ => {}
  }

  // ---- The explicit-stack check ----

  function Objects(ss: seq<Json>): set<Json> {
    set s, o | s in ss && o in SchemaObjects(s) :: o
  }

  ghost function Size(v: Json): nat
    decreases v, 1, 0
  {
    match v
    case Obj(m) => 1 + FieldSizes(v, m.Keys)
    case Arr(xs) => 1 + Sizes(xs)
    case _ => 1
  }

  ghost function FieldSizes(v: Json, keys: set<string>): nat
    requires v.Obj? && keys <= v.fields.Keys
    decreases v, 0, |keys|
  {
    if keys == {} then 0
    else
      var k :| k in keys;
      Size(v.fields[k]) + FieldSizes(v, keys - {k})
  }

  ghost function Sizes(ss: seq<Json>): nat
    decreases ss, 0, 0
  {
    if ss == [] then 0 else Size(ss[0]) + Sizes(ss[1..])
  }

  lemma {:induction false} FieldSizesRemove(v: Json, keys: set<string>, k: string)
    requires v.Obj? && keys <= v.fields.Keys && k in keys
    ensures FieldSizes(v, keys) == Size(v.fields[k]) + FieldSizes(v, keys - {k})
    decreases |keys|
  {
    var j :| j in keys && FieldSizes(v, keys) == Size(v.fields[j]) + FieldSizes(v, keys - {j});
    if j != k {
      FieldSizesRemove(v, keys - {j}, k);
      FieldSizesRemove(v, keys - {k}, j);
      assert keys - {j} - {k} == keys - {k} - {j};
    }
  }

  lemma {:induction false} SizesAppend(a: seq<Json>, b: seq<Json>)
    ensures Sizes(a + b) == Sizes(a) + Sizes(b)
  {
    if a == [] {
      assert a + b == b;
    } else {
      assert (a + b)[1..] == a[1..] + b;
      SizesAppend(a[1..], b);
    }
  }

  method MapValues(v: Json) returns (vs: seq<Json>)
    requires v.Obj?
    ensures forall c :: c in vs <==> exists k :: k in v.fields && v.fields[k] == c
    ensures Sizes(vs) < Size(v)
  {
    vs := [];
    var left := v.fields.Keys;
    while left != {}
      invariant left <= v.fields.Keys
      invariant forall c :: c in vs <==> exists k :: k in v.fields && k !in left && v.fields[k] == c
      invariant Sizes(vs) + FieldSizes(v, left) == FieldSizes(v, v.fields.Keys)
      decreases |left|
    {
      var k :| k in left;
      FieldSizesRemove(v, left, k);
      SizesAppend(vs, [v.fields[k]]);
      assert Sizes([v.fields[k]]) == Size(v.fields[k]) + Sizes([v.fields[k]][1..]);
      vs := vs + [v.fields[k]];
      left := left - {k};
    }
  }

  /** What one keyword puts on the stack. */
  method SlotSchemas(k: string, v: Json) returns (children: seq<Json>)
    ensures Objects(children) == SlotObjects(k, v)
    ensures Sizes(children) <= Size(v)
  {
    match SlotOf(k, v)
    case MapOfSchemas =>
      children := MapValues(v);
    case OneSchema =>
      children := [v];
      assert Sizes(children) == Size(v) + Sizes(children[1..]);
    case ListOfSchemas => children := v.items;
    case _ => children := [];
  }

  lemma ObjectsAppend(a: seq<Json>, b: seq<Json>)
    ensures Objects(a + b) == Objects(a) + Objects(b)
  {
  }

  lemma OneMoreKeyword(current: Json, seen: set<string>, k: string)
    requires current.Obj? && seen <= current.fields.Keys && k in current.fields
    ensures SubschemaObjects(current, seen + {k}) == SubschemaObjects(current, seen) + SlotObjects(k, current.fields[k])
  {
  }

  /** The stack holds what it held before and everything under the keywords seen. */
  ghost predicate Pushed(current: Json, seen: set<string>, before: set<Json>, now: set<Json>)
    requires current.Obj?
  {
    seen <= current.fields.Keys && now == before + SubschemaObjects(current, seen)
  }

  lemma PushedOneMore(current: Json, seen: set<string>, before: set<Json>, now: set<Json>, k: string)
    requires current.Obj? && Pushed(current, seen, before, now) && k in current.fields
    ensures Pushed(current, seen + {k}, before, now + SlotObjects(k, current.fields[k]))
  {
    OneMoreKeyword(current, seen, k);
  }

  lemma PushedNothing(current: Json, before: set<Json>)
    requires current.Obj?
    ensures Pushed(current, {}, before, before)
  {
    assert SubschemaObjects(current, {}) == {};
  }

  lemma PushedAll(current: Json, before: set<Json>, now: set<Json>)
    requires current.Obj? && Pushed(current, current.fields.Keys, before, now)
    ensures now + {current} == before + SchemaObjects(current)
  {
  }

  /** Pushes the subschemas under one keyword. */
  method PushKeyword(current: Json, k: string, pushed0: seq<Json>, ghost seen: set<string>, ghost left: set<string>,
                     ghost before: set<Json>)
    returns (pushed: seq<Json>)
    requires current.Obj? && k in left && left <= current.fields.Keys && Pushed(current, seen, before, Objects(pushed0))
    ensures Pushed(current, seen + {k}, before, Objects(pushed))
    ensures Sizes(pushed) + FieldSizes(current, left - {k}) <= Sizes(pushed0) + FieldSizes(current, left)
  {
    hide Objects, SlotObjects, Sizes, FieldSizes, Pushed;
    var children := SlotSchemas(k, current.fields[k]);
    FieldSizesRemove(current, left, k);
    SizesAppend(pushed0, children);
    ObjectsAppend(pushed0, children);
    PushedOneMore(current, seen, before, Objects(pushed0), k);
    pushed := pushed0 + children;
  }

  /** Pops one schema object: pushes its subschemas. */
  method PushSubschemas(current: Json, pending: seq<Json>) returns (pushed: seq<Json>)
    requires current.Obj?
    ensures Objects(pushed) + {current} == Objects(pending) + SchemaObjects(current)
    ensures Sizes(pushed) < Sizes(pending) + Size(current)
  {
    hide Objects, SchemaObjects, Sizes, FieldSizes, Pushed;
    pushed := pending;
    var left := current.fields.Keys;
    ghost var before, seen := Objects(pending), {};
    PushedNothing(current, before);
    while left != {}
      invariant left + seen == current.fields.Keys
      invariant Pushed(current, seen, before, Objects(pushed))
      invariant Sizes(pushed) + FieldSizes(current, left) <= Sizes(pending) + FieldSizes(current, current.fields.Keys)
      decreases |left|
    {
      var k :| k in left;
      pushed := PushKeyword(current, k, pushed, seen, left, before);
      left, seen := left - {k}, seen + {k};
    }
    PushedAll(current, before, Objects(pushed));
  }

  /** The reference values of one schema object. */
  function References(o: Json): set<Json> {
    if o.Obj? then set k | k in REFERENCES && k in o.fields :: o.fields[k] else {}
  }

  predicate HasNoId(o: Json) {
    o.Obj? ==> "$id" !in o.fields
  }

  /** The reference values of some objects. */
  function ReferencesIn(os: set<Json>): set<Json> {
    set o, v | o in os && v in References(o) :: v
  }

  const ANCHORS := {"$anchor", "$dynamicAnchor"}

  /** The anchors one schema object declares. */
  function AnchorsOf(o: Json): set<Json> {
    if o.Obj? then set k | k in ANCHORS && k in o.fields :: o.fields[k] else {}
  }

  /** The anchors declared anywhere in a document. */
  function Anchors(root: Json): set<Json> {
    AnchorsIn(SchemaObjects(root))
  }

  function AnchorsIn(os: set<Json>): set<Json> {
    set o, a | o in os && a in AnchorsOf(o) :: a
  }

  /** What the traversal gathers. */
  datatype Gathered = Gathered(references: seq<Json>, anchors: set<Json>)

  /** The traversal: fails on a nested resource, else lists every reference and every anchor of the document. */
  method CollectReferences(root: Json) returns (r: Result<Gathered>)
    ensures r.Success? <==> forall o | o in SchemaObjects(root) :: HasNoId(o)
    ensures r.Success? ==> forall v :: v in r.value.references <==> v in ReferencesIn(SchemaObjects(root))
    ensures r.Success? ==> r.value.anchors == Anchors(root)
  {
    hide Sizes, References, ReferencesIn, AnchorsIn;
    NothingIn();
    var pending, references, anchors := [root], [], {};
    ghost var visited: set<Json> := {};
    assert Objects(pending) == SchemaObjects(root);
    while pending != []
      invariant visited + Objects(pending) == SchemaObjects(root)
      invariant forall o | o in visited :: HasNoId(o)
      invariant forall v :: v in references <==> v in ReferencesIn(visited)
      invariant anchors == AnchorsIn(visited)
      decreases Sizes(pending)
    {
      var current := pending[|pending| - 1];
      var rest := pending[..|pending| - 1];
      SplitLast(pending);
      if current.Obj? {
        assert current in SchemaObjects(current);
        if "$id" in current.fields { return Failure; }
        var found := ReferenceList(current);
        references := references + found;
        ReferencesNext(visited, current);
        AnchorsNext(visited, current);
        if "$anchor" in current.fields { anchors := anchors + {current.fields["$anchor"]}; }
        if "$dynamicAnchor" in current.fields { anchors := anchors + {current.fields["$dynamicAnchor"]}; }
        visited := visited + {current};
        pending := PushSubschemas(current, rest);
      } else {
        pending := rest;
      }
    }
    assert visited == SchemaObjects(root);
    return Success(Gathered(references, anchors));
  }

  lemma NothingIn()
    ensures ReferencesIn({}) == {} && AnchorsIn({}) == {}
  {
  }

  lemma ReferencesNext(os: set<Json>, o: Json)
    ensures ReferencesIn(os + {o}) == ReferencesIn(os) + References(o)
  {
  }

  lemma AnchorsNext(os: set<Json>, o: Json)
    requires o.Obj?
    ensures AnchorsIn(os + {o}) == AnchorsIn(os)
      + (if "$anchor" in o.fields then {o.fields["$anchor"]} else {})
      + (if "$dynamicAnchor" in o.fields then {o.fields["$dynamicAnchor"]} else {})
  {
    assert AnchorsIn(os + {o}) == AnchorsIn(os) + AnchorsOf(o);
  }

  /** The reference values of one schema object, in the order they are gathered. */
  function ReferenceList(o: Json): (found: seq<Json>)
    requires o.Obj?
    ensures forall v :: v in found <==> v in References(o)
  {
    (if "$ref" in o.fields then [o.fields["$ref"]] else [])
    + if "$dynamicRef" in o.fields then [o.fields["$dynamicRef"]] else []
  }

  lemma SplitLast(ss: seq<Json>)
    requires ss != []
    ensures var rest, last := ss[..|ss| - 1], ss[|ss| - 1];
            Objects(ss) == Objects(rest) + SchemaObjects(last) && Sizes(ss) == Sizes(rest) + Size(last)
  {
    var rest, last := ss[..|ss| - 1], ss[|ss| - 1];
    assert ss == rest + [last];
    ObjectsAppend(rest, [last]);
    SizesAppend(rest, [last]);
    assert Sizes([last]) == Size(last) + Sizes([last][1..]);
    assert Objects([last]) == SchemaObjects(last);
  }

  // ---- Resolving what was gathered ----

  /** A reference that passes: `#`, a pointer to an object or a boolean as the check reads it, or a declared anchor. */
  predicate ReferencePasses(w: Vocabulary, root: Json, v: Json) {
    && v.Str? && "#" <= v.s
    && if "#/" <= v.s then var t := Resolve(w, root, Names(v.s[2..])); t.Some? && (t.value.Obj? || t.value.Bool?)
       else v.s == "#" || Str(v.s[1..]) in Anchors(root)
  }

  /**
   * Which references pass: the document itself, a pointer written for names that lead to an object or a boolean, and an
   * anchor that some schema of the document declares; nothing that does not begin with a number sign.
   */
  lemma ReferencesThatPass(w: Vocabulary, root: Json, names: seq<string>, anchor: string)
    requires names != [] && anchor != "" && anchor[0] != '/'
    ensures ReferencePasses(w, root, Str("#"))
    ensures var target := Resolve(w, root, names);
      ReferencePasses(w, root, Str("#/" + Pointer(names))) <==> target.Some? && (target.value.Obj? || target.value.Bool?)
    ensures ReferencePasses(w, root, Str("#" + anchor)) <==>
      exists o :: o in SchemaObjects(root) && o.Obj? && DeclaresAnchor(o.fields, anchor)
    ensures forall v: Json | !v.Str? || v.s == "" || v.s[0] != '#' :: !ReferencePasses(w, root, v)
  {
    hide SchemaObjects, Resolve, Pointer, Names;
    PointerIsRead(names);
    var pointer, name := "#/" + Pointer(names), "#" + anchor;
    assert pointer[0] == '#' && pointer[1] == '/' && pointer[2..] == Pointer(names) && "#" <= pointer && "#/" <= pointer;
    assert name[0] == '#' && name[1] == anchor[0] && name[1..] == anchor && "#" <= name && !("#/" <= name) && name != "#";
    assert "#" <= "#" && !("#/" <= "#");
    forall s: string | "#" <= s ensures s != "" && s[0] == '#' { }
    AnchorDeclared(root, anchor);
  }

  lemma AnchorDeclared(root: Json, anchor: string)
    ensures Str(anchor) in Anchors(root) <==>
      exists o :: o in SchemaObjects(root) && o.Obj? && DeclaresAnchor(o.fields, anchor)
  {
    hide SchemaObjects;
    forall o ensures Str(anchor) in AnchorsOf(o) <==> o.Obj? && DeclaresAnchor(o.fields, anchor) {
      DeclaredByObject(o, anchor);
    }
  }

  predicate DeclaresAnchor(m: map<string, Json>, anchor: string) {
    ("$anchor" in m && m["$anchor"] == Str(anchor)) || ("$dynamicAnchor" in m && m["$dynamicAnchor"] == Str(anchor))
  }

  lemma DeclaredByObject(o: Json, anchor: string)
    ensures Str(anchor) in AnchorsOf(o) <==> o.Obj? && DeclaresAnchor(o.fields, anchor)
  {
    assert "$anchor" in ANCHORS && "$dynamicAnchor" in ANCHORS;
  }

  predicate ObjectPasses(w: Vocabulary, root: Json, o: Json) {
    HasNoId(o) && forall v | v in References(o) :: ReferencePasses(w, root, v)
  }

  /** No schema of the document has an `$id`, and every reference of one passes. */
  predicate Passes(w: Vocabulary, root: Json) {
    forall o | o in SchemaObjects(root) :: ObjectPasses(w, root, o)
  }

  /** No schema of the document has an `$id`, and the `$ref` and `$dynamicRef` of each, where it has them, pass. */
  lemma PassesExactly(w: Vocabulary, root: Json)
    ensures Passes(w, root) <==> forall o | o in SchemaObjects(root) && o.Obj? ::
      && "$id" !in o.fields
      && ("$ref" in o.fields ==> ReferencePasses(w, root, o.fields["$ref"]))
      && ("$dynamicRef" in o.fields ==> ReferencePasses(w, root, o.fields["$dynamicRef"]))
  {
    hide SchemaObjects, ReferencePasses;
    assert "$ref" in REFERENCES && "$dynamicRef" in REFERENCES;
  }

  /** Follows a pointer from the root, name by name. */
  method FollowPointer(w: Vocabulary, root: Json, names: seq<string>) returns (target: Option<Json>)
    ensures target == Resolve(w, root, names)
  {
    var t := root;
    for i := 0 to |names|
      invariant Resolve(w, root, names) == Resolve(w, t, names[i..])
    {
      assert names[i..][1..] == names[i + 1..];
      match t {
        case Obj(m) =>
          if names[i] !in m { return None; }
          t := m[names[i]];
        case Arr(xs) =>
          var at := w.index(names[i], |xs|);
          if at.None? || at.value >= |xs| { return None; }
          t := xs[at.value];
        case _ => return None;
      }
    }
    return Some(t);
  }

  /** One reference against the anchors gathered. */
  method CheckReference(w: Vocabulary, root: Json, anchors: set<Json>, reference: Json) returns (ok: bool)
    requires anchors == Anchors(root)
    ensures ok <==> ReferencePasses(w, root, reference)
  {
    if !reference.Str? || !("#" <= reference.s) { return false; }
    var s := reference.s;
    if "#/" <= s {
      var target := FollowPointer(w, root, Names(s[2..]));
      return target.Some? && (target.value.Obj? || target.value.Bool?);
    }
    return s == "#" || Str(s[1..]) in anchors;
  }

  /** The traversal, and then each reference it gathered. */
  method CheckOutputSchema(w: Vocabulary, root: Json) returns (ok: bool)
    ensures ok <==> Passes(w, root)
  {
    var gathered := CollectReferences(root);
    if gathered.Failure? {
      assert !Passes(w, root) by {
        var o :| o in SchemaObjects(root) && !HasNoId(o);
        assert !ObjectPasses(w, root, o);
      }
      return false;
    }
    var references := gathered.value.references;
    for i := 0 to |references|
      invariant forall j | 0 <= j < i :: ReferencePasses(w, root, references[j])
    {
      assert references[i] in references;
      var passes := CheckReference(w, root, gathered.value.anchors, references[i]);
      if !passes {
        OneFails(w, root, references[i]);
        return false;
      }
    }
    AllPass(w, root, references);
    return true;
  }

  lemma OneFails(w: Vocabulary, root: Json, reference: Json)
    requires !ReferencePasses(w, root, reference) && reference in ReferencesIn(SchemaObjects(root))
    ensures !Passes(w, root)
  {
    var o :| o in SchemaObjects(root) && reference in References(o);
    assert !ObjectPasses(w, root, o);
  }

  lemma AllPass(w: Vocabulary, root: Json, references: seq<Json>)
    requires forall o | o in SchemaObjects(root) :: HasNoId(o)
    requires forall v :: v in references <==> v in ReferencesIn(SchemaObjects(root))
    requires forall j | 0 <= j < |references| :: ReferencePasses(w, root, references[j])
    ensures Passes(w, root)
  {
    hide ReferencePasses;
    forall o, v | o in SchemaObjects(root) && v in References(o) ensures ReferencePasses(w, root, v) {
      assert v in references;
      var j :| 0 <= j < |references| && references[j] == v;
      assert ReferencePasses(w, root, references[j]);
    }
  }

  // ---- What a validator makes of it ----

  /** References of the form `#name`. */
  predicate NamesAnchor(s: string) {
    "#" < s && !("#/" <= s)
  }

  /**
   * How a validator reads the references of a document: the root, a pointer from the root, or an anchor, which stands
   * at an object of the document if it is found at all.  A pointer with `%` is left open here: section 6 of RFC 6901
   * has a validator undo the percent-encoding first, which the check does not.
   */
  ghost predicate Reads(w: Vocabulary, root: Json) {
    && w.locate("#") == Some([])
    && (forall s | "#/" <= s && '%' !in s :: w.locate(s) == Some(Names(s[2..])))
    && (forall s | NamesAnchor(s) && w.locate(s).Some? ::
          var t := Resolve(w, root, w.locate(s).value); t.Some? && t.value.Obj?)
  }

  /** No reference of a schema has a `%`. */
  predicate PercentFree(root: Json) {
    forall o, v | o in SchemaObjects(root) && v in References(o) :: v.Str? ==> '%' !in v.s
  }

  lemma SlotKept(k: string, v: Json)
    ensures SlotOf(k, v) != Dropped ==> SlotOf(k, StripSlot(k, v)) == SlotOf(k, v)
  {
  }

  /** Schema objects stay schema objects when annotations go. */
  lemma {:induction false} StrippedObjects(s: Json, o: Json)
    requires o in SchemaObjects(s)
    ensures Strip(o) in SchemaObjects(Strip(s))
    decreases s, 0
  {
    if o != s {
      var k :| k in s.fields && o in SlotObjects(k, s.fields[k]);
      StrippedSlot(k, s.fields[k], o);
      assert Strip(s).fields[k] == StripSlot(k, s.fields[k]);
      assert Strip(o) in SubschemaObjects(Strip(s), Strip(s).fields.Keys);
    }
  }

  lemma {:induction false} StrippedSlot(k: string, v: Json, o: Json)
    requires o in SlotObjects(k, v)
    ensures Strip(o) in SlotObjects(k, StripSlot(k, v))
    decreases v, 1
  {
    SlotKept(k, v);
    match SlotOf(k, v)
    case MapOfSchemas =>
      var n :| n in v.fields && o in SchemaObjects(v.fields[n]);
      StrippedObjects(v.fields[n], o);
      assert StripSlot(k, v).fields[n] == Strip(v.fields[n]);
    case OneSchema => StrippedObjects(v, o);
    case ListOfSchemas =>
      var i :| 0 <= i < |v.items| && o in SchemaObjects(v.items[i]);
      StrippedObjects(v.items[i], o);
      assert StripSlot(k, v).items[i] == Strip(v.items[i]) && Strip(v.items[i]) in StripSlot(k, v).items;
    case _ =>
  }

  /** Where a reference of the document leads. */
  function Target(w: Vocabulary, root: Json, v: Json): Option<Place> {
    if !v.Str? || w.locate(v.s).None? then None else Walk(w, Place(root, AtSchema), w.locate(v.s).value)
  }

  /**
   * Where a reference of a schema leads to a keyword map or into data, it leads to one of the values `kept`, and
   * stripping leaves such a map as it is.
   */
  ghost predicate ReferencesKept(w: Vocabulary, root: Json, kept: set<Json>) {
    forall o, v | o in SchemaObjects(root) && v in References(o) ::
      Target(w, root, v).Some? ==> PlaceKept(kept, Target(w, root, v).value)
  }

  /** Read without percent-encoding, a reference that passes after stripping did not lead into an annotation. */
  lemma MintedTarget(w: Vocabulary, root: Json, o: Json, v: Json)
    requires Passes(w, Strip(root)) && Reads(w, Strip(root))
    requires o in SchemaObjects(root) && v in References(o) && (v.Str? ==> '%' !in v.s)
    ensures Target(w, root, v).Some? ==> Target(w, root, v).value.kind != AtDropped
  {
    hide Walk, Resolve;
    StrippedObjects(root, o);
    StrippedReferences(o, v);
    assert ObjectPasses(w, Strip(root), Strip(o)) && ReferencePasses(w, Strip(root), v);
    if w.locate(v.s).Some? {
      assert NamesAnchor(v.s) || "#/" <= v.s || v.s == "#";
      if v.s == "#" { RootResolves(w, Strip(root)); }
      assert Resolve(w, Strip(root), w.locate(v.s).value).Some?;
      WalkImage(w, Place(root, AtSchema), w.locate(v.s).value);
    }
  }

  lemma RootResolves(w: Vocabulary, root: Json)
    ensures Resolve(w, root, []) == Some(root)
  {
  }

  lemma StrippedReferences(o: Json, v: Json)
    requires v in References(o)
    ensures v in References(Strip(o))
  {
    var k :| k in REFERENCES && k in o.fields && o.fields[k] == v;
    SameValue(false, o, k);
  }

  /** A keyword's own reference lands. */
  lemma KeywordLands(w: Vocabulary, root: Json, kept: set<Json>, s: Json, k: string)
    requires Passes(w, Strip(root)) && Reads(w, Strip(root)) && PercentFree(root) && ReferencesKept(w, root, kept)
    requires s.Obj? && s in SchemaObjects(root) && k in REFERENCES && k in s.fields
    ensures var v := s.fields[k]; v.Str? && w.locate(v.s).Some? ==> Lands(w, root, kept, w.locate(v.s).value)
  {
    hide Passes, Reads, Walk, PlaceKept;
    var v := s.fields[k];
    assert v in References(s);
    MintedTarget(w, root, s, v);
    if v.Str? && w.locate(v.s).Some? { assert Target(w, root, v) == Walk(w, Place(root, AtSchema), w.locate(v.s).value); }
  }

  lemma AcceptedEntry(policy: Policy, s: Json, k: string)
    requires Accepts(policy, s) && s.Obj? && k in s.fields
    ensures SlotAccepted(policy, k, s.fields[k])
  {
    assert EntryAccepted(policy, k, s.fields[k]);
  }

  /** What the schemas under one keyword need. */
  ghost predicate SlotLands(w: Vocabulary, root: Json, kept: set<Json>, k: string, v: Json) {
    match SlotOf(k, v)
    case MapOfSchemas => (forall n | n in v.fields :: RefsLand(w, root, kept, v.fields[n]))
    case OneSchema => RefsLand(w, root, kept, v)
    case ListOfSchemas => (forall c | c in v.items :: RefsLand(w, root, kept, c))
    case _ => true
  }

  /** The schemas of a document that passes the check once stripped have landing references. */
  ghost predicate Landing(w: Vocabulary, root: Json, kept: set<Json>) {
    Passes(w, Strip(root)) && Reads(w, Strip(root)) && PercentFree(root) && ReferencesKept(w, root, kept)
  }

  lemma {:induction false} SlotObjectsLand(policy: Policy, w: Vocabulary, root: Json, kept: set<Json>, k: string, v: Json)
    requires Landing(w, root, kept) && SlotAccepted(policy, k, v) && SlotObjects(k, v) <= SchemaObjects(root)
    ensures SlotLands(w, root, kept, k, v)
    decreases v, 1
  {
    hide Landing;
    match SlotOf(k, v)
    case MapOfSchemas =>
      forall n | n in v.fields ensures RefsLand(w, root, kept, v.fields[n]) {
        assert SchemaObjects(v.fields[n]) <= SlotObjects(k, v);
        ObjectsLand(policy, w, root, kept, v.fields[n]);
      }
    case OneSchema => ObjectsLand(policy, w, root, kept, v);
    case ListOfSchemas =>
      forall c | c in v.items ensures RefsLand(w, root, kept, c) {
        assert SchemaObjects(c) <= SlotObjects(k, v);
        ObjectsLand(policy, w, root, kept, c);
      }
    case _ =>
  }

  lemma SlotsBelow(s: Json, k: string)
    requires s.Obj? && k in s.fields
    ensures SlotObjects(k, s.fields[k]) <= SchemaObjects(s)
  {
  }

  lemma KeywordsTogether(w: Vocabulary, root: Json, kept: set<Json>, k: string, v: Json)
    requires k in REFERENCES && v.Str? && w.locate(v.s).Some? ==> Lands(w, root, kept, w.locate(v.s).value)
    requires SlotLands(w, root, kept, k, v)
    ensures EntryLands(w, root, kept, k, v)
  {
  }

  lemma {:induction false} ObjectsLand(policy: Policy, w: Vocabulary, root: Json, kept: set<Json>, s: Json)
    requires Landing(w, root, kept) && Accepts(policy, s) && SchemaObjects(s) <= SchemaObjects(root)
    ensures RefsLand(w, root, kept, s)
    decreases s, 0
  {
    if s.Obj? {
      assert s in SchemaObjects(s);
      forall k | k in s.fields ensures EntryLands(w, root, kept, k, s.fields[k]) {
        if k in REFERENCES { KeywordLands(w, root, kept, s, k); }
        AcceptedEntry(policy, s, k);
        SlotsBelow(s, k);
        SlotObjectsLand(policy, w, root, kept, k, s.fields[k]);
        KeywordsTogether(w, root, kept, k, s.fields[k]);
      }
    }
  }

  /**
   * A schema that passes the check after stripping validates what its annotated original did, if its references have no
   * `%` and lead to schemas, or to values `kept`: data that is copied, or keyword maps that stripping leaves as they
   * are, whose own references land in turn.
   */
  lemma MintedSchemaKeepsMeaning(policy: Policy, w: Vocabulary, root: Json, kept: set<Json>, x: Json, fuel: nat)
    requires Accepts(policy, root) && Passes(w, Strip(root)) && Reads(w, Strip(root))
    requires PercentFree(root) && ReferencesKept(w, root, kept) && KeptLand(w, root, kept)
    ensures Eval(w, Strip(root), Strip(root), x, fuel) == Eval(w, root, root, x, fuel)
  {
    ObjectsLand(policy, w, root, kept, root);
    StripPreservesMeaning(w, root, kept, x, fuel);
  }

  // ---- A minted schema whose meaning changes ----

  lemma FalseIsBelow(w: Vocabulary, root: Json, t: Json, y: Json, n: string, fuel: nat)
    requires t.Obj? && n in MapAt(t.fields, "properties") && MapAt(t.fields, "properties")[n] == Bool(false)
    ensures !Below(w, root, t, fuel)(Bool(false), y).valid
  {
    var p := t.fields["properties"];
    assert p.fields[n] < p < t;
  }

  /** The value of a schema object is the combination of its parts' outcomes. */
  lemma EvalObject(w: Vocabulary, root: Json, t: Json, x: Json, fuel: nat) returns (follow: Evaluator)
    requires t.Obj?
    ensures Eval(w, root, t, x, fuel) == Combine(w, t.fields, x, Apply(w, t.fields, x, Below(w, root, t, fuel), follow))
    ensures forall v, y :: follow(v, y) == Follow(w, root, v, y, fuel)
  {
    hide Combine, Apply, Follow;
    follow := (v, y) => Follow(w, root, v, y, fuel);
  }

  /** `properties` forbids a member the instance has. */
  lemma PropertyForbids(w: Vocabulary, root: Json, t: Json, x: Json, n: string, fuel: nat)
    requires t.Obj? && n in MapAt(t.fields, "properties") && MapAt(t.fields, "properties")[n] == Bool(false)
    requires n in Members(x)
    ensures !Eval(w, root, t, x, fuel).valid
  {
    FalseIsBelow(w, root, t, Members(x)[n], n, fuel);
    var follow := EvalObject(w, root, t, x, fuel);
    DeclaredFails(w, t.fields, x, n, Below(w, root, t, fuel), follow);
  }

  lemma DeclaredFails(w: Vocabulary, m: map<string, Json>, x: Json, n: string, ev: Evaluator, follow: Evaluator)
    requires n in MapAt(m, "properties") && n in Members(x) && !ev(MapAt(m, "properties")[n], Members(x)[n]).valid
    ensures !Combine(w, m, x, Apply(w, m, x, ev, follow)).valid
  {
    assert !OnDeclared(m, x, ev)[n];
  }

  lemma ReferenceFails(w: Vocabulary, m: map<string, Json>, x: Json, ev: Evaluator, follow: Evaluator)
    requires "$ref" in m && !follow(m["$ref"], x).valid
    ensures !Combine(w, m, x, Apply(w, m, x, ev, follow)).valid
  {
  }

  /** Only `$ref` and keyword maps occur. */
  ghost predicate Bare(m: map<string, Json>) {
    && !HasChild(m, "not") && !HasChild(m, "if") && !HasChild(m, "contains") && !HasChild(m, "items")
    && !HasChild(m, "additionalProperties") && !HasChild(m, "propertyNames")
    && !HasChild(m, "unevaluatedProperties") && !HasChild(m, "unevaluatedItems")
    && "allOf" !in m && "anyOf" !in m && "oneOf" !in m && "prefixItems" !in m && "$dynamicRef" !in m
  }

  lemma BareInPlace(m: map<string, Json>, u: Outcomes)
    requires !HasChild(m, "not") && !HasChild(m, "if") && "allOf" !in m && "anyOf" !in m && "oneOf" !in m
    requires u.ref.valid && u.dynamicRef.valid && u.all.count == 0 && u.dependents == map[]
    ensures InPlace(m, u).valid
  {
  }

  lemma BareOnObject(w: Vocabulary, m: map<string, Json>, x: Json, u: Outcomes)
    requires u.declared == map[] && u.patterned == map[] && u.names == map[] && u.additional == map[]
    ensures OnObject(w, m, x, u).valid
  {
  }

  lemma BareOnArray(m: map<string, Json>, x: Json, u: Outcomes)
    requires !HasChild(m, "contains") && u.prefix == map[] && u.rest == map[]
    ensures OnArray(m, x, u).valid
  {
  }

  lemma BareCombines(w: Vocabulary, m: map<string, Json>, x: Json, u: Outcomes)
    requires Asserted(w, m, x) && InPlace(m, u).valid && OnObject(w, m, x, u).valid && OnArray(m, x, u).valid
    requires u.unevaluatedMembers == map[] && u.unevaluatedElements == map[]
    ensures Combine(w, m, x, u).valid
  {
  }

  /** None of the entries of its keyword maps concerns the instance. */
  ghost predicate Unconcerned(w: Vocabulary, m: map<string, Json>, x: Json) {
    && MapAt(m, "properties").Keys !! Members(x).Keys && MapAt(m, "dependentSchemas").Keys !! Members(x).Keys
    && forall p, n | p in MapAt(m, "patternProperties") && n in Members(x) :: !w.matches(p, n)
  }

  lemma BareMaps(w: Vocabulary, m: map<string, Json>, x: Json, ev: Evaluator)
    requires Unconcerned(w, m, x)
    ensures OnDependents(m, x, ev) == map[] && OnDeclared(m, x, ev) == map[] && OnPatterns(w, m, x, ev) == map[]
  {
  }

  /** Nothing but the reference has any outcome. */
  ghost predicate Quiet(u: Outcomes) {
    && u.ref.valid && u.dynamicRef.valid && u.all.count == 0
    && u.dependents == map[] && u.declared == map[] && u.patterned == map[]
    && u.names == map[] && u.additional == map[] && u.unevaluatedMembers == map[]
    && u.prefix == map[] && u.rest == map[] && u.unevaluatedElements == map[]
  }

  lemma BareMembers(m: map<string, Json>, x: Json, ev: Evaluator)
    requires Bare(m)
    ensures OnMembers(m, "additionalProperties", x, ev) == map[] && OnNames(m, x, ev) == map[]
    ensures OnMembers(m, "unevaluatedProperties", x, ev) == map[]
  {
  }

  lemma BareElements(m: map<string, Json>, x: Json, ev: Evaluator)
    requires Bare(m)
    ensures OnPrefix(m, x, ev) == map[] && OnElements(m, "items", x, ev) == map[]
    ensures OnElements(m, "unevaluatedItems", x, ev) == map[]
  {
  }

  lemma BareIsQuiet(w: Vocabulary, m: map<string, Json>, x: Json, ev: Evaluator, follow: Evaluator)
    requires Bare(m) && Unconcerned(w, m, x) && ("$ref" in m ==> follow(m["$ref"], x).valid)
    ensures Quiet(Apply(w, m, x, ev, follow))
  {
    BareMaps(w, m, x, ev);
    BareMembers(m, x, ev);
    BareElements(m, x, ev);
  }

  lemma QuietAccepts(w: Vocabulary, m: map<string, Json>, x: Json, u: Outcomes)
    requires Bare(m) && Asserted(w, m, x) && Quiet(u)
    ensures Combine(w, m, x, u).valid
  {
    BareInPlace(m, u);
    BareOnObject(w, m, x, u);
    BareOnArray(m, x, u);
    BareCombines(w, m, x, u);
  }

  lemma BareAccepts(w: Vocabulary, m: map<string, Json>, x: Json, ev: Evaluator, follow: Evaluator)
    requires Bare(m) && Asserted(w, m, x) && Unconcerned(w, m, x) && ("$ref" in m ==> follow(m["$ref"], x).valid)
    ensures Combine(w, m, x, Apply(w, m, x, ev, follow)).valid
  {
    BareIsQuiet(w, m, x, ev, follow);
    QuietAccepts(w, m, x, Apply(w, m, x, ev, follow));
  }

  /** A document that refers to its own field `k`, and has nothing else. */
  ghost predicate RefersToField(root: Json, k: string, ref: string, t: Json) {
    root.Obj? && root.fields.Keys == {"$ref", k} && root.fields[k] == t && root.fields["$ref"] == Str(ref) && k != "$ref"
  }

  /** A schema map, or the schema it looks like, with one entry. */
  ghost predicate Holds(t: Json, k: string, v: Json) {
    t.Obj? && t.fields.Keys == {k} && t.fields[k] == v
  }

  lemma RootFollows(w: Vocabulary, root: Json, k: string, ref: string, t: Json, x: Json, fuel: nat)
    requires RefersToField(root, k, ref, t) && w.locate(ref) == Some([k]) && fuel > 0
    ensures Follow(w, root, Str(ref), x, fuel) == Eval(w, root, t, x, fuel - 1)
  {
    assert [k][1..] == [];
    assert Resolve(w, root, [k]) == Some(t);
  }

  lemma RootRejects(w: Vocabulary, root: Json, k: string, ref: string, t: Json, x: Json, fuel: nat)
    requires RefersToField(root, k, ref, t) && w.locate(ref) == Some([k]) && fuel > 0
    requires !Eval(w, root, t, x, fuel - 1).valid
    ensures !Eval(w, root, root, x, fuel).valid
  {
    RootFollows(w, root, k, ref, t, x, fuel);
    var follow := EvalObject(w, root, root, x, fuel);
    ReferenceFails(w, root.fields, x, Below(w, root, root, fuel), follow);
  }

  lemma RootAccepts(w: Vocabulary, root: Json, k: string, ref: string, t: Json, x: Json, fuel: nat)
    requires RefersToField(root, k, ref, t) && w.locate(ref) == Some([k]) && fuel > 0
    requires Eval(w, root, t, x, fuel - 1).valid
    requires Bare(root.fields) && Asserted(w, root.fields, x) && Unconcerned(w, root.fields, x)
    ensures Eval(w, root, root, x, fuel).valid
  {
    RootFollows(w, root, k, ref, t, x, fuel);
    var follow := EvalObject(w, root, root, x, fuel);
    BareAccepts(w, root.fields, x, Below(w, root, root, fuel), follow);
  }

  lemma MapKeysAreBare(k: string, m: map<string, Json>)
    requires k in SCHEMA_MAPS && m.Keys <= {"$ref", k}
    ensures Bare(m) && (forall j | j in ASSERTIONS :: j !in m)
  {
  }

  lemma NothingAsserted(w: Vocabulary, m: map<string, Json>, x: Json)
    requires forall k | k in ASSERTIONS :: k !in m
    ensures Asserted(w, m, x)
  {
  }

  /** Whatever the document around it. */
  ghost predicate RejectsEverywhere(w: Vocabulary, t: Json, x: Json) {
    forall root, fuel :: !Eval(w, root, t, x, fuel).valid
  }

  ghost predicate AcceptsEverywhere(w: Vocabulary, t: Json, x: Json) {
    forall root, fuel :: Eval(w, root, t, x, fuel).valid
  }

  lemma EmptyTarget(w: Vocabulary, t: Json, empty: Json, x: Json)
    requires Holds(t, "properties", empty) && empty == Obj(map[])
    ensures Bare(t.fields) && Asserted(w, t.fields, x) && Unconcerned(w, t.fields, x) && "$ref" !in t.fields
  {
    assert "properties" in SCHEMA_MAPS;
    MapKeysAreBare("properties", t.fields);
    NothingAsserted(w, t.fields, x);
  }

  lemma BareEvaluates(w: Vocabulary, root: Json, t: Json, x: Json, fuel: nat)
    requires t.Obj? && Bare(t.fields) && Asserted(w, t.fields, x) && Unconcerned(w, t.fields, x) && "$ref" !in t.fields
    ensures Eval(w, root, t, x, fuel).valid
  {
    var follow := EvalObject(w, root, t, x, fuel);
    BareAccepts(w, t.fields, x, Below(w, root, t, fuel), follow);
  }

  lemma TargetAccepts(w: Vocabulary, t: Json, empty: Json, x: Json)
    requires Holds(t, "properties", empty) && empty == Obj(map[])
    ensures AcceptsEverywhere(w, t, x)
  {
    EmptyTarget(w, t, empty, x);
    forall root, fuel ensures Eval(w, root, t, x, fuel).valid { BareEvaluates(w, root, t, x, fuel); }
  }

  lemma TargetRejects(w: Vocabulary, t: Json, inner: Json, x: Json)
    requires Holds(t, "properties", inner) && Holds(inner, "default", Bool(false)) && "default" in Members(x)
    ensures RejectsEverywhere(w, t, x)
  {
    assert MapAt(t.fields, "properties") == inner.fields;
    forall root, fuel ensures !Eval(w, root, t, x, fuel).valid {
      PropertyForbids(w, root, t, x, "default", fuel);
    }
  }

  lemma RootUnconcerned(w: Vocabulary, root: Json, k: string, ref: string, t: Json, empty: Json, x: Json)
    requires k in SCHEMA_MAPS && RefersToField(root, k, ref, t) && Holds(t, "properties", empty)
    requires Members(x).Keys == {"default"} && !w.matches("properties", "default")
    ensures Unconcerned(w, root.fields, x)
  {
    forall j | j in SCHEMA_MAPS ensures MapAt(root.fields, j).Keys <= {"properties"} {
      if j in root.fields && j != k { ValuesApart("$ref"); }
    }
    assert "properties" in SCHEMA_MAPS && "dependentSchemas" in SCHEMA_MAPS && "patternProperties" in SCHEMA_MAPS;
  }

  /** A document that only refers to its own map accepts what the map, read as a schema, accepts. */
  lemma RootFollowsMap(w: Vocabulary, root: Json, k: string, ref: string, t: Json, x: Json, fuel: nat)
    requires k in SCHEMA_MAPS && RefersToField(root, k, ref, t) && w.locate(ref) == Some([k]) && fuel > 0
    requires Eval(w, root, t, x, fuel - 1).valid && Unconcerned(w, root.fields, x)
    ensures Eval(w, root, root, x, fuel).valid
  {
    assert Bare(root.fields) && Asserted(w, root.fields, x) by {
      MapKeysAreBare(k, root.fields);
      NothingAsserted(w, root.fields, x);
    }
    RootAccepts(w, root, k, ref, t, x, fuel);
  }

  /** The verdicts of the two documents are those of their targets. */
  lemma VerdictsFollow(w: Vocabulary, root: Json, root': Json, k: string, ref: string, t: Json, t': Json, x: Json,
                       fuel: nat)
    requires k in SCHEMA_MAPS && RefersToField(root, k, ref, t) && RefersToField(root', k, ref, t')
    requires w.locate(ref) == Some([k]) && fuel > 0 && Unconcerned(w, root'.fields, x)
    requires RejectsEverywhere(w, t, x) && AcceptsEverywhere(w, t', x)
    ensures !Eval(w, root, root, x, fuel).valid && Eval(w, root', root', x, fuel).valid
  {
    RootRejects(w, root, k, ref, t, x, fuel);
    RootFollowsMap(w, root', k, ref, t', x, fuel);
  }

  lemma InnerDefault(inner: Json)
    requires inner.Obj? && inner.fields.Keys <= {"default"}
    ensures SubschemaObjects(inner, inner.fields.Keys) == {} && SchemaObjects(inner) == {inner}
    ensures forall j | j in REFERENCES :: j !in inner.fields
    ensures "$id" !in inner.fields
  {
    assert forall v :: SlotObjects("default", v) == {};
  }

  lemma RootObjects(root: Json, k: string, ref: string, t: Json, inner: Json)
    requires k in SCHEMA_MAPS && RefersToField(root, k, ref, t) && Holds(t, "properties", inner)
    requires inner.Obj? && inner.fields.Keys <= {"default"}
    ensures SchemaObjects(root) == {root, inner}
  {
    MapsApart(k);
    ValuesApart("$ref");
    InnerDefault(inner);
    assert SlotObjects("$ref", Str(ref)) == {};
    assert SlotObjects(k, t) == {inner};
    assert SubschemaObjects(root, root.fields.Keys) == {inner};
  }

  /** The pointer to one of its fields. */
  ghost predicate PointsTo(w: Vocabulary, ref: string, path: seq<string>)
    requires path != []
  {
    ref == "#/" + Pointer(path) && w.locate(ref) == Some(path)
  }

  /** The check reads a pointer as it was written. */
  lemma PointerPasses(w: Vocabulary, root: Json, ref: string, path: seq<string>)
    requires path != [] && ref == "#/" + Pointer(path)
    ensures ReferencePasses(w, root, Str(ref)) <==>
      var t := Resolve(w, root, path); t.Some? && (t.value.Obj? || t.value.Bool?)
  {
    hide Names, Pointer, Resolve;
    PointerIsRead(path);
    assert ref[2..] == Pointer(path) && ref[..2] == "#/" && ref[..1] == "#";
  }

  lemma RootPasses(w: Vocabulary, root: Json, k: string, ref: string, t: Json, inner: Json)
    requires k in SCHEMA_MAPS && RefersToField(root, k, ref, t) && Holds(t, "properties", inner)
    requires inner.Obj? && inner.fields.Keys <= {"default"} && PointsTo(w, ref, [k])
    ensures Passes(w, root)
  {
    hide ReferencePasses, Pointer;
    RootObjects(root, k, ref, t, inner);
    InnerDefault(inner);
    assert [k][1..] == [];
    assert Resolve(w, root, [k]) == Some(t);
    PointerPasses(w, root, ref, [k]);
    assert k != "$id" && k != "$dynamicRef" && "$ref" != "$id" by { MapsHaveOtherNames(k); }
    assert References(root) == {Str(ref)} && References(inner) == {};
    assert ObjectPasses(w, root, root);
    assert ObjectPasses(w, root, inner);
  }

  lemma MapsHaveOtherNames(k: string)
    requires k in SCHEMA_MAPS
    ensures k != "$id" && k != "$dynamicRef" && "$ref" != "$id"
  {
  }

  lemma RootAccepted(policy: Policy, root: Json, k: string, ref: string, t: Json, inner: Json)
    requires k in SCHEMA_MAPS && RefersToField(root, k, ref, t) && Holds(t, "properties", inner) && Holds(inner, "default", Bool(false))
    ensures Accepts(policy, root)
  {
    MapsApart(k);
    ValuesApart("$ref");
    assert EntryAccepted(policy, "default", Bool(false));
    assert Accepts(policy, inner);
    assert SlotAccepted(policy, k, t);
    MapKeyAllowed(policy, k, t);
    assert EntryAccepted(policy, "$ref", Str(ref));
  }

  lemma MapKeyAllowed(policy: Policy, k: string, v: Json)
    requires k in SCHEMA_MAPS
    ensures KeyAllowed(policy, k, v)
  {
  }

  lemma StrippedRoot(root: Json, k: string, ref: string, t: Json, inner: Json)
    requires k in SCHEMA_MAPS && RefersToField(root, k, ref, t) && Holds(t, "properties", inner) && Holds(inner, "default", Bool(false))
    ensures RefersToField(Strip(root), k, ref, StripMap(t)) && Holds(StripMap(t), "properties", Strip(inner)) && Strip(inner) == Obj(map[])
  {
    MapsApart(k);
    ValuesApart("$ref");
    assert StripSlot(k, t) == StripMap(t) && StripSlot("$ref", Str(ref)) == Str(ref);
    assert Strip(inner).fields == map[];
  }

  lemma ChecksPass(policy: Policy, w: Vocabulary, root: Json, root': Json, k: string, ref: string, t: Json, t': Json,
                   inner: Json, inner': Json)
    requires k in SCHEMA_MAPS && RefersToField(root, k, ref, t) && Holds(t, "properties", inner)
    requires Holds(inner, "default", Bool(false))
    requires RefersToField(root', k, ref, t') && Holds(t', "properties", inner') && inner' == Obj(map[])
    requires PointsTo(w, ref, [k])
    ensures Accepts(policy, root) && Passes(w, root) && Passes(w, root')
  {
    hide PointsTo, Passes;
    assert Accepts(policy, root) by { RootAccepted(policy, root, k, ref, t, inner); }
    assert Passes(w, root) by { RootPasses(w, root, k, ref, t, inner); }
    RootPasses(w, root', k, ref, t', inner');
  }

  lemma VerdictsDiffer(w: Vocabulary, root: Json, root': Json, k: string, ref: string, t: Json, t': Json,
                       inner: Json, inner': Json, x: Json, fuel: nat)
    requires k in SCHEMA_MAPS && RefersToField(root, k, ref, t) && Holds(t, "properties", inner)
    requires Holds(inner, "default", Bool(false))
    requires RefersToField(root', k, ref, t') && Holds(t', "properties", inner') && inner' == Obj(map[])
    requires w.locate(ref) == Some([k]) && fuel > 0
    requires Members(x).Keys == {"default"} && !w.matches("properties", "default")
    ensures !Eval(w, root, root, x, fuel).valid && Eval(w, root', root', x, fuel).valid
  {
    TargetRejects(w, t, inner, x);
    TargetAccepts(w, t', inner', x);
    assert Unconcerned(w, root'.fields, x) by { RootUnconcerned(w, root', k, ref, t', inner', x); }
    VerdictsFollow(w, root, root', k, ref, t, t', x, fuel);
  }

  /** Every check passes before and after, and the verdict on the instance changes from `verdict` to its opposite. */
  ghost predicate MeaningChanges(policy: Policy, w: Vocabulary, root: Json, x: Json, fuel: nat, verdict: bool) {
    && Accepts(policy, root) && Passes(w, root) && Passes(w, Strip(root))
    && Eval(w, root, root, x, fuel).valid == verdict
    && Eval(w, Strip(root), Strip(root), x, fuel).valid == !verdict
  }

  /**
   * For each of the keyword maps: a schema that refers to that map passes every check, yet stripping changes
   * its verdict, because the map's entry called `properties`, read as a keyword, loses its `default`.
   */
  lemma MapReferenceChangesMeaning(policy: Policy, w: Vocabulary, root: Json, k: string, ref: string, t: Json,
                                   inner: Json, x: Json, fuel: nat)
    requires k in SCHEMA_MAPS && RefersToField(root, k, ref, t) && Holds(t, "properties", inner)
    requires Holds(inner, "default", Bool(false)) && Members(x).Keys == {"default"}
    requires PointsTo(w, ref, [k]) && fuel > 0 && !w.matches("properties", "default")
    ensures MeaningChanges(policy, w, root, x, fuel, false)
  {
    StrippedRoot(root, k, ref, t, inner);
    ChecksPass(policy, w, root, Strip(root), k, ref, t, StripMap(t), inner, Strip(inner));
    VerdictsDiffer(w, root, Strip(root), k, ref, t, StripMap(t), inner, Strip(inner), x, fuel);
  }
}
