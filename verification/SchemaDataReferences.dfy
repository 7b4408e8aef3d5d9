/** A reference into data that holds a reference to a keyword map: the checks pass, the meaning changes. */
module SchemaDataReferences {
  import opened Prelude
  import opened JsonPointer
  import opened JsonSchema
  import opened SchemaAnnotations
  import opened SchemaMeaning
  import opened SchemaMint

  // ---- Following one reference ----

  lemma FollowResolves(w: Vocabulary, root: Json, ref: string, path: seq<string>, t: Json, x: Json, fuel: nat)
    requires w.locate(ref) == Some(path) && Resolve(w, root, path) == Some(t) && fuel > 0
    ensures Follow(w, root, Str(ref), x, fuel) == Eval(w, root, t, x, fuel - 1)
  {
  }

  lemma ReferenceRejects(w: Vocabulary, root: Json, s: Json, ref: string, x: Json, fuel: nat)
    requires s.Obj? && "$ref" in s.fields && s.fields["$ref"] == Str(ref) && !Follow(w, root, Str(ref), x, fuel).valid
    ensures !Eval(w, root, s, x, fuel).valid
  {
    var follow := EvalObject(w, root, s, x, fuel);
    ReferenceFails(w, s.fields, x, Below(w, root, s, fuel), follow);
  }

  lemma ReferenceAccepts(w: Vocabulary, root: Json, s: Json, ref: string, x: Json, fuel: nat)
    requires s.Obj? && "$ref" in s.fields && s.fields["$ref"] == Str(ref) && Follow(w, root, Str(ref), x, fuel).valid
    requires Bare(s.fields) && Asserted(w, s.fields, x) && Unconcerned(w, s.fields, x)
    ensures Eval(w, root, s, x, fuel).valid
  {
    var follow := EvalObject(w, root, s, x, fuel);
    BareAccepts(w, s.fields, x, Below(w, root, s, fuel), follow);
  }

  /** A schema with a rejecting target rejects. */
  lemma TargetDecidesAgainst(w: Vocabulary, root: Json, s: Json, ref: string, path: seq<string>, t: Json, x: Json, fuel: nat)
    requires s.Obj? && "$ref" in s.fields && s.fields["$ref"] == Str(ref)
    requires w.locate(ref) == Some(path) && Resolve(w, root, path) == Some(t) && fuel > 0
    requires !Eval(w, root, t, x, fuel - 1).valid
    ensures !Eval(w, root, s, x, fuel).valid
  {
    FollowResolves(w, root, ref, path, t, x, fuel);
    ReferenceRejects(w, root, s, ref, x, fuel);
  }

  /** A schema that is otherwise bare accepts what its target accepts. */
  lemma TargetDecidesFor(w: Vocabulary, root: Json, s: Json, ref: string, path: seq<string>, t: Json, x: Json, fuel: nat)
    requires s.Obj? && "$ref" in s.fields && s.fields["$ref"] == Str(ref)
    requires w.locate(ref) == Some(path) && Resolve(w, root, path) == Some(t) && fuel > 0
    requires Eval(w, root, t, x, fuel - 1).valid
    requires Bare(s.fields) && Asserted(w, s.fields, x) && Unconcerned(w, s.fields, x)
    ensures Eval(w, root, s, x, fuel).valid
  {
    FollowResolves(w, root, ref, path, t, x, fuel);
    ReferenceAccepts(w, root, s, ref, x, fuel);
  }

  /** With references followed deep enough. */
  ghost predicate RejectsFrom(w: Vocabulary, root: Json, s: Json, x: Json, depth: nat) {
    forall fuel: nat | fuel >= depth :: !Eval(w, root, s, x, fuel).valid
  }

  ghost predicate AcceptsFrom(w: Vocabulary, root: Json, s: Json, x: Json, depth: nat) {
    forall fuel: nat | fuel >= depth :: Eval(w, root, s, x, fuel).valid
  }

  lemma OneDeeperRejects(w: Vocabulary, root: Json, s: Json, ref: string, path: seq<string>, t: Json, x: Json, depth: nat)
    requires s.Obj? && "$ref" in s.fields && s.fields["$ref"] == Str(ref)
    requires w.locate(ref) == Some(path) && Resolve(w, root, path) == Some(t) && RejectsFrom(w, root, t, x, depth)
    ensures RejectsFrom(w, root, s, x, depth + 1)
  {
    forall fuel: nat | fuel >= depth + 1 ensures !Eval(w, root, s, x, fuel).valid {
      TargetDecidesAgainst(w, root, s, ref, path, t, x, fuel);
    }
  }

  lemma OneDeeperAccepts(w: Vocabulary, root: Json, s: Json, ref: string, path: seq<string>, t: Json, x: Json, depth: nat)
    requires s.Obj? && "$ref" in s.fields && s.fields["$ref"] == Str(ref)
    requires w.locate(ref) == Some(path) && Resolve(w, root, path) == Some(t) && AcceptsFrom(w, root, t, x, depth)
    requires Bare(s.fields) && Asserted(w, s.fields, x) && Unconcerned(w, s.fields, x)
    ensures AcceptsFrom(w, root, s, x, depth + 1)
  {
    forall fuel: nat | fuel >= depth + 1 ensures Eval(w, root, s, x, fuel).valid {
      TargetDecidesFor(w, root, s, ref, path, t, x, fuel);
    }
  }

  // ---- The document ----

  /** A schema that is only a reference. */
  ghost predicate Points(s: Json, ref: string) {
    s.Obj? && s.fields.Keys == {"$ref"} && s.fields["$ref"] == Str(ref)
  }

  const FIRST_ITEM := ["enum", "0"]

  /** The document refers to the first item of its `enum`, and that item to the keyword map under `k`. */
  ghost predicate RefersThroughData(w: Vocabulary, root: Json, k: string, ref: string, inner: string, items: seq<Json>, t: Json) {
    && root.Obj? && root.fields.Keys == {"$ref", "enum", k} && k in SCHEMA_MAPS
    && root.fields["$ref"] == Str(ref) && root.fields["enum"] == Arr(items) && root.fields[k] == t
    && items != [] && Points(items[0], inner)
    && PointsTo(w, ref, FIRST_ITEM) && w.index("0", |items|) == Some(0) && w.locate(inner) == Some([k])
  }

  lemma NamesApart(k: string)
    requires k in SCHEMA_MAPS
    ensures k != "$ref" && k != "enum" && k != "$id" && k != "$dynamicRef"
  {
  }

  lemma Resolved(w: Vocabulary, root: Json, k: string, ref: string, inner: string, items: seq<Json>, t: Json)
    requires RefersThroughData(w, root, k, ref, inner, items, t)
    ensures Resolve(w, root, FIRST_ITEM) == Some(items[0]) && Resolve(w, root, [k]) == Some(t)
  {
    NamesApart(k);
    assert FIRST_ITEM[1..] == ["0"] && ["0"][1..] == [] && [k][1..] == [];
    assert Resolve(w, Arr(items), ["0"]) == Resolve(w, items[0], []);
  }

  lemma RootRejects(w: Vocabulary, root: Json, k: string, ref: string, inner: string, items: seq<Json>, t: Json, x: Json)
    requires RefersThroughData(w, root, k, ref, inner, items, t) && RejectsEverywhere(w, t, x)
    ensures RejectsFrom(w, root, root, x, 2)
  {
    Resolved(w, root, k, ref, inner, items, t);
    assert RejectsFrom(w, root, t, x, 0);
    OneDeeperRejects(w, root, items[0], inner, [k], t, x, 0);
    OneDeeperRejects(w, root, root, ref, FIRST_ITEM, items[0], x, 1);
  }

  lemma PointerIsBare(w: Vocabulary, s: Json, inner: string, x: Json)
    requires Points(s, inner)
    ensures Bare(s.fields) && Asserted(w, s.fields, x) && Unconcerned(w, s.fields, x)
  {
    assert "properties" in SCHEMA_MAPS;
    MapKeysAreBare("properties", s.fields);
    NothingAsserted(w, s.fields, x);
  }

  lemma RootIsBare(w: Vocabulary, root: Json, k: string, ref: string, inner: string, items: seq<Json>, t: Json, x: Json)
    requires RefersThroughData(w, root, k, ref, inner, items, t) && w.asserts("enum", Arr(items), x)
    ensures Bare(root.fields) && Asserted(w, root.fields, x)
  {
    BareWithEnum(k, root.fields);
  }

  lemma BareWithEnum(k: string, m: map<string, Json>)
    requires k in SCHEMA_MAPS && m.Keys <= {"$ref", "enum", k}
    ensures Bare(m) && forall j | j in ASSERTIONS && j in m :: j == "enum"
  {
  }

  lemma RootConcernsNothing(w: Vocabulary, root: Json, k: string, ref: string, inner: string, items: seq<Json>, t: Json,
                            v: Json, x: Json)
    requires RefersThroughData(w, root, k, ref, inner, items, t) && Holds(t, "properties", v)
    requires Members(x).Keys == {"default"} && !w.matches("properties", "default")
    ensures Unconcerned(w, root.fields, x)
  {
    forall j | j in SCHEMA_MAPS ensures MapAt(root.fields, j).Keys <= {"properties"} { NamesApart(j); }
    assert "properties" in SCHEMA_MAPS && "dependentSchemas" in SCHEMA_MAPS && "patternProperties" in SCHEMA_MAPS;
  }

  lemma RootAccepts(w: Vocabulary, root: Json, k: string, ref: string, inner: string, items: seq<Json>, t: Json, x: Json)
    requires RefersThroughData(w, root, k, ref, inner, items, t) && AcceptsEverywhere(w, t, x)
    requires Bare(root.fields) && Asserted(w, root.fields, x) && Unconcerned(w, root.fields, x)
    ensures AcceptsFrom(w, root, root, x, 2)
  {
    Resolved(w, root, k, ref, inner, items, t);
    PointerIsBare(w, items[0], inner, x);
    assert AcceptsFrom(w, root, t, x, 0);
    OneDeeperAccepts(w, root, items[0], inner, [k], t, x, 0);
    OneDeeperAccepts(w, root, root, ref, FIRST_ITEM, items[0], x, 1);
  }

  // ---- Its checks ----

  lemma EnumIsData(v: Json)
    ensures SlotOf("enum", v) == Verbatim && SlotOf("$ref", v) == Verbatim
  {
  }

  lemma RootObjects(w: Vocabulary, root: Json, k: string, ref: string, inner: string, items: seq<Json>, t: Json, v: Json)
    requires RefersThroughData(w, root, k, ref, inner, items, t) && Holds(t, "properties", v)
    requires v.Obj? && v.fields.Keys <= {"default"}
    ensures SchemaObjects(root) == {root, v}
  {
    NamesApart(k);
    MapsApart(k);
    InnerDefault(v);
    EnumIsData(Arr(items));
    EnumIsData(Str(ref));
    assert SlotObjects("$ref", Str(ref)) == {} && SlotObjects("enum", Arr(items)) == {};
    assert SlotObjects(k, t) == {v};
    assert SubschemaObjects(root, root.fields.Keys) == {v};
  }

  lemma RootPasses(w: Vocabulary, root: Json, k: string, ref: string, inner: string, items: seq<Json>, t: Json, v: Json)
    requires RefersThroughData(w, root, k, ref, inner, items, t) && Holds(t, "properties", v)
    requires v.Obj? && v.fields.Keys <= {"default"}
    ensures Passes(w, root)
  {
    hide ReferencePasses, Pointer;
    RootObjects(w, root, k, ref, inner, items, t, v);
    InnerDefault(v);
    Resolved(w, root, k, ref, inner, items, t);
    PointerPasses(w, root, ref, FIRST_ITEM);
    NamesApart(k);
    assert References(root) == {Str(ref)} && References(v) == {};
    assert ObjectPasses(w, root, root);
    assert ObjectPasses(w, root, v);
  }

  lemma RootAccepted(policy: Policy, w: Vocabulary, root: Json, k: string, ref: string, inner: string, items: seq<Json>,
                     t: Json, v: Json)
    requires RefersThroughData(w, root, k, ref, inner, items, t) && Holds(t, "properties", v) && Holds(v, "default", Bool(false))
    requires LiteralAllowed(policy, Arr(items))
    ensures Accepts(policy, root)
  {
    MapsApart(k);
    EnumIsData(Arr(items));
    EnumIsData(Str(ref));
    assert EntryAccepted(policy, "default", Bool(false));
    assert Accepts(policy, v);
    assert SlotAccepted(policy, k, t);
    MapKeyAllowed(policy, k, t);
    assert EntryAccepted(policy, "$ref", Str(ref)) && EntryAccepted(policy, "enum", Arr(items));
  }

  lemma StrippedRoot(w: Vocabulary, root: Json, k: string, ref: string, inner: string, items: seq<Json>, t: Json, v: Json)
    requires RefersThroughData(w, root, k, ref, inner, items, t) && Holds(t, "properties", v) && Holds(v, "default", Bool(false))
    ensures RefersThroughData(w, Strip(root), k, ref, inner, items, StripMap(t))
    ensures Holds(StripMap(t), "properties", Strip(v)) && Strip(v) == Obj(map[])
  {
    NamesApart(k);
    MapsApart(k);
    EnumIsData(Arr(items));
    EnumIsData(Str(ref));
    assert StripSlot(k, t) == StripMap(t) && StripSlot("$ref", Str(ref)) == Str(ref) && StripSlot("enum", Arr(items)) == Arr(items);
    assert Strip(v).fields == map[];
  }

  /**
   * A schema that refers to an item of its `enum` which refers to a keyword map passes every check, yet stripping
   * changes its verdict: references inside data must land as well.
   */
  lemma DataReferenceChangesMeaning(policy: Policy, w: Vocabulary, root: Json, k: string, ref: string, inner: string,
                                    items: seq<Json>, t: Json, v: Json, x: Json, fuel: nat)
    requires RefersThroughData(w, root, k, ref, inner, items, t) && Holds(t, "properties", v) && Holds(v, "default", Bool(false))
    requires Members(x).Keys == {"default"} && w.asserts("enum", Arr(items), x) && !w.matches("properties", "default")
    requires LiteralAllowed(policy, Arr(items)) && fuel >= 2
    ensures MeaningChanges(policy, w, root, x, fuel, false)
  {
    StrippedRoot(w, root, k, ref, inner, items, t, v);
    var root', t', v' := Strip(root), StripMap(t), Strip(v);
    RootAccepted(policy, w, root, k, ref, inner, items, t, v);
    RootPasses(w, root, k, ref, inner, items, t, v);
    RootPasses(w, root', k, ref, inner, items, t', v');
    TargetRejects(w, t, v, x);
    RootRejects(w, root, k, ref, inner, items, t, x);
    TargetAccepts(w, t', v', x);
    RootIsBare(w, root', k, ref, inner, items, t', x);
    RootConcernsNothing(w, root', k, ref, inner, items, t', v', x);
    RootAccepts(w, root', k, ref, inner, items, t', x);
  }
}
