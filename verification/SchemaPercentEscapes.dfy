/** A reference with a percent-escape: the check finds one property, a validator another place that stripping removes. */
module SchemaPercentEscapes {
  import opened Prelude
  import opened JsonPointer
  import opened JsonSchema
  import opened SchemaAnnotations
  import opened SchemaMeaning
  import opened SchemaMint
  import opened SchemaDataReferences

  /** `#/properties/a%2Fdefault`. */
  const ESCAPED := "#/" + ("properties" + "/" + "a%2Fdefault")

  /** What the check makes of it, and what is left after undoing the percent-encoding. */
  const CHECKED := ["properties", "a%2Fdefault"]
  const DECODED := ["properties", "a", "default"]

  const PROPERTIES := map["a" := Obj(map["default" := Bool(true)]), "a%2Fdefault" := Obj(map[])]
  const ORIGINAL := Obj(map["$ref" := Str(ESCAPED), "properties" := Obj(PROPERTIES)])

  const CLEAN_PROPERTIES := map["a" := Obj(map[]), "a%2Fdefault" := Obj(map[])]
  const CLEAN := Obj(map["$ref" := Str(ESCAPED), "properties" := Obj(CLEAN_PROPERTIES)])

  // ---- Pointer text ----

  lemma {:induction false} EscapePlain(s: string)
    requires '~' !in s && '/' !in s
    ensures Escape(s) == s
  {
    if s != "" {
      EscapePlain(s[1..]);
      assert s == [s[0]] + s[1..];
    }
  }

  lemma PlainPointer(a: string, b: string)
    requires '~' !in a + b && '/' !in a && '/' !in b
    ensures Pointer([a, b]) == a + "/" + b
  {
    hide Escape;
    EscapePlain(a);
    EscapePlain(b);
    assert [a, b][1..] == [b];
  }

  lemma EscapedIsPointer()
    ensures ESCAPED == "#/" + Pointer(CHECKED)
  {
    hide Pointer;
    PlainPointer("properties", "a%2Fdefault");
  }

  // ---- The documents ----

  lemma Slots(v: Json)
    ensures SlotOf("default", v) == Dropped && SlotOf("$ref", v) == Verbatim
    ensures v.Obj? ==> SlotOf("properties", v) == MapOfSchemas
  {
  }

  lemma StrippedProperties()
    ensures StripMap(Obj(PROPERTIES)) == Obj(CLEAN_PROPERTIES)
  {
    Slots(Bool(true));
    assert Strip(PROPERTIES["a"]) == Obj(map[]);
    assert Strip(PROPERTIES["a%2Fdefault"]) == Obj(map[]);
  }

  lemma StrippedOriginal()
    ensures Strip(ORIGINAL) == CLEAN
  {
    hide StripMap;
    Slots(Str(ESCAPED));
    Slots(Obj(PROPERTIES));
    StrippedProperties();
    assert StripSlot("$ref", Str(ESCAPED)) == Str(ESCAPED);
    assert StripSlot("properties", Obj(PROPERTIES)) == Obj(CLEAN_PROPERTIES);
  }

  lemma OriginalAccepted(policy: Policy)
    ensures Accepts(policy, ORIGINAL)
  {
    Slots(Bool(true));
    Slots(Str(ESCAPED));
    Slots(Obj(PROPERTIES));
    assert EntryAccepted(policy, "default", Bool(true));
    assert Accepts(policy, PROPERTIES["a"]) && Accepts(policy, PROPERTIES["a%2Fdefault"]);
    assert SlotAccepted(policy, "properties", Obj(PROPERTIES));
    MapKeyAllowed(policy, "properties", Obj(PROPERTIES));
    assert EntryAccepted(policy, "properties", Obj(PROPERTIES)) && EntryAccepted(policy, "$ref", Str(ESCAPED));
  }

  /** A document of this shape; only the entry `a` may hold something. */
  ghost predicate Shaped(root: Json, a: Json) {
    && root.Obj? && root.fields.Keys == {"$ref", "properties"} && root.fields["$ref"] == Str(ESCAPED)
    && root.fields["properties"] == Obj(map["a" := a, "a%2Fdefault" := Obj(map[])])
    && a.Obj? && a.fields.Keys <= {"default"}
  }

  lemma ShapedObjects(root: Json, a: Json)
    requires Shaped(root, a)
    ensures SchemaObjects(root) == {root, a, Obj(map[])}
  {
    var p := root.fields["properties"];
    Slots(Str(ESCAPED));
    Slots(p);
    InnerDefault(a);
    InnerDefault(Obj(map[]));
    assert p.fields["a"] == a && p.fields["a%2Fdefault"] == Obj(map[]);
    assert SlotObjects("$ref", Str(ESCAPED)) == {} && SlotObjects("properties", p) == {a, Obj(map[])};
    assert SubschemaObjects(root, root.fields.Keys) == {a, Obj(map[])};
  }

  lemma ShapedPasses(w: Vocabulary, root: Json, a: Json)
    requires Shaped(root, a)
    ensures Passes(w, root)
  {
    hide ReferencePasses, Pointer;
    ShapedObjects(root, a);
    InnerDefault(a);
    InnerDefault(Obj(map[]));
    EscapedIsPointer();
    assert CHECKED[1..] == ["a%2Fdefault"] && CHECKED[1..][1..] == [];
    assert Resolve(w, root.fields["properties"], CHECKED[1..]) == Some(Obj(map[]));
    assert Resolve(w, root, CHECKED) == Some(Obj(map[]));
    PointerPasses(w, root, ESCAPED, CHECKED);
    assert References(root) == {Str(ESCAPED)} && References(a) == {} && References(Obj(map[])) == {};
    assert ObjectPasses(w, root, root) && ObjectPasses(w, root, a) && ObjectPasses(w, root, Obj(map[]));
  }

  // ---- What a validator makes of them ----

  lemma DecodedLeads(w: Vocabulary)
    ensures Resolve(w, ORIGINAL, DECODED) == Some(Bool(true)) && Resolve(w, CLEAN, DECODED) == None
  {
    assert DECODED[1..] == ["a", "default"] && DECODED[1..][1..] == ["default"] && DECODED[1..][1..][1..] == [];
    assert Resolve(w, Obj(PROPERTIES), DECODED[1..]) == Some(Bool(true)) by {
      assert Resolve(w, PROPERTIES["a"], ["default"]) == Some(Bool(true));
    }
    assert Resolve(w, Obj(CLEAN_PROPERTIES), DECODED[1..]) == None by {
      assert Resolve(w, CLEAN_PROPERTIES["a"], ["default"]) == None;
    }
  }

  lemma OriginalIsBare(w: Vocabulary, x: Json)
    requires Members(x).Keys !! {"a", "a%2Fdefault"}
    ensures Bare(ORIGINAL.fields) && Asserted(w, ORIGINAL.fields, x) && Unconcerned(w, ORIGINAL.fields, x)
  {
    assert "properties" in SCHEMA_MAPS;
    MapKeysAreBare("properties", ORIGINAL.fields);
    NothingAsserted(w, ORIGINAL.fields, x);
  }

  lemma OriginalAcceptsAll(w: Vocabulary, x: Json, fuel: nat)
    requires w.locate(ESCAPED) == Some(DECODED) && Members(x).Keys !! {"a", "a%2Fdefault"} && fuel > 0
    ensures Eval(w, ORIGINAL, ORIGINAL, x, fuel).valid
  {
    hide Eval, Follow, Resolve;
    DecodedLeads(w);
    FollowResolves(w, ORIGINAL, ESCAPED, DECODED, Bool(true), x, fuel);
    TrueAccepts(w, ORIGINAL, x, fuel - 1);
    OriginalIsBare(w, x);
    ReferenceAccepts(w, ORIGINAL, ORIGINAL, ESCAPED, x, fuel);
  }

  lemma TrueAccepts(w: Vocabulary, root: Json, x: Json, fuel: nat)
    ensures Eval(w, root, Bool(true), x, fuel).valid
  {
  }

  lemma NowhereFails(w: Vocabulary, root: Json, ref: string, path: seq<string>, x: Json, fuel: nat)
    requires w.locate(ref) == Some(path) && Resolve(w, root, path) == None
    ensures !Follow(w, root, Str(ref), x, fuel).valid
  {
  }

  lemma CleanRejectsAll(w: Vocabulary, x: Json, fuel: nat)
    requires w.locate(ESCAPED) == Some(DECODED)
    ensures !Eval(w, CLEAN, CLEAN, x, fuel).valid
  {
    hide Eval, Follow, Resolve;
    DecodedLeads(w);
    NowhereFails(w, CLEAN, ESCAPED, DECODED, x, fuel);
    ReferenceRejects(w, CLEAN, CLEAN, ESCAPED, x, fuel);
  }

  lemma TargetIsDropped(w: Vocabulary)
    requires w.locate(ESCAPED) == Some(DECODED)
    ensures Target(w, ORIGINAL, Str(ESCAPED)) == Some(Place(Bool(true), AtDropped))
  {
    Slots(Obj(PROPERTIES));
    Slots(Bool(true));
    assert DECODED[1..] == ["a", "default"] && DECODED[1..][1..] == ["default"] && DECODED[1..][1..][1..] == [];
    var entry := Place(PROPERTIES["a"], AtSchema);
    assert Walk(w, entry, ["default"]) == Some(Place(Bool(true), AtDropped));
    assert Walk(w, Place(Obj(PROPERTIES), AtMap), ["a", "default"]) == Walk(w, entry, ["default"]);
  }

  lemma ReferenceIsEscaped()
    ensures !PercentFree(ORIGINAL)
  {
    hide SchemaObjects;
    ShapedObjects(ORIGINAL, PROPERTIES["a"]);
    assert Str(ESCAPED) in References(ORIGINAL) && ESCAPED == "#/properties/a" + "%" + "2Fdefault";
  }

  /**
   * A schema whose only reference has a percent-encoded slash passes every check, as the check finds the property of
   * that very name.  A validator undoes the encoding and finds a `default` that accepts everything, until stripping
   * removes it.  No keyword map is referred to and no data.
   */
  lemma EscapedReferenceChangesMeaning(policy: Policy, w: Vocabulary, x: Json, fuel: nat)
    requires w.locate(ESCAPED) == Some(DECODED) && Members(x).Keys !! {"a", "a%2Fdefault"} && fuel > 0
    ensures MeaningChanges(policy, w, ORIGINAL, x, fuel, true)
    ensures Target(w, ORIGINAL, Str(ESCAPED)) == Some(Place(Bool(true), AtDropped)) && !PercentFree(ORIGINAL)
  {
    hide Eval, Accepts, Passes, Strip, Target, PercentFree;
    OriginalAccepted(policy);
    ShapedPasses(w, ORIGINAL, PROPERTIES["a"]);
    ShapedPasses(w, CLEAN, Obj(map[]));
    StrippedOriginal();
    OriginalAcceptsAll(w, x, fuel);
    CleanRejectsAll(w, x, fuel);
    TargetIsDropped(w);
    ReferenceIsEscaped();
  }
}
