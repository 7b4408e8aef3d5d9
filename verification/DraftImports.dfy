/** Which imports a draft may have, and what the names they bind stand for. */
module DraftImports {
  import opened Prelude
  import opened DraftSyntax
  import opened DraftRules
  import opened DraftCoverage
  import opened DraftCompleteness
  import opened DraftValidator

  function BoundName(a: Alias): string {
    match a.asName
    case Some(name) => name
    case None => a.name
  }

  predicate AliasLegal(lang: Language, members: set<string>, a: Alias) {
    lang.isIdentifier(BoundName(a)) && !StartsWithUnderscore(BoundName(a)) && a.name in members
  }

  /** Modules of the table, members of them, and the one future import. */
  predicate ImportLegal(lang: Language, stmt: TopLevel) {
    match stmt
    case Import(aliases) => forall a | a in aliases :: AliasLegal(lang, lang.modules.Keys, a)
    case ImportFrom(level, Some(source), aliases) =>
      && level == 0 && source != ""
      && if source == "__future__" then aliases == [Alias("annotations", None)]
         else source in lang.modules && forall a | a in aliases :: AliasLegal(lang, lang.modules[source].Keys, a)
    case _ => false
  }

  /** The statement binds a name to a module, or to a member of one. */
  predicate Binds(stmt: TopLevel, a: Alias, b: Binding) {
    match stmt
    case Import(aliases) => a in aliases && b == Binding(BoundName(a), Module(a.name))
    case ImportFrom(_, Some(source), aliases) =>
      source != "__future__" && a in aliases && b == Binding(BoundName(a), Symbol(source, a.name))
    case _ => false
  }

  /** What one alias binds its name to. */
  function BoundTo(source: Option<string>, a: Alias): Binding {
    Binding(BoundName(a), if source.Some? then Symbol(source.value, a.name) else Module(a.name))
  }

  lemma AliasExact(lang: Language, source: Option<string>, a: Alias)
    requires source.Some? ==> source.value in lang.modules
    ensures var members := if source.Some? then lang.modules[source.value].Keys else lang.modules.Keys;
      ParseAlias(lang, source, a) == if AliasLegal(lang, members, a) then Success(BoundTo(source, a)) else Failure
  {
  }

  lemma {:induction false} AliasesExact(lang: Language, source: Option<string>, aliases: seq<Alias>)
    requires source.Some? ==> source.value in lang.modules
    ensures var members := if source.Some? then lang.modules[source.value].Keys else lang.modules.Keys;
      var r := ParseAliases(lang, source, aliases);
      && (r.Success? <==> forall a | a in aliases :: AliasLegal(lang, members, a))
      && (r.Success? ==> |r.value| == |aliases|)
      && (r.Success? ==> forall i | 0 <= i < |aliases| :: r.value[i] == BoundTo(source, aliases[i]))
  {
    hide AliasLegal, ParseAlias, BoundTo;
    if aliases != [] {
      AliasExact(lang, source, aliases[0]);
      AliasesExact(lang, source, aliases[1..]);
      assert forall a | a in aliases :: a == aliases[0] || a in aliases[1..];
      assert aliases[0] in aliases && forall a | a in aliases[1..] :: a in aliases;
      var r := ParseAliases(lang, source, aliases);
      if r.Success? {
        forall i | 0 <= i < |aliases| ensures r.value[i] == BoundTo(source, aliases[i]) {
          var rest := ParseAliases(lang, source, aliases[1..]).value;
          assert r.value == [BoundTo(source, aliases[0])] + rest;
          if i > 0 { assert r.value[i] == rest[i - 1] && aliases[i] == aliases[1..][i - 1]; }
        }
      }
    }
  }

  lemma ImportExact(lang: Language, stmt: TopLevel)
    requires stmt.Import? || stmt.ImportFrom?
    ensures var r := ParseImport(lang, stmt);
      (r.Success? <==> ImportLegal(lang, stmt)) && (r.Success? ==> forall b :: b in r.value <==> exists a :: Binds(stmt, a, b))
  {
    hide ParseAliases, AliasLegal;
    match stmt
    case Import(aliases) =>
      AliasesExact(lang, None, aliases);
      AliasesBind(lang, None, stmt);
    case ImportFrom(level, source, aliases) =>
      if source.Some? && source.value in lang.modules && source.value != "__future__" {
        AliasesExact(lang, source, aliases);
        AliasesBind(lang, source, stmt);
      }
  }

  lemma AliasesBind(lang: Language, source: Option<string>, stmt: TopLevel)
    requires (stmt.Import? && source.None?) || (stmt.ImportFrom? && source.Some? && stmt.source == source)
    requires source.Some? ==> source.value in lang.modules && source.value != "__future__"
    ensures var r := ParseAliases(lang, source, stmt.aliases);
      r.Success? ==> forall b :: b in r.value <==> exists a :: Binds(stmt, a, b)
  {
    hide ParseAliases;
    AliasesExact(lang, source, stmt.aliases);
    var r := ParseAliases(lang, source, stmt.aliases);
    if r.Success? {
      forall b ensures b in r.value <==> exists a :: Binds(stmt, a, b) {
        if b in r.value {
          var i :| 0 <= i < |r.value| && r.value[i] == b;
          assert Binds(stmt, stmt.aliases[i], b);
        }
        if a :| Binds(stmt, a, b) {
          var i :| 0 <= i < |stmt.aliases| && stmt.aliases[i] == a;
          assert r.value[i] == b;
        }
      }
    }
  }

  /** The imports that pass, and exactly the bindings they give. */
  lemma {:induction false} ImportsExactly(lang: Language, stmts: seq<TopLevel>)
    ensures var r := ParseImports(lang, stmts);
      && (r.Success? <==> forall stmt | stmt in stmts :: ImportLegal(lang, stmt))
      && (r.Success? ==> forall b :: b in r.value <==> exists stmt, a :: stmt in stmts && Binds(stmt, a, b))
  {
    hide ImportLegal, ParseImport;
    if stmts != [] {
      assert forall stmt | stmt in stmts :: stmt == stmts[0] || stmt in stmts[1..];
      ImportsExactly(lang, stmts[1..]);
      if stmts[0].Import? || stmts[0].ImportFrom? {
        ImportExact(lang, stmts[0]);
        var r := ParseImports(lang, stmts);
        if r.Success? {
          forall b ensures b in r.value <==> exists stmt, a :: stmt in stmts && Binds(stmt, a, b) {
            if b in ParseImport(lang, stmts[0]).value {
              var a :| Binds(stmts[0], a, b);
              assert stmts[0] in stmts && Binds(stmts[0], a, b);
            }
          }
        }
      } else {
        OtherIsIllegal(lang, stmts[0]);
      }
    }
  }

  lemma OtherIsIllegal(lang: Language, stmt: TopLevel)
    requires !stmt.Import? && !stmt.ImportFrom?
    ensures !ImportLegal(lang, stmt)
  {
  }

  lemma {:induction false} TableNames(bindings: seq<Binding>, n: string)
    ensures n in BindingTable(bindings) <==> exists c | c in bindings :: c.name == n
  {
    if bindings != [] {
      var init, last := bindings[..|bindings| - 1], bindings[|bindings| - 1];
      TableNames(init, n);
      assert bindings == init + [last] && last in bindings;
      assert forall c | c in bindings :: c in init || c == last;
    }
  }

  /** With distinct names, the table holds exactly the bindings. */
  lemma {:induction false} TableHoldsBindings(bindings: seq<Binding>, b: Binding)
    requires DistinctNames(bindings)
    ensures b in bindings <==> b.name in BindingTable(bindings) && BindingTable(bindings)[b.name] == b.capability
  {
    if bindings != [] {
      var init, last := bindings[..|bindings| - 1], bindings[|bindings| - 1];
      TableHoldsBindings(init, b);
      assert bindings == init + [last];
      NoneBefore(bindings);
    }
  }

  lemma NoneBefore(bindings: seq<Binding>)
    requires bindings != [] && DistinctNames(bindings)
    ensures forall c | c in bindings[..|bindings| - 1] :: c.name != bindings[|bindings| - 1].name
  {
    forall c | c in bindings[..|bindings| - 1] ensures c.name != bindings[|bindings| - 1].name {
      var i :| 0 <= i < |bindings| - 1 && bindings[i] == c;
    }
  }

  // ---- Whole sources ----

  /** The statements behind the docstring of a module, if it has one. */
  function Statements(tree: seq<TopLevel>): seq<TopLevel> {
    if |tree| > 0 && tree[0] == Docstring then tree[1..] else tree
  }

  /** The source has this one definition, behind legal imports that bind different names, and nothing else. */
  ghost predicate HasShape(lang: Language, tree: seq<TopLevel>, bindings: seq<Binding>, f: Function) {
    var stmts := Statements(tree);
    && |stmts| > 0 && stmts[|stmts| - 1] == Def(f)
    && (forall stmt | stmt in stmts[..|stmts| - 1] :: ImportLegal(lang, stmt))
    && ParseImports(lang, stmts[..|stmts| - 1]) == Success(bindings)
    && forall i, j | 0 <= i < j < |bindings| :: bindings[i].name != bindings[j].name
  }

  /**
   * A source is accepted exactly if it has that shape, its definition is named as asked and by a public identifier, and
   * the function is acceptable with those bindings.
   */
  lemma SourceAcceptedExactly(lang: Language, tree: seq<TopLevel>, entrypoint: Option<string>)
    ensures (exists draft :: IsDraft(lang, tree, entrypoint, draft)) <==>
      exists bindings, f ::
        && HasShape(lang, tree, bindings, f)
        && lang.isIdentifier(f.name) && !StartsWithUnderscore(f.name) && (entrypoint.Some? ==> f.name == entrypoint.value)
        && Acceptable(ScopeOf(lang, BindingTable(bindings), f), f)
  {
    hide Acceptable, ValidateFunction, ImportLegal, ParseImports;
    var stmts := Statements(tree);
    if |stmts| > 0 && stmts[|stmts| - 1].Def? {
      var f := stmts[|stmts| - 1].definition;
      ImportsExactly(lang, stmts[..|stmts| - 1]);
      if ParseImports(lang, stmts[..|stmts| - 1]).Success? {
        var bindings := ParseImports(lang, stmts[..|stmts| - 1]).value;
        AcceptedExactly(ScopeOf(lang, BindingTable(bindings), f), f);
        var draft := ValidatedDraft(f.name, bindings, f.(annotations := []));
        assert IsDraft(lang, tree, entrypoint, draft) <==>
          && DistinctNames(bindings) && IsSafeIdentifier(lang, f.name) && (entrypoint.None? || entrypoint.value == f.name)
          && ValidateFunction(ScopeOf(lang, BindingTable(bindings), f), f).Success?;
        if IsDraft(lang, tree, entrypoint, draft) { assert HasShape(lang, tree, bindings, f); }
      }
    }
  }

  /** The definition without anything that could run besides its body. */
  predicate IsStripped(execution: Function, f: Function) {
    && execution.name == f.name && execution.body == f.body
    && execution.arguments == Arguments(["inputs", "ctx"], true)
    && execution.decorators == [] && execution.typeParameters == [] && execution.annotations == []
  }

  /** What is returned: the name, the bindings of the imports, and the definition with nothing but its body to execute. */
  lemma DraftHolds(lang: Language, tree: seq<TopLevel>, entrypoint: Option<string>, draft: ValidatedDraft)
    requires IsDraft(lang, tree, entrypoint, draft)
    ensures exists f :: HasShape(lang, tree, draft.bindings, f) && draft.entrypoint == f.name && IsStripped(draft.execution, f)
  {
    hide ImportLegal, ParseImports;
    var stmts := Statements(tree);
    ImportsExactly(lang, stmts[..|stmts| - 1]);
    assert HasShape(lang, tree, draft.bindings, stmts[|stmts| - 1].definition);
  }
}
