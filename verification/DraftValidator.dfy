/** The validator in the form the program runs: one object whose tables change while it walks the tree. */
module DraftValidator {
  import opened Prelude
  import opened DraftSyntax
  import opened DraftRules

  /** A record appended to the log updates the table of capabilities in place. */
  lemma RecordedAppend(log: Log, r: Record)
    ensures Recorded(log + [r]) == Recorded(log)[r.name := r.capability]
  {
    assert (log + [r])[..|log|] == log;
  }

  class FunctionValidator {
    const scope: Scope
    var localCapabilities: map<string, Option<Capability>>
    var loopDepth: nat
    ghost var log: Log

    /** The table always holds the last record of each name. */
    ghost predicate Valid()
      reads this
    {
      localCapabilities == Recorded(log)
    }

    constructor (scope: Scope)
      ensures Valid() && this.scope == scope && log == [] && loopDepth == 0
    {
      this.scope := scope;
      localCapabilities, loopDepth, log := map[], 0, [];
    }

    method CapabilityFor(e: Expr) returns (r: Result<Option<Capability>>)
      requires Valid()
      modifies this
      ensures r.Success? <==> CapabilityOf(scope, e, old(log)).Success?
      ensures r.Success? ==> Valid() && loopDepth == old(loopDepth) && CapabilityOf(scope, e, old(log)) == Success((r.value, log))
      decreases e, 0
    {
      match e
      case Name(id) =>
        if id == "inputs" { return Success(Some(Inputs)); }
        if id == "ctx" { return Success(Some(Context)); }
        if id in localCapabilities { return Success(localCapabilities[id]); }
        return Success(if id in scope.bindings then Some(scope.bindings[id]) else None);
      case Attribute(value, attr) =>
        var member := MemberOfAttribute(value, attr);
        if member.Failure? { return Failure; }
        return Success(ResultCapability(member.value));
      case Call(func, _, _) =>
        var member := MemberOfCall(func);
        if member.Failure? { return Failure; }
        return Success(ResultCapability(member.value));
      case _ => return Success(None);
    }

    method MemberOfAttribute(receiver: Expr, attr: string) returns (r: Result<Member>)
      requires Valid()
      modifies this
      ensures r.Success? <==> AttributeMember(scope, receiver, attr, old(log)).Success?
      ensures r.Success? ==> Valid() && loopDepth == old(loopDepth) && AttributeMember(scope, receiver, attr, old(log)) == Success((r.value, log))
      decreases receiver, 1
    {
      if IsPrivate(attr) { return Failure; }
      var c := CapabilityFor(receiver);
      if c.Failure? { return Failure; }
      var member := ExposedMember(scope.lang, c.value, attr);
      return if member.None? then Failure else Success(member.value);
    }

    method MemberOfCall(func: Expr) returns (r: Result<Member>)
      requires Valid()
      modifies this
      ensures r.Success? <==> CallMember(scope, func, old(log)).Success?
      ensures r.Success? ==> Valid() && loopDepth == old(loopDepth) && CallMember(scope, func, old(log)) == Success((r.value, log))
      decreases func, 2
    {
      match func
      case Name(id) =>
        if !NameAllowed(scope, id) { return Failure; }
        if id in scope.lang.builtins { return Success(Member(Callable, None)); }
        var c := CapabilityFor(func);
        if c == Success(None) || !c.value.value.Symbol? { return Failure; }
        var member := SymbolMember(scope.lang, c.value.value.source, c.value.value.member);
        return if member.None? then Failure else Success(member.value);
      case Attribute(value, attr) =>
        var member := MemberOfAttribute(value, attr);
        if member.Failure? { return Failure; }
        var ok := VisitExpr(value);
        return if ok then member else Failure;
      case _ => return Failure;
    }

    method VisitExpr(e: Expr) returns (ok: bool)
      requires Valid()
      modifies this
      ensures ok <==> Visit(scope, e, old(log)).Success?
      ensures ok ==> Valid() && loopDepth == old(loopDepth) && Visit(scope, e, old(log)) == Success(log)
      decreases e, 3
    {
      hide Valid, AttributeMember, CallMember, CapabilityOf, VisitAll, VisitGenerators, NameAllowed, IsImported;
      match e
      case Name(id) => ok := NameAllowed(scope, id);
      case Constant(isJsonScalar) => ok := isJsonScalar;
      case Display(items) => ok := VisitItems(items);
      case Dict(entries, unpacks) => if unpacks { ok := false; } else { ok := VisitItems(entries); }
      case BinOp(binary, left, right) =>
        if binary !in BINARY_OPERATORS { return false; }
        ok := VisitExpr(left);
        if ok { ok := VisitExpr(right); }
      case UnaryOp(unary, operand) => if unary in UNARY_OPERATORS { ok := VisitExpr(operand); } else { ok := false; }
      case BoolOp(values) => ok := VisitItems(values);
      case Compare(comparisons, first, comparators) =>
        if exists c | c in comparisons :: c !in COMPARISONS { return false; }
        ok := VisitExpr(first);
        if ok { ok := VisitItems(comparators); }
      case IfExp(test, body, orelse) =>
        ok := VisitExpr(test);
        if ok { ok := VisitExpr(body); }
        if ok { ok := VisitExpr(orelse); }
      case Subscript(base, index) =>
        var c := CapabilityFor(base);
        if c.Failure? || IsImported(c.value) { return false; }
        ok := VisitExpr(base);
        if ok { ok := VisitExpr(index); }
      case Slice(bounds) => ok := VisitItems(bounds);
      case Attribute(value, attr) =>
        var member := MemberOfAttribute(value, attr);
        if member.Failure? { return false; }
        ok := VisitExpr(value);
      case Call(func, args, unpacks) =>
        var member := MemberOfCall(func);
        if member.Failure? || !member.value.kind.Callable? || unpacks { return false; }
        ok := VisitItems(args);
      case Comprehension(_, generators, elements) =>
        ok := VisitComprehension(generators);
        if ok { ok := VisitItems(elements); }
      case OtherExpr(_) => ok := false;
    }

    method VisitItems(es: seq<Expr>) returns (ok: bool)
      requires Valid()
      modifies this
      ensures ok <==> VisitAll(scope, es, old(log)).Success?
      ensures ok ==> Valid() && loopDepth == old(loopDepth) && VisitAll(scope, es, old(log)) == Success(log)
      decreases es, 0
    {
      for i := 0 to |es|
        invariant Valid() && loopDepth == old(loopDepth)
        invariant VisitAll(scope, es, old(log)) == VisitAll(scope, es[i..], log)
      {
        var visited := VisitExpr(es[i]);
        if !visited { return false; }
        assert es[i..][1..] == es[i + 1..];
      }
      return true;
    }

    method VisitComprehension(gs: seq<Generator>) returns (ok: bool)
      requires Valid()
      modifies this
      ensures ok <==> VisitGenerators(scope, gs, old(log)).Success?
      ensures ok ==> Valid() && loopDepth == old(loopDepth) && VisitGenerators(scope, gs, old(log)) == Success(log)
      decreases gs, 0
    {
      for i := 0 to |gs|
        invariant Valid() && loopDepth == old(loopDepth)
        invariant VisitGenerators(scope, gs, old(log)) == VisitGenerators(scope, gs[i..], log)
      {
        if gs[i].isAsync { return false; }
        var visited := VisitExpr(gs[i].iter);
        if !visited || !TargetAllowed(scope, gs[i].target) { return false; }
        RecordAssignment(gs[i].target, None);
        visited := VisitItems(gs[i].conditions);
        if !visited { return false; }
        assert gs[i..][1..] == gs[i + 1..];
      }
      return true;
    }

    method RecordAssignment(target: Expr, c: Option<Capability>)
      requires Valid()
      modifies this
      ensures Valid() && loopDepth == old(loopDepth) && log == RecordTarget(target, c, old(log))
      decreases target
    {
      match target
      case Name(id) =>
        RecordedAppend(log, Record(id, c));
        localCapabilities, log := localCapabilities[id := c], log + [Record(id, c)];
      case Display(items) =>
        for i := 0 to |items|
          invariant Valid() && loopDepth == old(loopDepth)
          invariant RecordItems(items, old(log)) == RecordItems(items[i..], log)
        {
          RecordAssignment(items[i], None);
          assert items[i..][1..] == items[i + 1..];
        }
      case _ =>
    }

    method Assign(targets: seq<Expr>, c: Option<Capability>) returns (ok: bool)
      requires Valid()
      modifies this
      ensures ok <==> AssignTargets(scope, targets, c, old(log)).Success?
      ensures ok ==> Valid() && loopDepth == old(loopDepth) && AssignTargets(scope, targets, c, old(log)) == Success(log)
    {
      for i := 0 to |targets|
        invariant Valid() && loopDepth == old(loopDepth)
        invariant AssignTargets(scope, targets, c, old(log)) == AssignTargets(scope, targets[i..], c, log)
      {
        if !TargetAllowed(scope, targets[i]) { return false; }
        RecordAssignment(targets[i], c);
        assert targets[i..][1..] == targets[i + 1..];
      }
      return true;
    }

    method VisitStatement(stmt: Stmt) returns (ok: bool)
      requires Valid()
      modifies this
      ensures ok <==> VisitStmt(scope, stmt, old(loopDepth), old(log)).Success?
      ensures ok ==> Valid() && loopDepth == old(loopDepth) && VisitStmt(scope, stmt, old(loopDepth), old(log)) == Success(log)
      decreases stmt, 1
    {
      hide Visit, VisitBlock, CapabilityOf, AssignTargets, RecordTarget, TargetAllowed;
      match stmt
      case Assign(targets, value) =>
        ok := VisitExpr(value);
        if ok {
          var c := CapabilityFor(value);
          if c.Failure? { return false; }
          ok := Assign(targets, c.value);
        }
      case AugAssign(target, operator, value) =>
        if operator !in BINARY_OPERATORS || !TargetAllowed(scope, target) { return false; }
        ok := VisitExpr(value);
        if ok { RecordAssignment(target, None); }
      case Return(result) => if result.None? { ok := false; } else { ok := VisitExpr(result.value); }
      case If(test, body, orelse) =>
        ok := VisitExpr(test);
        if ok { ok := VisitStatements(body); }
        if ok { ok := VisitStatements(orelse); }
      case For(target, iter, body, orelse) =>
        ok := VisitExpr(iter);
        if !ok || !TargetAllowed(scope, target) { return false; }
        RecordAssignment(target, None);
        loopDepth := loopDepth + 1;
        ok := VisitStatements(body);
        if ok { ok := VisitStatements(orelse); }
        if ok { loopDepth := loopDepth - 1; }
      case Break => ok := loopDepth != 0;
      case Continue => ok := loopDepth != 0;
      case Pass => ok := true;
      case Assert(test, message) =>
        ok := VisitExpr(test);
        if ok && message.Some? { ok := VisitExpr(message.value); }
      case _ => ok := false;
    }

    method VisitStatements(stmts: seq<Stmt>) returns (ok: bool)
      requires Valid()
      modifies this
      ensures ok <==> VisitBlock(scope, stmts, old(loopDepth), old(log)).Success?
      ensures ok ==> Valid() && loopDepth == old(loopDepth) && VisitBlock(scope, stmts, old(loopDepth), old(log)) == Success(log)
      decreases stmts, 0
    {
      for i := 0 to |stmts|
        invariant Valid() && loopDepth == old(loopDepth)
        invariant VisitBlock(scope, stmts, loopDepth, old(log)) == VisitBlock(scope, stmts[i..], loopDepth, log)
      {
        var visited := VisitStatement(stmts[i]);
        if !visited { return false; }
        assert stmts[i..][1..] == stmts[i + 1..];
      }
      return true;
    }

    method Validate(f: Function) returns (ok: bool)
      requires Valid() && log == [] && loopDepth == 0
      modifies this
      ensures ok <==> ValidateFunction(scope, f).Success?
      ensures ok ==> Valid() && ValidateFunction(scope, f) == Success(log)
    {
      if !SignatureAllowed(scope, f) { return false; }
      ok := VisitStatements(SkipDocstring(f.body));
    }
  }

  // ---- The whole source ----

  datatype Binding = Binding(name: string, capability: Capability)
  datatype ValidatedDraft = ValidatedDraft(entrypoint: string, bindings: seq<Binding>, execution: Function)

  /** One imported name: `module:m` for a plain import, `symbol:m.x` for a member of a module. */
  function ParseAlias(lang: Language, source: Option<string>, alias: Alias): Result<Binding> {
    var name := if alias.asName.Some? then alias.asName.value else alias.name;
    if !IsSafeIdentifier(lang, name) then Failure
    else if source.None? then
      (if alias.name in lang.modules then Success(Binding(name, Module(alias.name))) else Failure)
    else if source.value in lang.modules && alias.name in lang.modules[source.value] then
      Success(Binding(name, Symbol(source.value, alias.name)))
    else Failure
  }

  function ParseAliases(lang: Language, source: Option<string>, aliases: seq<Alias>): Result<seq<Binding>> {
    if aliases == [] then Success([])
    else
      var first :- ParseAlias(lang, source, aliases[0]);
      var rest :- ParseAliases(lang, source, aliases[1..]);
      Success([first] + rest)
  }

  function ParseImport(lang: Language, stmt: TopLevel): Result<seq<Binding>>
    requires stmt.Import? || stmt.ImportFrom?
  {
    match stmt
    case Import(aliases) => ParseAliases(lang, None, aliases)
    case ImportFrom(level, source, aliases) =>
      if level != 0 || source.None? || source.value == "" then Failure
      else if source.value == "__future__" then
        (if aliases == [Alias("annotations", None)] then Success([]) else Failure)
      else if source.value !in lang.modules then Failure
      else ParseAliases(lang, source, aliases)
  }

  /** The bindings of a run of imports, in order. */
  function ParseImports(lang: Language, stmts: seq<TopLevel>): Result<seq<Binding>> {
    if stmts == [] then Success([])
    else if !stmts[0].Import? && !stmts[0].ImportFrom? then Failure
    else
      var first :- ParseImport(lang, stmts[0]);
      var rest :- ParseImports(lang, stmts[1..]);
      Success(first + rest)
  }

  function BindingTable(bindings: seq<Binding>): map<string, Capability> {
    if bindings == [] then map[]
    else BindingTable(bindings[..|bindings| - 1])[bindings[|bindings| - 1].name := bindings[|bindings| - 1].capability]
  }

  predicate DistinctNames(bindings: seq<Binding>) {
    forall i, j | 0 <= i < j < |bindings| :: bindings[i].name != bindings[j].name
  }

  function SkipModuleDocstring(tree: seq<TopLevel>): seq<TopLevel> {
    if tree != [] && tree[0].Docstring? then tree[1..] else tree
  }

  /** Imports followed by one definition, which is the last statement. */
  function Split(lang: Language, tree: seq<TopLevel>): Result<(seq<Binding>, Function)> {
    var stmts := SkipModuleDocstring(tree);
    if stmts == [] || !stmts[|stmts| - 1].Def? then Failure
    else
      var bindings :- ParseImports(lang, stmts[..|stmts| - 1]);
      Success((bindings, stmts[|stmts| - 1].definition))
  }

  /** The sources Draft Language v1 consists of: imports, then one valid entrypoint, and nothing else. */
  ghost predicate IsDraft(lang: Language, tree: seq<TopLevel>, entrypoint: Option<string>, draft: ValidatedDraft) {
    && Split(lang, tree).Success?
    && var (bindings, f) := Split(lang, tree).value;
       && draft == ValidatedDraft(f.name, bindings, f.(annotations := []))
       && (entrypoint.None? || entrypoint.value == f.name)
       && IsSafeIdentifier(lang, f.name) && DistinctNames(bindings)
       && ValidateFunction(ScopeOf(lang, BindingTable(bindings), f), f).Success?
  }

  lemma {:induction false} ParseImportsAppend(lang: Language, stmts: seq<TopLevel>, next: TopLevel)
    ensures ParseImports(lang, stmts + [next]) ==
            if ParseImports(lang, stmts).Failure? || !(next.Import? || next.ImportFrom?) || ParseImport(lang, next).Failure?
            then Failure
            else Success(ParseImports(lang, stmts).value + ParseImport(lang, next).value)
  {
    if stmts != [] {
      assert (stmts + [next])[1..] == stmts[1..] + [next];
      ParseImportsAppend(lang, stmts[1..], next);
      if (stmts[0].Import? || stmts[0].ImportFrom?) && ParseImport(lang, stmts[0]).Success?
        && ParseImports(lang, stmts + [next]).Success? {
        var first, rest := ParseImport(lang, stmts[0]).value, ParseImports(lang, stmts[1..]).value;
        assert first + (rest + ParseImport(lang, next).value) == first + rest + ParseImport(lang, next).value;
      }
    } else {
      assert ParseImports(lang, [next][1..]) == Success([]) && stmts + [next] == [next];
      if (next.Import? || next.ImportFrom?) && ParseImport(lang, next).Success? {
        assert ParseImport(lang, next).value + [] == [] + ParseImport(lang, next).value;
      }
    }
  }

  lemma {:induction false} ParseImportsPrefix(lang: Language, stmts: seq<TopLevel>, n: nat)
    requires n <= |stmts| && ParseImports(lang, stmts[..n]).Failure?
    ensures ParseImports(lang, stmts).Failure?
    decreases |stmts| - n
  {
    if n < |stmts| {
      assert stmts[..n + 1] == stmts[..n] + [stmts[n]];
      ParseImportsAppend(lang, stmts[..n], stmts[n]);
      ParseImportsPrefix(lang, stmts, n + 1);
    } else {
      assert stmts[..n] == stmts;
    }
  }

  lemma BadPrefix(lang: Language, stmts: seq<TopLevel>, n: nat)
    requires n <= |stmts| && ParseImports(lang, stmts[..n]).Failure? && !stmts[n - 1].Def?
    requires n > 0
    ensures stmts[|stmts| - 1].Def? ==> ParseImports(lang, stmts[..|stmts| - 1]).Failure?
  {
    if stmts[|stmts| - 1].Def? {
      assert stmts[..|stmts| - 1][..n] == stmts[..n];
      ParseImportsPrefix(lang, stmts[..|stmts| - 1], n);
    }
  }

  lemma DefEndsDraft(lang: Language, stmts: seq<TopLevel>, n: nat)
    requires n + 1 < |stmts| && stmts[n].Def?
    ensures ParseImports(lang, stmts[..|stmts| - 1]).Failure?
  {
    assert stmts[..n + 1] == stmts[..n] + [stmts[n]];
    ParseImportsAppend(lang, stmts[..n], stmts[n]);
    assert stmts[..|stmts| - 1][..n + 1] == stmts[..n + 1];
    ParseImportsPrefix(lang, stmts[..|stmts| - 1], n + 1);
  }

  lemma ParseImportsLast(lang: Language, stmts: seq<TopLevel>)
    requires stmts != [] && ParseImports(lang, stmts).Success?
    ensures !stmts[|stmts| - 1].Def?
  {
    assert stmts == stmts[..|stmts| - 1] + [stmts[|stmts| - 1]];
    ParseImportsAppend(lang, stmts[..|stmts| - 1], stmts[|stmts| - 1]);
  }

  /** The statement loop: bindings accumulate until the one definition. */
  method SplitSource(lang: Language, tree: seq<TopLevel>) returns (r: Result<(seq<Binding>, Function)>)
    ensures r == Split(lang, tree)
  {
    var bindings: seq<Binding> := [];
    var f: Option<Function> := None;
    var stmts := SkipModuleDocstring(tree);
    for n := 0 to |stmts|
      invariant f.None? ==> ParseImports(lang, stmts[..n]) == Success(bindings)
      invariant f.Some? ==> n > 0 && stmts[n - 1] == Def(f.value) && ParseImports(lang, stmts[..n - 1]) == Success(bindings)
    {
      assert stmts[..n + 1] == stmts[..n] + [stmts[n]];
      ParseImportsAppend(lang, stmts[..n], stmts[n]);
      if f.Some? {
        DefEndsDraft(lang, stmts, n - 1);
        return Failure;
      } else if stmts[n].Import? || stmts[n].ImportFrom? {
        var parsed := ParseImport(lang, stmts[n]);
        if parsed.Failure? {
          BadPrefix(lang, stmts, n + 1);
          return Failure;
        }
        bindings := bindings + parsed.value;
      } else if stmts[n].Def? {
        f := Some(stmts[n].definition);
      } else {
        BadPrefix(lang, stmts, n + 1);
        return Failure;
      }
    }
    assert stmts[..|stmts|] == stmts;
    if f.None? {
      if stmts != [] { ParseImportsLast(lang, stmts); }
      return Failure;
    }
    return Success((bindings, f.value));
  }

  /** Accepts exactly the sources of the language, and returns their parts. */
  method ValidateDraftSource(lang: Language, tree: seq<TopLevel>, entrypoint: Option<string>)
    returns (r: Result<ValidatedDraft>)
    ensures r.Success? ==> IsDraft(lang, tree, entrypoint, r.value)
    ensures r.Failure? ==> !exists draft :: IsDraft(lang, tree, entrypoint, draft)
  {
    var parts := SplitSource(lang, tree);
    if parts.Failure? { return Failure; }
    var (bindings, f) := parts.value;
    if (entrypoint.Some? && f.name != entrypoint.value) || !IsSafeIdentifier(lang, f.name) || !DistinctNames(bindings) {
      return Failure;
    }
    var validator := new FunctionValidator(ScopeOf(lang, BindingTable(bindings), f));
    var ok := validator.Validate(f);
    return if ok then Success(ValidatedDraft(f.name, bindings, f.(annotations := []))) else Failure;
  }
}
