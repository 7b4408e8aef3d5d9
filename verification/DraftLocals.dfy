/** The local names of an accepted function are the names its text stores to. */
module DraftLocals {
  import opened Prelude
  import opened DraftSyntax
  import opened DraftRules
  import opened DraftCoverage

  /** Some assignment target among the fragments stores to the name. */
  ghost predicate StoredIn(xs: set<Fragment>, n: string) {
    exists x :: x in xs && x.Target? && n in TargetNames(x.t)
  }

  /** No fragment is of a kind that is never accepted, which may store to names of its own. */
  ghost predicate NoOther(xs: set<Fragment>) {
    forall x | x in xs :: !(x.Expression? && x.e.OtherExpr?)
  }

  lemma StoredInUnion(a: set<Fragment>, b: set<Fragment>, n: string)
    ensures StoredIn(a + b, n) <==> StoredIn(a, n) || StoredIn(b, n)
  {
    forall x | x in a || x in b ensures x in a + b { }
  }

  /** An expression that is no target adds nothing to what its parts store. */
  lemma JoinLocals(e: Expr, xs: set<Fragment>, ys: set<Fragment>, a: set<string>, b: set<string>, n: string)
    requires (n in a <==> StoredIn(xs, n)) && (n in b <==> StoredIn(ys, n))
    ensures n in a + b <==> StoredIn({Expression(e)} + (xs + ys), n)
    ensures n in a <==> StoredIn({Expression(e)} + xs, n)
  {
    StoredInUnion(xs, ys, n);
    StoredInUnion({Expression(e)}, xs + ys, n);
    StoredInUnion({Expression(e)}, xs, n);
  }

  lemma {:induction false} ExprLocals(e: Expr, n: string)
    requires NoOther(Parts(e))
    ensures n in ComprehensionNames(e) <==> StoredIn(Parts(e), n)
    decreases e, 1
  {
    assert Expression(e) in Parts(e);
    match e
    case Display(items) => AllLocals(items, n); JoinLocals(e, PartsOf(items), {}, ComprehensionNamesOf(items), {}, n);
    case Dict(entries, _) =>
      AllLocals(entries, n);
      JoinLocals(e, PartsOf(entries), {}, ComprehensionNamesOf(entries), {}, n);
    case BinOp(_, left, right) =>
      ExprLocals(left, n);
      ExprLocals(right, n);
      JoinLocals(e, Parts(left), Parts(right), ComprehensionNames(left), ComprehensionNames(right), n);
    case UnaryOp(_, operand) => ExprLocals(operand, n); JoinLocals(e, Parts(operand), {}, ComprehensionNames(operand), {}, n);
    case BoolOp(values) => AllLocals(values, n); JoinLocals(e, PartsOf(values), {}, ComprehensionNamesOf(values), {}, n);
    case Compare(_, first, comparators) =>
      ExprLocals(first, n);
      AllLocals(comparators, n);
      JoinLocals(e, Parts(first), PartsOf(comparators), ComprehensionNames(first), ComprehensionNamesOf(comparators), n);
    case IfExp(test, body, orelse) =>
      ExprLocals(test, n);
      ExprLocals(body, n);
      ExprLocals(orelse, n);
      StoredInUnion(Parts(test), Parts(body), n);
      JoinLocals(e, Parts(test) + Parts(body), Parts(orelse), ComprehensionNames(test) + ComprehensionNames(body),
                 ComprehensionNames(orelse), n);
    case Subscript(base, index) =>
      ExprLocals(base, n);
      ExprLocals(index, n);
      JoinLocals(e, Parts(base), Parts(index), ComprehensionNames(base), ComprehensionNames(index), n);
    case Slice(bounds) => AllLocals(bounds, n); JoinLocals(e, PartsOf(bounds), {}, ComprehensionNamesOf(bounds), {}, n);
    case Attribute(value, _) => ExprLocals(value, n); JoinLocals(e, Parts(value), {}, ComprehensionNames(value), {}, n);
    case Call(func, args, _) =>
      ExprLocals(func, n);
      AllLocals(args, n);
      JoinLocals(e, Parts(func), PartsOf(args), ComprehensionNames(func), ComprehensionNamesOf(args), n);
    case Comprehension(_, generators, elements) =>
      GeneratorsLocals(generators, n);
      AllLocals(elements, n);
      JoinLocals(e, GeneratorParts(generators), PartsOf(elements), GeneratorNames(generators),
                 ComprehensionNamesOf(elements), n);
    case _ =>
  }

  lemma {:induction false} AllLocals(es: seq<Expr>, n: string)
    requires NoOther(PartsOf(es))
    ensures n in ComprehensionNamesOf(es) <==> StoredIn(PartsOf(es), n)
    decreases es, 0
  {
    if es != [] {
      ExprLocals(es[0], n);
      AllLocals(es[1..], n);
      StoredInUnion(Parts(es[0]), PartsOf(es[1..]), n);
    }
  }

  lemma TargetStores(target: Expr, n: string)
    ensures n in TargetNames(target) <==> StoredIn({Target(target)}, n)
  {
    assert n in TargetNames(target) ==> Target(target) in {Target(target)};
  }

  lemma {:induction false} GeneratorsLocals(gs: seq<Generator>, n: string)
    requires NoOther(GeneratorParts(gs))
    ensures n in GeneratorNames(gs) <==> StoredIn(GeneratorParts(gs), n)
    decreases gs, 0
  {
    if gs != [] {
      var g, a := gs[0], {Target(gs[0].target)} + Parts(gs[0].iter);
      TargetStores(g.target, n);
      ExprLocals(g.iter, n);
      AllLocals(g.conditions, n);
      GeneratorsLocals(gs[1..], n);
      StoredInUnion({Target(g.target)}, Parts(g.iter), n);
      StoredInUnion(a, PartsOf(g.conditions), n);
      StoredInUnion(a + PartsOf(g.conditions), GeneratorParts(gs[1..]), n);
    }
  }

  lemma {:induction false} StmtLocals(stmt: Stmt, n: string)
    requires NoOther(StmtParts(stmt))
    ensures n in AssignedNames(stmt) + InnerNames(stmt) <==> StoredIn(StmtParts(stmt), n)
    decreases stmt, 1
  {
    match stmt
    case Assign(targets, value) =>
      var ts := set t | t in targets :: Target(t);
      ExprLocals(value, n);
      assert n in TargetNames(Display(targets)) <==> StoredIn(ts, n) by {
        forall t | t in targets ensures Target(t) in ts { }
      }
      StoredInUnion(ts, Parts(value), n);
    case AugAssign(target, _, value) =>
      TargetStores(target, n);
      ExprLocals(value, n);
      StoredInUnion({Target(target)}, Parts(value), n);
    case Return(Some(value)) => ExprLocals(value, n);
    case If(test, body, orelse) =>
      ExprLocals(test, n);
      BlockLocals(body, n);
      BlockLocals(orelse, n);
      StoredInUnion(Parts(test), BlockParts(body), n);
      StoredInUnion(Parts(test) + BlockParts(body), BlockParts(orelse), n);
    case For(target, iter, body, orelse) =>
      var a := {Target(target)} + Parts(iter);
      TargetStores(target, n);
      ExprLocals(iter, n);
      BlockLocals(body, n);
      BlockLocals(orelse, n);
      StoredInUnion({Target(target)}, Parts(iter), n);
      StoredInUnion(a, BlockParts(body), n);
      StoredInUnion(a + BlockParts(body), BlockParts(orelse), n);
    case Assert(test, None) => ExprLocals(test, n);
    case Assert(test, Some(message)) =>
      ExprLocals(test, n);
      ExprLocals(message, n);
      StoredInUnion(Parts(test), Parts(message), n);
    case ExprStmt(value) => ExprLocals(value, n);
    case _ =>
  }

  lemma {:induction false} BlockLocals(stmts: seq<Stmt>, n: string)
    requires NoOther(BlockParts(stmts))
    ensures n in AssignedNamesOf(stmts) + InnerNamesOf(stmts) <==> StoredIn(BlockParts(stmts), n)
    decreases stmts, 0
  {
    hide AssignedNames, InnerNames, StmtParts;
    if stmts != [] {
      StmtLocals(stmts[0], n);
      BlockLocals(stmts[1..], n);
      StoredInUnion(StmtParts(stmts[0]), BlockParts(stmts[1..]), n);
    }
  }

  /** The locals of an accepted function: what targets anywhere in the body store to, and what annotations store to. */
  lemma LocalsAreStored(lang: Language, bindings: map<string, Capability>, f: Function, n: string)
    requires ValidateFunction(ScopeOf(lang, bindings, f), f).Success?
    ensures n in ScopeOf(lang, bindings, f).locals <==>
            StoredIn(BlockParts(f.body), n) || n in ComprehensionNamesOf(f.annotations)
  {
    var s := ScopeOf(lang, bindings, f);
    AcceptedIsCovered(s, f);
    assert NoOther(BlockParts(f.body)) by {
      forall x | x in BlockParts(f.body) ensures !(x.Expression? && x.e.OtherExpr?) { assert FragmentLegal(s, x); }
    }
    BlockLocals(f.body, n);
  }
}
