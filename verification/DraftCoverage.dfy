/** What acceptance guarantees about the text of a draft, wherever its parts occur. */
module DraftCoverage {
  import opened Prelude
  import opened DraftSyntax
  import opened DraftRules

  /** Some member table, for context, inputs, modules or instances, lists the attribute. */
  ghost predicate InSomeTable(lang: Language, attr: string) {
    exists c :: ExposedMember(lang, Some(c), attr).Some?
  }

  predicate StartsWithUnderscore(name: string) {
    |name| > 0 && name[0] == '_'
  }

  /** Assignments store to plain locals, or to displays of them. */
  predicate TargetLegal(s: Scope, target: Expr) {
    match target
    case Name(id) => s.lang.isIdentifier(id) && !StartsWithUnderscore(id) && id in s.locals
    case Display(items) => forall t | t in items :: TargetLegal(s, t)
    case _ => false
  }

  /** A name resolves to something the worker provides. */
  predicate NameLegal(s: Scope, id: string) {
    && s.lang.isIdentifier(id) && !StartsWithUnderscore(id)
    && (id == "inputs" || id == "ctx" || id in s.locals || id in s.bindings || id in s.lang.builtins)
  }

  /**
   * What each kind of fragment may look like by itself: names resolve, attributes are public and tabled, operators are
   * listed, nothing is unpacked or asynchronous, and nothing else occurs.
   */
  ghost predicate FragmentLegal(s: Scope, x: Fragment) {
    match x
    case Target(t) => TargetLegal(s, t)
    case Expression(Name(id)) => NameLegal(s, id)
    case Expression(Constant(isJsonScalar)) => isJsonScalar
    case Expression(Dict(_, unpacks)) => !unpacks
    case Expression(BinOp(binary, _, _)) => binary in {"Add", "Sub", "Mult", "Div", "FloorDiv", "Mod", "Pow"}
    case Expression(UnaryOp(unary, _)) => unary in {"UAdd", "USub", "Not"}
    case Expression(Compare(comparisons, _, _)) =>
      forall c | c in comparisons :: c in {"Eq", "NotEq", "Lt", "LtE", "Gt", "GtE", "In", "NotIn", "Is", "IsNot"}
    case Expression(Attribute(_, attr)) => !StartsWithUnderscore(attr) && InSomeTable(s.lang, attr)
    case Expression(Call(_, _, unpacks)) => !unpacks
    case Expression(Comprehension(_, generators, _)) => forall g | g in generators :: !g.isAsync
    case Expression(OtherExpr(_)) => false
    case Expression(_) => true
  }

  lemma {:induction false} TargetsAllowed(s: Scope, target: Expr)
    ensures TargetAllowed(s, target) <==> TargetLegal(s, target)
  {
    if target.Display? {
      forall t | t in target.items ensures TargetAllowed(s, t) <==> TargetLegal(s, t) { TargetsAllowed(s, t); }
    }
  }

  ghost predicate Legal(s: Scope, xs: set<Fragment>) {
    forall x | x in xs :: FragmentLegal(s, x)
  }

  /** The expression itself is legal; what it is made of follows. */
  lemma OwnFragment(s: Scope, e: Expr, log: Log)
    requires Visit(s, e, log).Success?
    ensures !e.Attribute? && !e.Comprehension? ==> FragmentLegal(s, Expression(e))
  {
  }

  lemma SynchronousLegal(s: Scope, e: Expr)
    requires e.Comprehension? && forall g | g in e.generators :: !g.isAsync
    ensures FragmentLegal(s, Expression(e))
  {
  }

  lemma {:induction false} VisitCovers(s: Scope, e: Expr, log: Log)
    requires Visit(s, e, log).Success?
    ensures Legal(s, Parts(e))
    decreases e, 1
  {
    hide FragmentLegal, VisitAll, VisitGenerators, CapabilityOf, CallMember;
    OwnFragment(s, e, log);
    match e
    case Display(items) => VisitAllCovers(s, items, log);
    case Dict(entries, _) => VisitAllCovers(s, entries, log);
    case BinOp(_, left, right) =>
      VisitCovers(s, left, log);
      VisitCovers(s, right, Visit(s, left, log).value);
    case UnaryOp(_, operand) => VisitCovers(s, operand, log);
    case BoolOp(values) => VisitAllCovers(s, values, log);
    case Compare(_, first, comparators) =>
      VisitCovers(s, first, log);
      VisitAllCovers(s, comparators, Visit(s, first, log).value);
    case IfExp(test, body, orelse) =>
      var log1 := Visit(s, test, log).value;
      VisitCovers(s, test, log);
      VisitCovers(s, body, log1);
      VisitCovers(s, orelse, Visit(s, body, log1).value);
    case Subscript(base, index) =>
      var log1 := CapabilityOf(s, base, log).value.1;
      VisitCovers(s, base, log1);
      VisitCovers(s, index, Visit(s, base, log1).value);
    case Slice(bounds) => VisitAllCovers(s, bounds, log);
    case Attribute(value, attr) => AttributeCovers(s, value, attr, log);
    case Call(func, args, _) =>
      CalleeCovers(s, func, log);
      VisitAllCovers(s, args, CallMember(s, func, log).value.1);
    case Comprehension(_, generators, elements) =>
      GeneratorsCover(s, generators, log);
      SynchronousLegal(s, e);
      VisitAllCovers(s, elements, VisitGenerators(s, generators, log).value);
    case _ =>
  }

  lemma {:induction false} CalleeCovers(s: Scope, func: Expr, log: Log)
    requires CallMember(s, func, log).Success?
    ensures Legal(s, Parts(func))
    decreases func, 3
  {
    if func.Attribute? { AttributeCovers(s, func.value, func.attr, log); }
  }

  lemma {:induction false} AttributeCovers(s: Scope, value: Expr, attr: string, log: Log)
    requires AttributeMember(s, value, attr, log).Success?
    requires Visit(s, value, AttributeMember(s, value, attr, log).value.1).Success?
    ensures Legal(s, Parts(Attribute(value, attr)))
    decreases value, 2
  {
    var (c, log1) := CapabilityOf(s, value, log).value;
    VisitCovers(s, value, log1);
    assert ExposedMember(s.lang, Some(c.value), attr).Some?;
  }

  lemma {:induction false} VisitAllCovers(s: Scope, es: seq<Expr>, log: Log)
    requires VisitAll(s, es, log).Success?
    ensures Legal(s, PartsOf(es))
    decreases es, 0
  {
    if es != [] {
      VisitCovers(s, es[0], log);
      VisitAllCovers(s, es[1..], Visit(s, es[0], log).value);
    }
  }

  lemma {:induction false} GeneratorsCover(s: Scope, gs: seq<Generator>, log: Log)
    requires VisitGenerators(s, gs, log).Success?
    ensures Legal(s, GeneratorParts(gs)) && forall g | g in gs :: !g.isAsync
    decreases gs, 0
  {
    if gs != [] {
      var log1 := RecordTarget(gs[0].target, None, Visit(s, gs[0].iter, log).value);
      VisitCovers(s, gs[0].iter, log);
      TargetsAllowed(s, gs[0].target);
      VisitAllCovers(s, gs[0].conditions, log1);
      GeneratorsCover(s, gs[1..], VisitAll(s, gs[0].conditions, log1).value);
    }
  }

  lemma {:induction false} TargetsCover(s: Scope, targets: seq<Expr>, c: Option<Capability>, log: Log)
    requires AssignTargets(s, targets, c, log).Success?
    ensures forall t | t in targets :: TargetLegal(s, t)
  {
    if targets != [] {
      TargetsAllowed(s, targets[0]);
      TargetsCover(s, targets[1..], c, RecordTarget(targets[0], c, log));
    }
  }

  lemma {:induction false} StmtCovers(s: Scope, stmt: Stmt, depth: nat, log: Log)
    requires VisitStmt(s, stmt, depth, log).Success?
    ensures Legal(s, StmtParts(stmt)) && !stmt.OtherStmt? && !stmt.ExprStmt? && !stmt.TextStmt?
    decreases stmt, 1
  {
    hide Visit, VisitBlock, CapabilityOf, AssignTargets;
    match stmt
    case Assign(targets, value) =>
      var log1 := Visit(s, value, log).value;
      var (c, log2) := CapabilityOf(s, value, log1).value;
      VisitCovers(s, value, log);
      TargetsCover(s, targets, c, log2);
    case AugAssign(target, _, value) =>
      TargetsAllowed(s, target);
      VisitCovers(s, value, log);
    case Return(result) => VisitCovers(s, result.value, log);
    case If(test, body, orelse) =>
      var log1 := Visit(s, test, log).value;
      VisitCovers(s, test, log);
      BlockCovers(s, body, depth, log1);
      BlockCovers(s, orelse, depth, VisitBlock(s, body, depth, log1).value);
    case For(target, iter, body, orelse) =>
      var log1 := RecordTarget(target, None, Visit(s, iter, log).value);
      VisitCovers(s, iter, log);
      TargetsAllowed(s, target);
      BlockCovers(s, body, depth + 1, log1);
      BlockCovers(s, orelse, depth + 1, VisitBlock(s, body, depth + 1, log1).value);
    case Assert(test, message) =>
      VisitCovers(s, test, log);
      if message.Some? { VisitCovers(s, message.value, Visit(s, test, log).value); }
    case _ =>
  }

  lemma {:induction false} BlockCovers(s: Scope, stmts: seq<Stmt>, depth: nat, log: Log)
    requires VisitBlock(s, stmts, depth, log).Success?
    ensures Legal(s, BlockParts(stmts))
    decreases stmts, 0
  {
    if stmts != [] {
      StmtCovers(s, stmts[0], depth, log);
      BlockCovers(s, stmts[1..], depth, VisitStmt(s, stmts[0], depth, log).value);
    }
  }

  /** Everything in an accepted body is legal, and no target rebinds a reserved or imported name. */
  lemma AcceptedIsCovered(s: Scope, f: Function)
    requires ValidateFunction(s, f).Success?
    ensures Legal(s, BlockParts(f.body))
    ensures forall x | x in BlockParts(f.body) && x.Target? ::
              TargetNames(x.t) <= s.locals && TargetNames(x.t) !! RESERVED + s.bindings.Keys
  {
    BlockCovers(s, SkipDocstring(f.body), 0, []);
    assert BlockParts(f.body) == BlockParts(SkipDocstring(f.body));
    forall x | x in BlockParts(f.body) && x.Target? ensures TargetNames(x.t) <= s.locals {
      TargetsAllowed(s, x.t);
      TargetsAreLocal(s, x.t);
    }
  }

  lemma {:induction false} TargetsAreLocal(s: Scope, target: Expr)
    requires TargetAllowed(s, target)
    ensures TargetNames(target) <= s.locals
  {
    if target.Display? {
      forall t | t in target.items ensures TargetNames(t) <= s.locals { TargetsAreLocal(s, t); }
    }
  }
}
