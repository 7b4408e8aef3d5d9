/**
 * Exactly which functions the validator accepts: what each fragment and each statement of the text may look like by
 * itself, where jumps may stand, and that every attribute and callee is a member of what its receiver stands for.
 */
module DraftCompleteness {
  import opened Prelude
  import opened DraftSyntax
  import opened DraftRules
  import opened DraftCoverage

  // ---- Jumps and kinds of statements ----

  /** A `break` or `continue` outside every loop of the statement; a loop's else branch belongs to the loop here. */
  predicate Jumps(stmt: Stmt)
    decreases stmt, 1
  {
    match stmt
    case Break => true
    case Continue => true
    case If(_, body, orelse) => BlockJumps(body) || BlockJumps(orelse)
    case _ => false
  }

  predicate BlockJumps(stmts: seq<Stmt>)
    decreases stmts, 0
  {
    stmts != [] && (Jumps(stmts[0]) || BlockJumps(stmts[1..]))
  }

  /** Every statement anywhere inside a statement, itself included. */
  function Statements(stmt: Stmt): set<Stmt>
    decreases stmt, 1
  {
    {stmt} +
    match stmt
    case If(_, body, orelse) => BlockStatements(body) + BlockStatements(orelse)
    case For(_, _, body, orelse) => BlockStatements(body) + BlockStatements(orelse)
    case _ => {}
  }

  function BlockStatements(stmts: seq<Stmt>): set<Stmt>
    decreases stmts, 0
  {
    if stmts == [] then {} else Statements(stmts[0]) + BlockStatements(stmts[1..])
  }

  predicate StatementLegal(stmt: Stmt) {
    match stmt
    case Return(result) => result.Some?
    case AugAssign(_, operator, _) => operator in {"Add", "Sub", "Mult", "Div", "FloorDiv", "Mod", "Pow"}
    case TextStmt => false
    case ExprStmt(_) => false
    case OtherStmt => false
    case _ => true
  }

  ghost predicate StatementsLegal(xs: set<Stmt>) {
    forall x | x in xs :: StatementLegal(x)
  }

  // ---- What names and expressions stand for ----

  /** The capabilities of stored names: none for plain data. */
  type Table = map<string, Option<Capability>>

  /** The table after some names were stored with plain data. */
  function Reset(t: Table, names: set<string>): Table {
    t + map n | n in names :: None
  }

  function MemberIn(lang: Language, c: Option<Capability>, attr: string): Option<Member> {
    match c
    case Some(Context) => if attr in lang.contextMembers then Some(Member(Plain, None)) else None
    case Some(Inputs) => if attr in lang.inputMembers then Some(lang.inputMembers[attr]) else None
    case Some(Module(m)) =>
      if m in lang.modules && attr in lang.modules[m] then Some(lang.modules[m][attr]) else None
    case Some(Instance(k)) =>
      if k in lang.instances && attr in lang.instances[k] then Some(lang.instances[k][attr]) else None
    case _ => None
  }

  /** What calling or reading a member gives. */
  function Given(m: Option<Member>): Option<Capability> {
    if m.Some? && m.value.result.Some? then Some(Instance(m.value.result.value)) else None
  }

  function NameStandsFor(s: Scope, t: Table, id: string): Option<Capability> {
    if id == "inputs" then Some(Inputs)
    else if id == "ctx" then Some(Context)
    else if id in t then t[id]
    else if id in s.bindings then Some(s.bindings[id])
    else None
  }

  function StandsFor(s: Scope, t: Table, e: Expr): Option<Capability>
    decreases e, 0
  {
    match e
    case Name(id) => NameStandsFor(s, t, id)
    case Attribute(value, attr) => Given(MemberIn(s.lang, StandsFor(s, t, value), attr))
    case Call(func, _, _) => Given(Callee(s, t, func))
    case _ => None
  }

  /** The member that is called: a builtin by its name, an imported symbol, or a member of the receiver. */
  function Callee(s: Scope, t: Table, func: Expr): Option<Member>
    decreases func, 1
  {
    match func
    case Name(id) =>
      if id in s.lang.builtins then Some(Member(Callable, None))
      else (match NameStandsFor(s, t, id)
            case Some(Symbol(source, name)) => MemberIn(s.lang, Some(Module(source)), name)
            case _ => None)
    case Attribute(value, attr) => MemberIn(s.lang, StandsFor(s, t, value), attr)
    case _ => None
  }

  // ---- Members that are there ----

  /** Names that become plain when the capability of an expression is looked up: receivers of calls are visited. */
  function LookedNames(e: Expr): set<string> {
    match e
    case Attribute(value, _) => LookedNames(value)
    case Call(Attribute(value, _), _, _) => LookedNames(value) + ComprehensionNames(value)
    case _ => {}
  }

  /** Looking up what the expression stands for meets only members that are there. */
  predicate Known(s: Scope, t: Table, e: Expr)
    decreases e, 0
  {
    match e
    case Attribute(value, attr) => Known(s, t, value) && MemberIn(s.lang, StandsFor(s, t, value), attr).Some?
    case Call(func, _, _) => CalleeKnown(s, t, func)
    case _ => true
  }

  predicate CalleeKnown(s: Scope, t: Table, func: Expr)
    decreases func, 1
  {
    && Callee(s, t, func).Some?
    && (func.Attribute? ==> Known(s, t, func.value) && Exposed(s, Reset(t, LookedNames(func.value)), func.value))
  }

  /** Every attribute and callee inside is a member of what its receiver stands for when its turn comes. */
  predicate Exposed(s: Scope, t: Table, e: Expr)
    decreases e, 2
  {
    match e
    case Display(items) => AllExposed(s, t, items)
    case Dict(entries, _) => AllExposed(s, t, entries)
    case BinOp(_, left, right) => Exposed(s, t, left) && Exposed(s, Reset(t, ComprehensionNames(left)), right)
    case UnaryOp(_, operand) => Exposed(s, t, operand)
    case BoolOp(values) => AllExposed(s, t, values)
    case Compare(_, first, comparators) =>
      Exposed(s, t, first) && AllExposed(s, Reset(t, ComprehensionNames(first)), comparators)
    case IfExp(test, body, orelse) =>
      var t1 := Reset(t, ComprehensionNames(test));
      Exposed(s, t, test) && Exposed(s, t1, body) && Exposed(s, Reset(t1, ComprehensionNames(body)), orelse)
    case Subscript(base, index) =>
      var c := StandsFor(s, t, base);
      && Known(s, t, base) && !(c.Some? && (c.value.Module? || c.value.Symbol?))
      && Exposed(s, Reset(t, LookedNames(base)), base) && Exposed(s, Reset(t, ComprehensionNames(base)), index)
    case Slice(bounds) => AllExposed(s, t, bounds)
    case Attribute(value, attr) =>
      && Known(s, t, value) && MemberIn(s.lang, StandsFor(s, t, value), attr).Some?
      && Exposed(s, Reset(t, LookedNames(value)), value)
    case Call(func, args, _) =>
      && CalleeKnown(s, t, func) && Callee(s, t, func).value.kind.Callable?
      && AllExposed(s, Reset(t, ComprehensionNames(func)), args)
    case Comprehension(_, generators, elements) =>
      GeneratorsExposed(s, t, generators) && AllExposed(s, Reset(t, GeneratorNames(generators)), elements)
    case _ => true
  }

  predicate AllExposed(s: Scope, t: Table, es: seq<Expr>)
    decreases es, 0
  {
    es != [] ==> Exposed(s, t, es[0]) && AllExposed(s, Reset(t, ComprehensionNames(es[0])), es[1..])
  }

  predicate GeneratorsExposed(s: Scope, t: Table, gs: seq<Generator>)
    decreases gs, 0
  {
    gs != [] ==>
      var t1 := Reset(t, ComprehensionNames(gs[0].iter) + TargetNames(gs[0].target));
      && Exposed(s, t, gs[0].iter) && AllExposed(s, t1, gs[0].conditions)
      && GeneratorsExposed(s, Reset(t1, ComprehensionNamesOf(gs[0].conditions)), gs[1..])
  }

  function Store(t: Table, targets: seq<Expr>, c: Option<Capability>): Table
    decreases targets
  {
    if targets == [] then t
    else if targets[0].Name? then Store(t[targets[0].id := c], targets[1..], c)
    else Store(Reset(t, TargetNames(targets[0])), targets[1..], c)
  }

  /** The table after a statement, its branches taken one after the other. */
  function After(s: Scope, t: Table, stmt: Stmt): Table
    decreases stmt, 1
  {
    match stmt
    case Assign(targets, value) =>
      var t1 := Reset(t, ComprehensionNames(value));
      Store(t1, targets, StandsFor(s, t1, value))
    case AugAssign(target, _, value) => Reset(t, ComprehensionNames(value) + TargetNames(target))
    case Return(Some(value)) => Reset(t, ComprehensionNames(value))
    case If(test, body, orelse) =>
      BlockAfter(s, BlockAfter(s, Reset(t, ComprehensionNames(test)), body), orelse)
    case For(target, iter, body, orelse) =>
      BlockAfter(s, BlockAfter(s, Reset(t, ComprehensionNames(iter) + TargetNames(target)), body), orelse)
    case Assert(test, None) => Reset(t, ComprehensionNames(test))
    case Assert(test, Some(message)) => Reset(t, ComprehensionNames(test) + ComprehensionNames(message))
    case _ => t
  }

  function BlockAfter(s: Scope, t: Table, stmts: seq<Stmt>): Table
    decreases stmts, 0
  {
    if stmts == [] then t else BlockAfter(s, After(s, t, stmts[0]), stmts[1..])
  }

  predicate StmtExposed(s: Scope, t: Table, stmt: Stmt)
    decreases stmt, 1
  {
    match stmt
    case Assign(_, value) => Exposed(s, t, value) && Known(s, Reset(t, ComprehensionNames(value)), value)
    case AugAssign(_, _, value) => Exposed(s, t, value)
    case Return(Some(value)) => Exposed(s, t, value)
    case If(test, body, orelse) =>
      var t1 := Reset(t, ComprehensionNames(test));
      Exposed(s, t, test) && BlockExposed(s, t1, body) && BlockExposed(s, BlockAfter(s, t1, body), orelse)
    case For(target, iter, body, orelse) =>
      var t1 := Reset(t, ComprehensionNames(iter) + TargetNames(target));
      Exposed(s, t, iter) && BlockExposed(s, t1, body) && BlockExposed(s, BlockAfter(s, t1, body), orelse)
    case Assert(test, None) => Exposed(s, t, test)
    case Assert(test, Some(message)) => Exposed(s, t, test) && Exposed(s, Reset(t, ComprehensionNames(test)), message)
    case _ => true
  }

  predicate BlockExposed(s: Scope, t: Table, stmts: seq<Stmt>)
    decreases stmts, 0
  {
    stmts != [] ==> StmtExposed(s, t, stmts[0]) && BlockExposed(s, After(s, t, stmts[0]), stmts[1..])
  }

  /** The function is a draft of the language. */
  ghost predicate Acceptable(s: Scope, f: Function) {
    && f.decorators == [] && f.typeParameters == [] && f.arguments.plain && f.arguments.names == ["inputs", "ctx"]
    && (forall x | x in s.locals ::
          s.lang.isIdentifier(x) && !StartsWithUnderscore(x) && x != "inputs" && x != "ctx" && x !in s.bindings)
    && f.body != []
    && var body := if f.body[0].TextStmt? then f.body[1..] else f.body;
       && Legal(s, BlockParts(body)) && StatementsLegal(BlockStatements(body))
       && !BlockJumps(body) && BlockExposed(s, map[], body)
  }

  // ---- Tables and logs ----

  lemma ResetTwice(t: Table, a: set<string>, b: set<string>)
    ensures Reset(Reset(t, a), b) == Reset(t, a + b)
  {
  }

  lemma ResetNothing(t: Table)
    ensures Reset(t, {}) == t
  {
  }

  /** Resetting some of the names first makes no difference. */
  lemma ResetWithin(t: Table, a: set<string>, b: set<string>)
    requires a <= b
    ensures Reset(Reset(t, a), b) == Reset(t, b)
  {
    assert a + b == b;
    ResetTwice(t, a, b);
  }

  lemma {:induction false} LookedInside(e: Expr)
    ensures LookedNames(e) <= ComprehensionNames(e)
    decreases e
  {
    match e
    case Attribute(value, _) => LookedInside(value);
    case Call(Attribute(value, _), _, _) => LookedInside(value);
    case _ =>
  }

  lemma AppendRecord(log: Log, r: Record)
    ensures Recorded(log + [r]) == Recorded(log)[r.name := r.capability]
  {
    assert (log + [r])[..|log|] == log;
  }

  lemma DisplayNames(targets: seq<Expr>)
    ensures TargetNames(Display(targets)) ==
            if targets == [] then {} else TargetNames(targets[0]) + TargetNames(Display(targets[1..]))
  {
  }

  lemma {:induction false} TargetTable(target: Expr, log: Log)
    ensures Recorded(RecordTarget(target, None, log)) == Reset(Recorded(log), TargetNames(target))
    decreases target
  {
    match target
    case Name(id) => AppendRecord(log, Record(id, None));
    case Display(items) => ItemsTable(items, log);
    case _ =>
  }

  lemma {:induction false} ItemsTable(targets: seq<Expr>, log: Log)
    ensures Recorded(RecordItems(targets, log)) == Reset(Recorded(log), TargetNames(Display(targets)))
    decreases targets
  {
    hide Reset, RecordTarget, Recorded, TargetNames;
    DisplayNames(targets);
    if targets == [] {
      ResetNothing(Recorded(log));
    } else {
      TargetTable(targets[0], log);
      ItemsTable(targets[1..], RecordTarget(targets[0], None, log));
      ResetTwice(Recorded(log), TargetNames(targets[0]), TargetNames(Display(targets[1..])));
    }
  }

  lemma {:induction false} TargetsTable(s: Scope, targets: seq<Expr>, c: Option<Capability>, log: Log)
    requires forall x | x in targets :: TargetLegal(s, x)
    ensures AssignTargets(s, targets, c, log).Success?
    ensures Recorded(AssignTargets(s, targets, c, log).value) == Store(Recorded(log), targets, c)
  {
    if targets != [] {
      TargetsAllowed(s, targets[0]);
      if targets[0].Name? {
        AppendRecord(log, Record(targets[0].id, c));
      } else {
        assert RecordTarget(targets[0], c, log) == RecordTarget(targets[0], None, log);
        TargetTable(targets[0], log);
      }
      TargetsTable(s, targets[1..], c, RecordTarget(targets[0], c, log));
    }
  }

  // ---- The rules accept exactly that ----

  lemma MemberIsExposed(lang: Language, c: Option<Capability>, attr: string)
    ensures ExposedMember(lang, c, attr) == MemberIn(lang, c, attr)
  {
  }

  lemma {:induction false} LookupExact(s: Scope, e: Expr, log: Log)
    requires Legal(s, Parts(e))
    ensures var t, r := Recorded(log), CapabilityOf(s, e, log);
      && (r.Success? <==> Known(s, t, e))
      && (r.Success? ==> r.value.0 == StandsFor(s, t, e) && Recorded(r.value.1) == Reset(t, LookedNames(e)))
    decreases e, 0
  {
    var t := Recorded(log);
    match e
    case Name(id) => ResetNothing(t);
    case Attribute(value, attr) => AttributeExact(s, value, attr, log);
    case Call(func, _, _) =>
      CalleeExact(s, func, log);
      LookedInside(func);
      if func.Attribute? { assert LookedNames(e) == ComprehensionNames(func); }
    case _ => ResetNothing(t);
  }

  lemma {:induction false} AttributeExact(s: Scope, value: Expr, attr: string, log: Log)
    requires Legal(s, Parts(value)) && !StartsWithUnderscore(attr)
    ensures var t, r := Recorded(log), AttributeMember(s, value, attr, log);
      && (r.Success? <==> Known(s, t, value) && MemberIn(s.lang, StandsFor(s, t, value), attr).Some?)
      && (r.Success? ==> Some(r.value.0) == MemberIn(s.lang, StandsFor(s, t, value), attr))
      && (r.Success? ==> Recorded(r.value.1) == Reset(t, LookedNames(value)))
    decreases value, 1
  {
    LookupExact(s, value, log);
    MemberIsExposed(s.lang, StandsFor(s, Recorded(log), value), attr);
  }

  ghost predicate CalleeAgrees(s: Scope, func: Expr, log: Log) {
    var t, r := Recorded(log), CallMember(s, func, log);
    && (r.Success? <==> CalleeKnown(s, t, func))
    && (r.Success? ==> Some(r.value.0) == Callee(s, t, func) && Recorded(r.value.1) == Reset(t, ComprehensionNames(func)))
  }

  lemma {:induction false} CalleeExact(s: Scope, func: Expr, log: Log)
    requires Legal(s, Parts(func))
    ensures CalleeAgrees(s, func, log)
    decreases func, 2
  {
    assert Expression(func) in Parts(func);
    match func
    case Name(id) => NamedCalleeExact(s, id, log);
    case Attribute(value, attr) => MemberCalleeExact(s, value, attr, log);
    case _ =>
  }

  lemma NamedCalleeExact(s: Scope, id: string, log: Log)
    requires NameLegal(s, id)
    ensures CalleeAgrees(s, Name(id), log)
  {
    hide Reset, MemberIn, ExposedMember;
    ResetNothing(Recorded(log));
    var c := NameStandsFor(s, Recorded(log), id);
    assert c == NameCapability(s, id, log);
    if c.Some? && c.value.Symbol? { SymbolIsMember(s.lang, c.value.source, c.value.member); }
  }

  lemma SymbolIsMember(lang: Language, source: string, name: string)
    ensures SymbolMember(lang, source, name) == MemberIn(lang, Some(Module(source)), name)
  {
  }

  lemma {:induction false} MemberCalleeExact(s: Scope, value: Expr, attr: string, log: Log)
    requires Legal(s, Parts(value)) && !StartsWithUnderscore(attr)
    ensures CalleeAgrees(s, Attribute(value, attr), log)
    decreases value, 4
  {
    hide Reset, MemberIn, Exposed, Visit, AttributeMember, Known, Parts;
    AttributeExact(s, value, attr, log);
    LookedInside(value);
    var r := AttributeMember(s, value, attr, log);
    if r.Success? {
      VisitExact(s, value, r.value.1);
      ResetWithin(Recorded(log), LookedNames(value), ComprehensionNames(value));
    }
  }

  ghost predicate VisitAgrees(s: Scope, e: Expr, log: Log) {
    var t, r := Recorded(log), Visit(s, e, log);
    (r.Success? <==> Exposed(s, t, e)) && (r.Success? ==> Recorded(r.value) == Reset(t, ComprehensionNames(e)))
  }

  lemma {:induction false} VisitExact(s: Scope, e: Expr, log: Log)
    requires Legal(s, Parts(e))
    ensures VisitAgrees(s, e, log)
    decreases e, 3
  {
    hide Reset, AllExposed, VisitAll, VisitGenerators, AttributeMember, CallMember, CapabilityOf;
    assert FragmentLegal(s, Expression(e));
    ResetNothing(Recorded(log));
    match e
    case Display(items) => AllExact(s, items, log);
    case Dict(entries, _) => AllExact(s, entries, log);
    case BinOp(_, _, _) => PairExact(s, e, log);
    case UnaryOp(_, operand) => VisitExact(s, operand, log);
    case BoolOp(values) => AllExact(s, values, log);
    case Compare(_, _, _) => CompareExact(s, e, log);
    case IfExp(_, _, _) => ChoiceExact(s, e, log);
    case Subscript(_, _) => SubscriptExact(s, e, log);
    case Slice(bounds) => AllExact(s, bounds, log);
    case Attribute(_, _) => ReadExact(s, e, log);
    case Call(_, _, _) => CallExact(s, e, log);
    case Comprehension(_, _, _) => ComprehensionExact(s, e, log);
    case _ =>
  }

  lemma {:induction false} PairExact(s: Scope, e: Expr, log: Log)
    requires e.BinOp? && Legal(s, Parts(e))
    ensures VisitAgrees(s, e, log)
    decreases e, 2
  {
    hide Reset, VisitAll, VisitGenerators, CallMember, CapabilityOf, AllExposed, GeneratorsExposed, CalleeKnown, Known;
    assert FragmentLegal(s, Expression(e));
    VisitExact(s, e.left, log);
    var r := Visit(s, e.left, log);
    if r.Success? { VisitExact(s, e.right, r.value); }
    ResetTwice(Recorded(log), ComprehensionNames(e.left), ComprehensionNames(e.right));
  }

  lemma {:induction false} CompareExact(s: Scope, e: Expr, log: Log)
    requires e.Compare? && Legal(s, Parts(e))
    ensures VisitAgrees(s, e, log)
    decreases e, 2
  {
    hide Reset, VisitAll, VisitGenerators, CallMember, CapabilityOf, AllExposed, GeneratorsExposed, CalleeKnown, Known;
    assert FragmentLegal(s, Expression(e));
    VisitExact(s, e.first, log);
    var r := Visit(s, e.first, log);
    if r.Success? { AllExact(s, e.comparators, r.value); }
    ResetTwice(Recorded(log), ComprehensionNames(e.first), ComprehensionNamesOf(e.comparators));
  }

  lemma {:induction false} ReadExact(s: Scope, e: Expr, log: Log)
    requires e.Attribute? && Legal(s, Parts(e))
    ensures VisitAgrees(s, e, log)
    decreases e, 2
  {
    hide Reset, VisitAll, VisitGenerators, CallMember, CapabilityOf, AllExposed, GeneratorsExposed, CalleeKnown, Known;
    assert FragmentLegal(s, Expression(e));
    AttributeExact(s, e.value, e.attr, log);
    LookedInside(e.value);
    var r := AttributeMember(s, e.value, e.attr, log);
    if r.Success? { VisitExact(s, e.value, r.value.1); }
    ResetWithin(Recorded(log), LookedNames(e.value), ComprehensionNames(e.value));
  }

  lemma {:induction false} CallExact(s: Scope, e: Expr, log: Log)
    requires e.Call? && Legal(s, Parts(e))
    ensures VisitAgrees(s, e, log)
    decreases e, 2
  {
    hide Reset, VisitAll, VisitGenerators, CallMember, CapabilityOf, AllExposed, GeneratorsExposed, CalleeKnown, Known;
    assert FragmentLegal(s, Expression(e));
    CalleeExact(s, e.func, log);
    var r := CallMember(s, e.func, log);
    if r.Success? { AllExact(s, e.args, r.value.1); }
    ResetTwice(Recorded(log), ComprehensionNames(e.func), ComprehensionNamesOf(e.args));
  }

  lemma {:induction false} ComprehensionExact(s: Scope, e: Expr, log: Log)
    requires e.Comprehension? && Legal(s, Parts(e))
    ensures VisitAgrees(s, e, log)
    decreases e, 2
  {
    hide Reset, VisitAll, VisitGenerators, CallMember, CapabilityOf, AllExposed, GeneratorsExposed, CalleeKnown, Known;
    assert FragmentLegal(s, Expression(e));
    GeneratorsExact(s, e.generators, log);
    var r := VisitGenerators(s, e.generators, log);
    if r.Success? { AllExact(s, e.elements, r.value); }
    ResetTwice(Recorded(log), GeneratorNames(e.generators), ComprehensionNamesOf(e.elements));
  }

  lemma {:induction false} ChoiceExact(s: Scope, e: Expr, log: Log)
    requires e.IfExp? && Legal(s, Parts(e))
    ensures VisitAgrees(s, e, log)
    decreases e, 2
  {
    var t, a, b := Recorded(log), ComprehensionNames(e.test), ComprehensionNames(e.body);
    VisitExact(s, e.test, log);
    var r1 := Visit(s, e.test, log);
    if r1.Success? {
      VisitExact(s, e.body, r1.value);
      var r2 := Visit(s, e.body, r1.value);
      if r2.Success? { VisitExact(s, e.orelse, r2.value); }
    }
    ResetTwice(t, a, b);
    ResetTwice(t, a + b, ComprehensionNames(e.orelse));
  }

  lemma {:induction false} SubscriptExact(s: Scope, e: Expr, log: Log)
    requires e.Subscript? && Legal(s, Parts(e))
    ensures VisitAgrees(s, e, log)
    decreases e, 2
  {
    var t := Recorded(log);
    LookupExact(s, e.base, log);
    LookedInside(e.base);
    var r1 := CapabilityOf(s, e.base, log);
    if r1.Success? {
      VisitExact(s, e.base, r1.value.1);
      ResetWithin(t, LookedNames(e.base), ComprehensionNames(e.base));
      var r2 := Visit(s, e.base, r1.value.1);
      if r2.Success? { VisitExact(s, e.index, r2.value); }
    }
    ResetTwice(t, ComprehensionNames(e.base), ComprehensionNames(e.index));
  }

  lemma {:induction false} AllExact(s: Scope, es: seq<Expr>, log: Log)
    requires Legal(s, PartsOf(es))
    ensures var t, r := Recorded(log), VisitAll(s, es, log);
      (r.Success? <==> AllExposed(s, t, es)) && (r.Success? ==> Recorded(r.value) == Reset(t, ComprehensionNamesOf(es)))
    decreases es, 0
  {
    ResetNothing(Recorded(log));
    if es != [] {
      VisitExact(s, es[0], log);
      var r := Visit(s, es[0], log);
      if r.Success? { AllExact(s, es[1..], r.value); }
      ResetTwice(Recorded(log), ComprehensionNames(es[0]), ComprehensionNamesOf(es[1..]));
    }
  }

  lemma {:induction false} GeneratorsExact(s: Scope, gs: seq<Generator>, log: Log)
    requires Legal(s, GeneratorParts(gs)) && forall g | g in gs :: !g.isAsync
    ensures var t, r := Recorded(log), VisitGenerators(s, gs, log);
      (r.Success? <==> GeneratorsExposed(s, t, gs)) && (r.Success? ==> Recorded(r.value) == Reset(t, GeneratorNames(gs)))
    decreases gs, 0
  {
    hide Reset, Visit, VisitAll, Exposed, AllExposed, RecordTarget, TargetAllowed, FragmentLegal, Recorded, TargetNames;
    var t := Recorded(log);
    ResetNothing(t);
    if gs != [] {
      FirstLegal(s, gs);
      FirstExact(s, gs[0], log);
      var r1 := Visit(s, gs[0].iter, log);
      if r1.Success? {
        var r2 := VisitAll(s, gs[0].conditions, RecordTarget(gs[0].target, None, r1.value));
        if r2.Success? { GeneratorsExact(s, gs[1..], r2.value); }
      }
      var a := ComprehensionNames(gs[0].iter) + TargetNames(gs[0].target);
      ResetTwice(t, a, ComprehensionNamesOf(gs[0].conditions));
      ResetTwice(t, a + ComprehensionNamesOf(gs[0].conditions), GeneratorNames(gs[1..]));
      assert GeneratorNames(gs) == a + ComprehensionNamesOf(gs[0].conditions) + GeneratorNames(gs[1..]);
    }
  }

  lemma FirstLegal(s: Scope, gs: seq<Generator>)
    requires gs != [] && Legal(s, GeneratorParts(gs)) && forall g | g in gs :: !g.isAsync
    ensures !gs[0].isAsync && TargetAllowed(s, gs[0].target)
    ensures Legal(s, Parts(gs[0].iter)) && Legal(s, PartsOf(gs[0].conditions)) && Legal(s, GeneratorParts(gs[1..]))
  {
    assert Target(gs[0].target) in GeneratorParts(gs);
    TargetsAllowed(s, gs[0].target);
  }

  /** One generator: its iterable, its target, then its conditions. */
  lemma {:induction false} FirstExact(s: Scope, g: Generator, log: Log)
    requires Legal(s, Parts(g.iter)) && Legal(s, PartsOf(g.conditions))
    ensures var t, r := Recorded(log), Visit(s, g.iter, log);
      var t1 := Reset(t, ComprehensionNames(g.iter) + TargetNames(g.target));
      && (r.Success? <==> Exposed(s, t, g.iter))
      && (r.Success? ==>
          var r2 := VisitAll(s, g.conditions, RecordTarget(g.target, None, r.value));
          && (r2.Success? <==> AllExposed(s, t1, g.conditions))
          && (r2.Success? ==> Recorded(r2.value) == Reset(t1, ComprehensionNamesOf(g.conditions))))
    decreases g, 0
  {
    hide Reset, Exposed, AllExposed, ComprehensionNames, ComprehensionNamesOf, TargetNames;
    VisitExact(s, g.iter, log);
    var r := Visit(s, g.iter, log);
    if r.Success? {
      TargetTable(g.target, r.value);
      ResetTwice(Recorded(log), ComprehensionNames(g.iter), TargetNames(g.target));
      AllExact(s, g.conditions, RecordTarget(g.target, None, r.value));
    }
  }

  ghost predicate StmtAgrees(s: Scope, stmt: Stmt, depth: nat, log: Log) {
    var t, r := Recorded(log), VisitStmt(s, stmt, depth, log);
    && (r.Success? <==>
        StatementsLegal(Statements(stmt)) && (depth == 0 ==> !Jumps(stmt)) && StmtExposed(s, t, stmt))
    && (r.Success? ==> Recorded(r.value) == After(s, t, stmt))
  }

  ghost predicate BlockAgrees(s: Scope, stmts: seq<Stmt>, depth: nat, log: Log) {
    var t, r := Recorded(log), VisitBlock(s, stmts, depth, log);
    && (r.Success? <==>
        StatementsLegal(BlockStatements(stmts)) && (depth == 0 ==> !BlockJumps(stmts)) && BlockExposed(s, t, stmts))
    && (r.Success? ==> Recorded(r.value) == BlockAfter(s, t, stmts))
  }

  lemma AssignExact(s: Scope, stmt: Stmt, depth: nat, log: Log)
    requires stmt.Assign? && Legal(s, StmtParts(stmt))
    ensures StmtAgrees(s, stmt, depth, log)
  {
    hide Reset, Visit, CapabilityOf, Exposed, Known, StandsFor, AssignTargets, Store;
    var t := Recorded(log);
    VisitExact(s, stmt.value, log);
    LookedInside(stmt.value);
    forall x | x in stmt.targets ensures TargetLegal(s, x) { assert Target(x) in StmtParts(stmt); }
    var r1 := Visit(s, stmt.value, log);
    if r1.Success? {
      LookupExact(s, stmt.value, r1.value);
      ResetTwice(t, ComprehensionNames(stmt.value), LookedNames(stmt.value));
      assert ComprehensionNames(stmt.value) + LookedNames(stmt.value) == ComprehensionNames(stmt.value);
      var r2 := CapabilityOf(s, stmt.value, r1.value);
      if r2.Success? { TargetsTable(s, stmt.targets, r2.value.0, r2.value.1); }
    }
  }

  lemma AugAssignExact(s: Scope, stmt: Stmt, depth: nat, log: Log)
    requires stmt.AugAssign? && Legal(s, StmtParts(stmt))
    ensures StmtAgrees(s, stmt, depth, log)
  {
    hide Reset, Visit, Exposed, TargetAllowed;
    assert Target(stmt.target) in StmtParts(stmt);
    TargetsAllowed(s, stmt.target);
    VisitExact(s, stmt.value, log);
    var r := Visit(s, stmt.value, log);
    if r.Success? {
      TargetTable(stmt.target, r.value);
      ResetTwice(Recorded(log), ComprehensionNames(stmt.value), TargetNames(stmt.target));
    }
  }

  lemma AssertExact(s: Scope, stmt: Stmt, depth: nat, log: Log)
    requires stmt.Assert? && Legal(s, StmtParts(stmt))
    ensures StmtAgrees(s, stmt, depth, log)
  {
    hide Reset, Visit, Exposed;
    VisitExact(s, stmt.test, log);
    var r := Visit(s, stmt.test, log);
    if r.Success? && stmt.message.Some? {
      VisitExact(s, stmt.message.value, r.value);
      ResetTwice(Recorded(log), ComprehensionNames(stmt.test), ComprehensionNames(stmt.message.value));
    }
  }

  lemma {:induction false} StmtExact(s: Scope, stmt: Stmt, depth: nat, log: Log)
    requires Legal(s, StmtParts(stmt))
    ensures StmtAgrees(s, stmt, depth, log)
    decreases stmt, 1
  {
    hide Reset, Visit, Exposed, FragmentLegal;
    assert stmt in Statements(stmt);
    match stmt
    case Assign(_, _) => AssignExact(s, stmt, depth, log);
    case AugAssign(_, _, _) => AugAssignExact(s, stmt, depth, log);
    case Return(result) => if result.Some? { VisitExact(s, result.value, log); }
    case If(_, _, _) => BranchExact(s, stmt, depth, log);
    case For(_, _, _, _) => LoopExact(s, stmt, depth, log);
    case Assert(_, _) => AssertExact(s, stmt, depth, log);
    case _ =>
  }

  lemma {:induction false} BranchExact(s: Scope, stmt: Stmt, depth: nat, log: Log)
    requires stmt.If? && Legal(s, StmtParts(stmt))
    ensures StmtAgrees(s, stmt, depth, log)
    decreases stmt, 0
  {
    hide Reset, Visit, Exposed, VisitBlock, BlockExposed, BlockAfter, BlockJumps;
    VisitExact(s, stmt.test, log);
    var r1 := Visit(s, stmt.test, log);
    if r1.Success? {
      BlockExact(s, stmt.body, depth, r1.value);
      var r2 := VisitBlock(s, stmt.body, depth, r1.value);
      if r2.Success? { BlockExact(s, stmt.orelse, depth, r2.value); }
    }
  }

  lemma LoopTargetLegal(s: Scope, stmt: Stmt)
    requires stmt.For? && Legal(s, StmtParts(stmt))
    ensures TargetAllowed(s, stmt.target)
  {
    assert Target(stmt.target) in StmtParts(stmt);
    TargetsAllowed(s, stmt.target);
  }

  lemma {:induction false} LoopExact(s: Scope, stmt: Stmt, depth: nat, log: Log)
    requires stmt.For? && Legal(s, StmtParts(stmt))
    ensures StmtAgrees(s, stmt, depth, log)
    decreases stmt, 0
  {
    hide Reset, Visit, Exposed, VisitBlock, BlockExposed, BlockAfter, TargetAllowed, TargetLegal, FragmentLegal, Recorded,
      RecordTarget, TargetNames, BlockStatements, ComprehensionNames;
    LoopTargetLegal(s, stmt);
    VisitExact(s, stmt.iter, log);
    var r1 := Visit(s, stmt.iter, log);
    if r1.Success? {
      var log2 := RecordTarget(stmt.target, None, r1.value);
      TargetTable(stmt.target, r1.value);
      ResetTwice(Recorded(log), ComprehensionNames(stmt.iter), TargetNames(stmt.target));
      BlockExact(s, stmt.body, depth + 1, log2);
      var r2 := VisitBlock(s, stmt.body, depth + 1, log2);
      if r2.Success? { BlockExact(s, stmt.orelse, depth + 1, r2.value); }
    }
  }

  lemma {:induction false} BlockExact(s: Scope, stmts: seq<Stmt>, depth: nat, log: Log)
    requires Legal(s, BlockParts(stmts))
    ensures BlockAgrees(s, stmts, depth, log)
    decreases stmts, 0
  {
    hide VisitStmt, StmtExposed, After, Jumps, Statements, FragmentLegal;
    if stmts != [] {
      StmtExact(s, stmts[0], depth, log);
      var r := VisitStmt(s, stmts[0], depth, log);
      if r.Success? { BlockExact(s, stmts[1..], depth, r.value); }
    }
  }

  // ---- The theorem ----

  lemma SignatureExact(s: Scope, f: Function)
    ensures SignatureAllowed(s, f) <==>
      && f.decorators == [] && f.typeParameters == [] && f.arguments.plain && f.arguments.names == ["inputs", "ctx"]
      && (forall x | x in s.locals ::
            s.lang.isIdentifier(x) && !StartsWithUnderscore(x) && x != "inputs" && x != "ctx" && x !in s.bindings)
      && f.body != []
  {
  }

  /** The validator accepts exactly these functions. */
  lemma AcceptedExactly(s: Scope, f: Function)
    ensures ValidateFunction(s, f).Success? <==> Acceptable(s, f)
  {
    hide SignatureAllowed, FragmentLegal, VisitBlock, BlockExposed, BlockJumps;
    SignatureExact(s, f);
    if f.body != [] {
      var body := SkipDocstring(f.body);
      if Legal(s, BlockParts(body)) {
        BlockExact(s, body, 0, []);
      } else if VisitBlock(s, body, 0, []).Success? {
        BlockCovers(s, body, 0, []);
      }
    }
  }

  // ---- A jump in the else branch of a loop ----

  /** Where Python finds a `break` or `continue` outside every loop: the else branch of a loop is outside of it. */
  predicate StrayJumps(stmts: seq<Stmt>)
    decreases stmts
  {
    stmts != [] &&
    (match stmts[0]
     case Break => true
     case Continue => true
     case If(_, body, orelse) => StrayJumps(body) || StrayJumps(orelse) || StrayJumps(stmts[1..])
     case For(_, _, _, orelse) => StrayJumps(orelse) || StrayJumps(stmts[1..])
     case _ => StrayJumps(stmts[1..]))
  }

  /** A loop that breaks in its else branch. */
  const BREAKING_ELSE := For(Name("x"), Name("inputs"), [Pass], [Break])

  /** The validator accepts functions that Python does not compile. */
  lemma JumpInElseIsAccepted(s: Scope, f: Function)
    requires s.lang.isIdentifier("x") && s.lang.isIdentifier("inputs") && s.locals == {"x"} && s.bindings == map[]
    requires f == Function("draft", Arguments(["inputs", "ctx"], true), [BREAKING_ELSE], [], [], [])
    ensures ValidateFunction(s, f).Success? && StrayJumps(f.body)
  {
    var log1 := [Record("x", None)];
    assert "x"[0] == 'x' && "inputs"[0] == 'i';
    assert VisitBlock(s, [Pass], 1, log1) == Success(log1) by { assert [Pass][1..] == []; }
    assert VisitBlock(s, [Break], 1, log1) == Success(log1) by { assert [Break][1..] == []; }
    assert RecordTarget(Name("x"), None, []) == log1;
    assert VisitStmt(s, BREAKING_ELSE, 0, []) == Success(log1);
    assert [BREAKING_ELSE][1..] == [] && VisitBlock(s, [BREAKING_ELSE], 0, []) == Success(log1);
    assert SignatureAllowed(s, f) && SkipDocstring(f.body) == [BREAKING_ELSE];
    assert StrayJumps([Break]);
  }
}
