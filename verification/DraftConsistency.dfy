/** A condition on the text of a draft under which no name is ever recorded with two capabilities. */
module DraftConsistency {
  import opened Prelude
  import opened DraftSyntax
  import opened DraftRules
  import opened DraftSemantics
  import opened DraftInvariants
  import opened DraftSoundness
  import opened DraftFlow

  // ---- The condition ----

  /** How often a target stores to a name. */
  function Occurrences(target: Expr, x: string): nat
    decreases target
  {
    match target
    case Name(id) => if id == x then 1 else 0
    case Display(items) => OccurrencesIn(items, x)
    case _ => 0
  }

  function OccurrencesIn(targets: seq<Expr>, x: string): nat
    decreases targets
  {
    if targets == [] then 0 else Occurrences(targets[0], x) + OccurrencesIn(targets[1..], x)
  }

  function Stores(stmt: Stmt, x: string): nat
    decreases stmt, 1
  {
    match stmt
    case Assign(targets, _) => OccurrencesIn(targets, x)
    case AugAssign(target, _, _) => Occurrences(target, x)
    case If(_, body, orelse) => StoresOf(body, x) + StoresOf(orelse, x)
    case For(target, _, body, orelse) => Occurrences(target, x) + StoresOf(body, x) + StoresOf(orelse, x)
    case _ => 0
  }

  function StoresOf(stmts: seq<Stmt>, x: string): nat
    decreases stmts, 0
  {
    if stmts == [] then 0 else Stores(stmts[0], x) + StoresOf(stmts[1..], x)
  }

  /** Only names, attributes and calls can have a capability. */
  predicate MayCarry(e: Expr) {
    e.Name? || e.Attribute? || e.Call?
  }

  function PlainNames(targets: seq<Expr>): set<string> {
    set t | t in targets && t.Name? :: t.id
  }

  /** Names that are assigned something that can have a capability. */
  function Carriers(stmt: Stmt): set<string>
    decreases stmt, 1
  {
    match stmt
    case Assign(targets, value) => if MayCarry(value) then PlainNames(targets) else {}
    case If(_, body, orelse) => CarriersOf(body) + CarriersOf(orelse)
    case For(_, _, body, orelse) => CarriersOf(body) + CarriersOf(orelse)
    case _ => {}
  }

  function CarriersOf(stmts: seq<Stmt>): set<string>
    decreases stmts, 0
  {
    if stmts == [] then {} else Carriers(stmts[0]) + CarriersOf(stmts[1..])
  }

  /** A name that is assigned something that can have a capability is stored to nowhere else in the text. */
  predicate CarriersStoredOnce(body: seq<Stmt>) {
    forall x | x in CarriersOf(body) :: StoresOf(body, x) == 1 && x !in InnerNamesOf(body)
  }

  // ---- Expressions record comprehension targets only ----

  ghost predicate OnlyNames(log: Log, log': Log, names: set<string>) {
    log <= log' && forall i :: |log| <= i < |log'| ==> log'[i].name in names
  }

  lemma OnlyNamesThen(log: Log, log1: Log, log2: Log, a: set<string>, b: set<string>, all: set<string>)
    requires OnlyNames(log, log1, a) && OnlyNames(log1, log2, b) && a <= all && b <= all
    ensures OnlyNames(log, log2, all)
  {
  }

  lemma {:induction false} CapabilityNames(s: Scope, e: Expr, log: Log)
    requires CapabilityOf(s, e, log).Success?
    ensures OnlyNames(log, CapabilityOf(s, e, log).value.1, ComprehensionNames(e))
    ensures !MayCarry(e) ==> CapabilityOf(s, e, log).value.0.None?
    decreases e, 0
  {
    match e
    case Attribute(value, attr) => AttributeNames(s, value, attr, log);
    case Call(func, args, _) => CallNames(s, func, log);
    case _ =>
  }

  lemma {:induction false} AttributeNames(s: Scope, receiver: Expr, attr: string, log: Log)
    requires AttributeMember(s, receiver, attr, log).Success?
    ensures OnlyNames(log, AttributeMember(s, receiver, attr, log).value.1, ComprehensionNames(receiver))
    decreases receiver, 1
  {
    CapabilityNames(s, receiver, log);
  }

  lemma {:induction false} CallNames(s: Scope, func: Expr, log: Log)
    requires CallMember(s, func, log).Success?
    ensures OnlyNames(log, CallMember(s, func, log).value.1, ComprehensionNames(func))
    decreases func, 2
  {
    match func
    case Attribute(value, attr) =>
      AttributeNames(s, value, attr, log);
      VisitNames(s, value, AttributeMember(s, value, attr, log).value.1);
    case _ =>
  }

  lemma {:induction false} VisitNames(s: Scope, e: Expr, log: Log)
    requires Visit(s, e, log).Success?
    ensures OnlyNames(log, Visit(s, e, log).value, ComprehensionNames(e))
    decreases e, 3
  {
    match e
    case Display(items) => VisitAllNames(s, items, log);
    case Dict(entries, _) => VisitAllNames(s, entries, log);
    case BinOp(_, left, right) =>
      VisitNames(s, left, log);
      VisitNames(s, right, Visit(s, left, log).value);
    case UnaryOp(_, operand) => VisitNames(s, operand, log);
    case BoolOp(values) => VisitAllNames(s, values, log);
    case Compare(_, first, comparators) =>
      VisitNames(s, first, log);
      VisitAllNames(s, comparators, Visit(s, first, log).value);
    case IfExp(test, body, orelse) =>
      var log1 := Visit(s, test, log).value;
      VisitNames(s, test, log);
      VisitNames(s, body, log1);
      VisitNames(s, orelse, Visit(s, body, log1).value);
    case Subscript(base, index) =>
      var log1 := CapabilityOf(s, base, log).value.1;
      CapabilityNames(s, base, log);
      VisitNames(s, base, log1);
      VisitNames(s, index, Visit(s, base, log1).value);
    case Slice(bounds) => VisitAllNames(s, bounds, log);
    case Attribute(value, attr) =>
      AttributeNames(s, value, attr, log);
      VisitNames(s, value, AttributeMember(s, value, attr, log).value.1);
    case Call(func, args, _) =>
      CallNames(s, func, log);
      VisitAllNames(s, args, CallMember(s, func, log).value.1);
    case Comprehension(_, generators, elements) =>
      VisitGeneratorsNames(s, generators, log);
      VisitAllNames(s, elements, VisitGenerators(s, generators, log).value);
    case _ =>
  }

  lemma {:induction false} VisitAllNames(s: Scope, es: seq<Expr>, log: Log)
    requires VisitAll(s, es, log).Success?
    ensures OnlyNames(log, VisitAll(s, es, log).value, ComprehensionNamesOf(es))
    decreases es, 0
  {
    if es != [] {
      VisitNames(s, es[0], log);
      VisitAllNames(s, es[1..], Visit(s, es[0], log).value);
    }
  }

  lemma {:induction false} VisitGeneratorsNames(s: Scope, gs: seq<Generator>, log: Log)
    requires VisitGenerators(s, gs, log).Success?
    ensures OnlyNames(log, VisitGenerators(s, gs, log).value, GeneratorNames(gs))
    decreases gs, 0
  {
    if gs != [] {
      var g, all := gs[0], GeneratorNames(gs);
      var log1 := Visit(s, g.iter, log).value;
      var log2 := RecordTarget(g.target, None, log1);
      var log3 := VisitAll(s, g.conditions, log2).value;
      VisitNames(s, g.iter, log);
      TargetNamesRecorded(g.target, None, log1);
      VisitAllNames(s, g.conditions, log2);
      VisitGeneratorsNames(s, gs[1..], log3);
      OnlyNamesThen(log, log1, log2, ComprehensionNames(g.iter), TargetNames(g.target), all);
      OnlyNamesThen(log, log2, log3, all, ComprehensionNamesOf(g.conditions), all);
    }
  }

  lemma {:induction false} TargetNamesRecorded(target: Expr, c: Option<Capability>, log: Log)
    ensures OnlyNames(log, RecordTarget(target, c, log), TargetNames(target))
    decreases target
  {
    if target.Display? { ItemNamesRecorded(target.items, log); }
  }

  lemma {:induction false} ItemNamesRecorded(targets: seq<Expr>, log: Log)
    ensures OnlyNames(log, RecordItems(targets, log), TargetNames(Display(targets)))
    decreases targets
  {
    if targets != [] {
      TargetNamesRecorded(targets[0], None, log);
      ItemNamesRecorded(targets[1..], RecordTarget(targets[0], None, log));
      assert TargetNames(targets[0]) <= TargetNames(Display(targets));
      assert TargetNames(Display(targets[1..])) <= TargetNames(Display(targets));
    }
  }

  // ---- Statements record each store once ----

  ghost function Count(log: Log, x: string): nat {
    if log == [] then 0 else Count(log[..|log| - 1], x) + if log[|log| - 1].name == x then 1 else 0
  }

  lemma {:induction false} CountSame(log: Log, log': Log, names: set<string>, x: string)
    requires OnlyNames(log, log', names) && x !in names
    ensures Count(log', x) == Count(log, x)
    decreases |log'|
  {
    if |log| < |log'| {
      assert OnlyNames(log, log'[..|log'| - 1], names);
      CountSame(log, log'[..|log'| - 1], names, x);
    } else {
      assert log == log';
    }
  }

  lemma {:induction false} CountTwice(log: Log, i: nat, j: nat)
    requires i < j < |log| && log[i].name == log[j].name
    ensures Count(log, log[i].name) >= 2
  {
    if j < |log| - 1 {
      CountTwice(log[..|log| - 1], i, j);
    } else {
      CountOnce(log[..j], i);
    }
  }

  lemma {:induction false} CountOnce(log: Log, i: nat)
    requires i < |log|
    ensures Count(log, log[i].name) >= 1
  {
    if i < |log| - 1 { CountOnce(log[..|log| - 1], i); }
  }

  lemma CountRecord(log: Log, r: Record, x: string)
    ensures Count(log + [r], x) == Count(log, x) + if r.name == x then 1 else 0
  {
    assert (log + [r])[..|log|] == log;
  }

  lemma {:induction false} TargetCounts(target: Expr, c: Option<Capability>, log: Log, x: string)
    ensures Count(RecordTarget(target, c, log), x) == Count(log, x) + Occurrences(target, x)
    decreases target
  {
    match target
    case Name(id) => CountRecord(log, Record(id, c), x);
    case Display(items) => ItemsCount(items, log, x);
    case _ =>
  }

  lemma {:induction false} ItemsCount(targets: seq<Expr>, log: Log, x: string)
    ensures Count(RecordItems(targets, log), x) == Count(log, x) + OccurrencesIn(targets, x)
    decreases targets
  {
    if targets != [] {
      TargetCounts(targets[0], None, log, x);
      ItemsCount(targets[1..], RecordTarget(targets[0], None, log), x);
    }
  }

  lemma {:induction false} AssignCounts(s: Scope, targets: seq<Expr>, c: Option<Capability>, log: Log, x: string)
    requires AssignTargets(s, targets, c, log).Success?
    ensures Count(AssignTargets(s, targets, c, log).value, x) == Count(log, x) + OccurrencesIn(targets, x)
  {
    if targets != [] {
      TargetCounts(targets[0], c, log, x);
      AssignCounts(s, targets[1..], c, RecordTarget(targets[0], c, log), x);
    }
  }

  lemma ExprCounts(s: Scope, e: Expr, log: Log, x: string)
    requires Visit(s, e, log).Success? && x !in ComprehensionNames(e)
    ensures Count(Visit(s, e, log).value, x) == Count(log, x)
  {
    VisitNames(s, e, log);
    CountSame(log, Visit(s, e, log).value, ComprehensionNames(e), x);
  }

  lemma AssignStmtCounts(s: Scope, stmt: Stmt, log: Log, x: string)
    requires stmt.Assign? && VisitStmt(s, stmt, 0, log).Success? && x !in InnerNames(stmt)
    ensures Count(VisitStmt(s, stmt, 0, log).value, x) == Count(log, x) + Stores(stmt, x)
  {
    var log1 := Visit(s, stmt.value, log).value;
    var (c, log2) := CapabilityOf(s, stmt.value, log1).value;
    ExprCounts(s, stmt.value, log, x);
    CapabilityNames(s, stmt.value, log1);
    CountSame(log1, log2, ComprehensionNames(stmt.value), x);
    AssignCounts(s, stmt.targets, c, log2, x);
  }

  lemma AugAssignCounts(s: Scope, stmt: Stmt, log: Log, x: string)
    requires stmt.AugAssign? && VisitStmt(s, stmt, 0, log).Success? && x !in InnerNames(stmt)
    ensures Count(VisitStmt(s, stmt, 0, log).value, x) == Count(log, x) + Stores(stmt, x)
  {
    ExprCounts(s, stmt.value, log, x);
    TargetCounts(stmt.target, None, Visit(s, stmt.value, log).value, x);
  }

  lemma AssertCounts(s: Scope, stmt: Stmt, log: Log, x: string)
    requires stmt.Assert? && VisitStmt(s, stmt, 0, log).Success? && x !in InnerNames(stmt)
    ensures Count(VisitStmt(s, stmt, 0, log).value, x) == Count(log, x)
  {
    ExprCounts(s, stmt.test, log, x);
    if stmt.message.Some? { ExprCounts(s, stmt.message.value, Visit(s, stmt.test, log).value, x); }
  }

  /** A statement records a name as often as it stores to it, comprehension targets aside. */
  lemma {:induction false} StmtCounts(s: Scope, stmt: Stmt, depth: nat, log: Log, x: string)
    requires VisitStmt(s, stmt, depth, log).Success? && x !in InnerNames(stmt)
    ensures Count(VisitStmt(s, stmt, depth, log).value, x) == Count(log, x) + Stores(stmt, x)
    decreases stmt, 1
  {
    match stmt
    case Assign(_, _) => AssignStmtCounts(s, stmt, log, x);
    case AugAssign(_, _, _) => AugAssignCounts(s, stmt, log, x);
    case Return(result) => ExprCounts(s, result.value, log, x);
    case If(_, _, _) => BranchCounts(s, stmt, depth, log, x);
    case For(_, _, _, _) => LoopCounts(s, stmt, depth, log, x);
    case Assert(_, _) => AssertCounts(s, stmt, log, x);
    case _ =>
  }

  lemma {:induction false} BranchCounts(s: Scope, stmt: Stmt, depth: nat, log: Log, x: string)
    requires stmt.If? && VisitStmt(s, stmt, depth, log).Success? && x !in InnerNames(stmt)
    ensures Count(VisitStmt(s, stmt, depth, log).value, x) == Count(log, x) + Stores(stmt, x)
    decreases stmt, 0
  {
    var log1 := Visit(s, stmt.test, log).value;
    ExprCounts(s, stmt.test, log, x);
    BlockCounts(s, stmt.body, depth, log1, x);
    BlockCounts(s, stmt.orelse, depth, VisitBlock(s, stmt.body, depth, log1).value, x);
  }

  lemma {:induction false} LoopCounts(s: Scope, stmt: Stmt, depth: nat, log: Log, x: string)
    requires stmt.For? && VisitStmt(s, stmt, depth, log).Success? && x !in InnerNames(stmt)
    ensures Count(VisitStmt(s, stmt, depth, log).value, x) == Count(log, x) + Stores(stmt, x)
    decreases stmt, 0
  {
    hide Visit, VisitBlock, RecordTarget, Count;
    var log1 := Visit(s, stmt.iter, log).value;
    var log2 := RecordTarget(stmt.target, None, log1);
    ExprCounts(s, stmt.iter, log, x);
    TargetCounts(stmt.target, None, log1, x);
    BlockCounts(s, stmt.body, depth + 1, log2, x);
    BlockCounts(s, stmt.orelse, depth + 1, VisitBlock(s, stmt.body, depth + 1, log2).value, x);
  }

  lemma {:induction false} BlockCounts(s: Scope, stmts: seq<Stmt>, depth: nat, log: Log, x: string)
    requires VisitBlock(s, stmts, depth, log).Success? && x !in InnerNamesOf(stmts)
    ensures Count(VisitBlock(s, stmts, depth, log).value, x) == Count(log, x) + StoresOf(stmts, x)
    decreases stmts, 0
  {
    if stmts != [] {
      StmtCounts(s, stmts[0], depth, log, x);
      BlockCounts(s, stmts[1..], depth, VisitStmt(s, stmts[0], depth, log).value, x);
    }
  }

  // ---- Capabilities go to carriers only ----

  lemma {:induction false} PlainTargetsCarry(s: Scope, targets: seq<Expr>, c: Option<Capability>, log: Log)
    requires AssignTargets(s, targets, c, log).Success?
    ensures RecordsOnly(log, AssignTargets(s, targets, c, log).value, if c.Some? then PlainNames(targets) else {})
  {
    if targets != [] {
      var log1 := RecordTarget(targets[0], c, log);
      PlainTargetsCarry(s, targets[1..], c, log1);
      assert PlainNames(targets[1..]) <= PlainNames(targets);
      assert targets[0].Name? ==> targets[0].id in PlainNames(targets);
    }
  }

  lemma {:induction false} StmtCarries(s: Scope, stmt: Stmt, depth: nat, log: Log)
    requires VisitStmt(s, stmt, depth, log).Success?
    ensures RecordsOnly(log, VisitStmt(s, stmt, depth, log).value, Carriers(stmt))
    decreases stmt, 1
  {
    hide Visit, VisitBlock, CapabilityOf, AssignTargets;
    match stmt
    case Assign(targets, value) =>
      var log1 := Visit(s, value, log).value;
      var (c, log2) := CapabilityOf(s, value, log1).value;
      CapabilityNames(s, value, log1);
      PlainTargetsCarry(s, targets, c, log2);
    case If(test, body, orelse) =>
      var log1 := Visit(s, test, log).value;
      BlockCarries(s, body, depth, log1);
      BlockCarries(s, orelse, depth, VisitBlock(s, body, depth, log1).value);
    case For(target, iter, body, orelse) =>
      var log1 := RecordTarget(target, None, Visit(s, iter, log).value);
      BlockCarries(s, body, depth + 1, log1);
      BlockCarries(s, orelse, depth + 1, VisitBlock(s, body, depth + 1, log1).value);
    case _ =>
  }

  lemma {:induction false} BlockCarries(s: Scope, stmts: seq<Stmt>, depth: nat, log: Log)
    requires VisitBlock(s, stmts, depth, log).Success?
    ensures RecordsOnly(log, VisitBlock(s, stmts, depth, log).value, CarriersOf(stmts))
    decreases stmts, 0
  {
    if stmts != [] {
      StmtCarries(s, stmts[0], depth, log);
      BlockCarries(s, stmts[1..], depth, VisitStmt(s, stmts[0], depth, log).value);
    }
  }

  // ---- Consistency and soundness from the text ----

  lemma StoredOnceIsConsistent(s: Scope, f: Function)
    requires ValidateFunction(s, f).Success? && CarriersStoredOnce(SkipDocstring(f.body))
    ensures Consistent(ValidateFunction(s, f).value)
  {
    var body, log := SkipDocstring(f.body), ValidateFunction(s, f).value;
    BlockCarries(s, body, 0, []);
    forall i, j | 0 <= i < |log| && 0 <= j < |log| && log[i].name == log[j].name
      ensures log[i].capability == log[j].capability
    {
      if log[i].capability != log[j].capability {
        BlockCounts(s, body, 0, [], log[i].name);
        CountTwice(log, if i < j then i else j, if i < j then j else i);
      }
    }
  }

  /** Soundness from two conditions on the text: carriers stored once, and an entrypoint named like no import. */
  lemma TextualSoundness(lang: Language, bindings: map<string, Capability>, f: Function, w: World, nesting: nat)
    requires ValidateFunction(ScopeOf(lang, bindings, f), f).Success? && Faithful(lang, w)
    requires CarriersStoredOnce(SkipDocstring(f.body)) && f.name !in bindings
    ensures !Run(ScopeOf(lang, bindings, f), f, w, nesting).Missing?
  {
    var s := ScopeOf(lang, bindings, f);
    StoredOnceIsConsistent(s, f);
    ConsistentBlock(s, SkipDocstring(f.body), 0, [], ValidateFunction(s, f).value);
    CapabilitySoundness(lang, bindings, f, w, nesting);
  }
}
