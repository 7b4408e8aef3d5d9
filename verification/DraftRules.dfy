/** The rules of the draft validator as functions over the log of recorded assignments. */
module DraftRules {
  import opened Prelude
  import opened DraftSyntax

  /** One recorded assignment: the capability a target name received. */
  datatype Record = Record(name: string, capability: Option<Capability>)
  type Log = seq<Record>

  datatype Scope = Scope(lang: Language, bindings: map<string, Capability>, locals: set<string>)

  /** The table of current capabilities: for each recorded name, its last record. */
  function Recorded(log: Log): map<string, Option<Capability>> {
    if log == [] then map[]
    else Recorded(log[..|log| - 1])[log[|log| - 1].name := log[|log| - 1].capability]
  }

  /** `log'` continues `log` with records of plain values only. */
  ghost predicate Grows(log: Log, log': Log) {
    log <= log' && forall i :: |log| <= i < |log'| ==> log'[i].capability.None?
  }

  predicate IsReadable(s: Scope, id: string) {
    id in s.locals || id in RESERVED || id in s.bindings || id in s.lang.builtins
  }

  predicate NameAllowed(s: Scope, id: string) {
    IsSafeIdentifier(s.lang, id) && IsReadable(s, id)
  }

  function NameCapability(s: Scope, id: string, log: Log): Option<Capability> {
    if id == "inputs" then Some(Inputs)
    else if id == "ctx" then Some(Context)
    else if id in Recorded(log) then Recorded(log)[id]
    else if id in s.bindings then Some(s.bindings[id])
    else None
  }

  function LookUp(members: map<string, Member>, name: string): Option<Member> {
    if name in members then Some(members[name]) else None
  }

  function MembersFor(lang: Language, c: Capability): map<string, Member> {
    match c
    case Module(m) => if m in lang.modules then lang.modules[m] else map[]
    case Instance(k) => if k in lang.instances then lang.instances[k] else map[]
    case _ => map[]
  }

  function SymbolMember(lang: Language, source: string, member: string): Option<Member> {
    LookUp(MembersFor(lang, Module(source)), member)
  }

  /** The member an attribute of a given receiver capability denotes, if the tables expose it. */
  function ExposedMember(lang: Language, c: Option<Capability>, attr: string): Option<Member> {
    match c
    case None => None
    case Some(Context) => if attr in lang.contextMembers then Some(Member(Plain, None)) else None
    case Some(Inputs) => LookUp(lang.inputMembers, attr)
    case Some(other) => LookUp(MembersFor(lang, other), attr)
  }

  function ResultCapability(m: Member): Option<Capability> {
    match m.result
    case None => None
    case Some(kind) => Some(Instance(kind))
  }

  predicate IsImported(c: Option<Capability>) {
    c.Some? && (c.value.Module? || c.value.Symbol?)
  }

  function CapabilityOf(s: Scope, e: Expr, log: Log): (r: Result<(Option<Capability>, Log)>)
    decreases e, 0
    ensures r.Success? ==> Grows(log, r.value.1)
  {
    match e
    case Name(id) => Success((NameCapability(s, id, log), log))
    case Attribute(value, attr) =>
      var (member, log') :- AttributeMember(s, value, attr, log);
      Success((ResultCapability(member), log'))
    case Call(func, _, _) =>
      var (member, log') :- CallMember(s, func, log);
      Success((ResultCapability(member), log'))
    case _ => Success((None, log))
  }

  function AttributeMember(s: Scope, receiver: Expr, attr: string, log: Log): (r: Result<(Member, Log)>)
    decreases receiver, 1
    ensures r.Success? ==> Grows(log, r.value.1)
  {
    if IsPrivate(attr) then Failure
    else
      var (capability, log') :- CapabilityOf(s, receiver, log);
      match ExposedMember(s.lang, capability, attr)
      case None => Failure
      case Some(member) => Success((member, log'))
  }

  function CallMember(s: Scope, func: Expr, log: Log): (r: Result<(Member, Log)>)
    decreases func, 2
    ensures r.Success? ==> Grows(log, r.value.1)
  {
    match func
    case Name(id) =>
      if !NameAllowed(s, id) then Failure
      else if id in s.lang.builtins then Success((Member(Callable, None), log))
      else (match NameCapability(s, id, log)
            case Some(Symbol(source, name)) =>
              (match SymbolMember(s.lang, source, name)
               case Some(member) => Success((member, log))
               case None => Failure)
            case _ => Failure)
    case Attribute(value, attr) =>
      var (member, log1) :- AttributeMember(s, value, attr, log);
      var log2 :- Visit(s, value, log1);
      Success((member, log2))
    case _ => Failure
  }

  function Visit(s: Scope, e: Expr, log: Log): (r: Result<Log>)
    decreases e, 3
    ensures r.Success? ==> Grows(log, r.value)
  {
    match e
    case Name(id) => if NameAllowed(s, id) then Success(log) else Failure
    case Constant(isJsonScalar) => if isJsonScalar then Success(log) else Failure
    case Display(items) => VisitAll(s, items, log)
    case Dict(entries, unpacks) => if unpacks then Failure else VisitAll(s, entries, log)
    case BinOp(binary, left, right) =>
      if binary !in BINARY_OPERATORS then Failure
      else
        var log1 :- Visit(s, left, log);
        Visit(s, right, log1)
    case UnaryOp(unary, operand) => if unary in UNARY_OPERATORS then Visit(s, operand, log) else Failure
    case BoolOp(values) => VisitAll(s, values, log)
    case Compare(comparisons, first, comparators) =>
      if exists c | c in comparisons :: c !in COMPARISONS then Failure
      else
        var log1 :- Visit(s, first, log);
        VisitAll(s, comparators, log1)
    case IfExp(test, body, orelse) =>
      var log1 :- Visit(s, test, log);
      var log2 :- Visit(s, body, log1);
      Visit(s, orelse, log2)
    case Subscript(base, index) =>
      var (capability, log1) :- CapabilityOf(s, base, log);
      if IsImported(capability) then Failure
      else
        var log2 :- Visit(s, base, log1);
        Visit(s, index, log2)
    case Slice(bounds) => VisitAll(s, bounds, log)
    case Attribute(value, attr) =>
      var (_, log1) :- AttributeMember(s, value, attr, log);
      Visit(s, value, log1)
    case Call(func, args, unpacks) =>
      var (member, log1) :- CallMember(s, func, log);
      if !member.kind.Callable? || unpacks then Failure else VisitAll(s, args, log1)
    case Comprehension(_, generators, elements) =>
      var log1 :- VisitGenerators(s, generators, log);
      VisitAll(s, elements, log1)
    case OtherExpr(_) => Failure
  }

  function VisitAll(s: Scope, es: seq<Expr>, log: Log): (r: Result<Log>)
    decreases es, 0
    ensures r.Success? ==> Grows(log, r.value)
  {
    if es == [] then Success(log)
    else
      var log1 :- Visit(s, es[0], log);
      VisitAll(s, es[1..], log1)
  }

  function VisitGenerators(s: Scope, gs: seq<Generator>, log: Log): (r: Result<Log>)
    decreases gs, 0
    ensures r.Success? ==> Grows(log, r.value)
  {
    if gs == [] then Success(log)
    else if gs[0].isAsync then Failure
    else
      var log1 :- Visit(s, gs[0].iter, log);
      if !TargetAllowed(s, gs[0].target) then Failure
      else
        var log2 :- VisitAll(s, gs[0].conditions, RecordTarget(gs[0].target, None, log1));
        VisitGenerators(s, gs[1..], log2)
  }

  /** Only local names, or displays of them, may be assigned. */
  predicate TargetAllowed(s: Scope, target: Expr) {
    match target
    case Name(id) => IsSafeIdentifier(s.lang, id) && id in s.locals
    case Display(items) => forall t | t in items :: TargetAllowed(s, t)
    case _ => false
  }

  /** A plain name takes the value's capability; the parts of an unpacked value take none. */
  function RecordTarget(target: Expr, c: Option<Capability>, log: Log): (r: Log)
    ensures log <= r && (c.None? || target.Display? ==> Grows(log, r))
    decreases target
  {
    match target
    case Name(id) => log + [Record(id, c)]
    case Display(items) => RecordItems(items, log)
    case _ => log
  }

  function RecordItems(targets: seq<Expr>, log: Log): (r: Log)
    ensures Grows(log, r)
    decreases targets
  {
    if targets == [] then log else RecordItems(targets[1..], RecordTarget(targets[0], None, log))
  }

  function AssignTargets(s: Scope, targets: seq<Expr>, c: Option<Capability>, log: Log): (r: Result<Log>)
    ensures r.Success? ==> log <= r.value
  {
    if targets == [] then Success(log)
    else if !TargetAllowed(s, targets[0]) then Failure
    else AssignTargets(s, targets[1..], c, RecordTarget(targets[0], c, log))
  }

  function VisitStmt(s: Scope, stmt: Stmt, loopDepth: nat, log: Log): (r: Result<Log>)
    decreases stmt, 1
    ensures r.Success? ==> log <= r.value
  {
    match stmt
    case Assign(targets, value) =>
      var log1 :- Visit(s, value, log);
      var (capability, log2) :- CapabilityOf(s, value, log1);
      AssignTargets(s, targets, capability, log2)
    case AugAssign(target, operator, value) =>
      if operator !in BINARY_OPERATORS || !TargetAllowed(s, target) then Failure
      else
        var log1 :- Visit(s, value, log);
        Success(RecordTarget(target, None, log1))
    case Return(result) =>
      if result.None? then Failure else Visit(s, result.value, log)
    case If(test, body, orelse) =>
      var log1 :- Visit(s, test, log);
      var log2 :- VisitBlock(s, body, loopDepth, log1);
      VisitBlock(s, orelse, loopDepth, log2)
    case For(target, iter, body, orelse) =>
      var log1 :- Visit(s, iter, log);
      if !TargetAllowed(s, target) then Failure
      else
        var log2 :- VisitBlock(s, body, loopDepth + 1, RecordTarget(target, None, log1));
        VisitBlock(s, orelse, loopDepth + 1, log2)
    case Break => if loopDepth == 0 then Failure else Success(log)
    case Continue => if loopDepth == 0 then Failure else Success(log)
    case Pass => Success(log)
    case Assert(test, message) =>
      var log1 :- Visit(s, test, log);
      if message.None? then Success(log1) else Visit(s, message.value, log1)
    case TextStmt => Failure
    case ExprStmt(_) => Failure
    case OtherStmt => Failure
  }

  function VisitBlock(s: Scope, stmts: seq<Stmt>, loopDepth: nat, log: Log): (r: Result<Log>)
    decreases stmts, 0
    ensures r.Success? ==> log <= r.value
  {
    if stmts == [] then Success(log)
    else
      var log1 :- VisitStmt(s, stmts[0], loopDepth, log);
      VisitBlock(s, stmts[1..], loopDepth, log1)
  }

  // ---- Whole functions ----

  function SkipDocstring(body: seq<Stmt>): seq<Stmt> {
    if body != [] && body[0].TextStmt? then body[1..] else body
  }

  function ScopeOf(lang: Language, bindings: map<string, Capability>, f: Function): Scope {
    Scope(lang, bindings, LocalNames(f))
  }

  predicate SignatureAllowed(s: Scope, f: Function) {
    && f.decorators == [] && f.typeParameters == []
    && f.arguments.plain && f.arguments.names == ["inputs", "ctx"]
    && s.locals !! RESERVED + s.bindings.Keys
    && (forall x | x in s.locals :: IsSafeIdentifier(s.lang, x))
    && f.body != []
  }

  /** The log of a function the validator accepts. */
  function ValidateFunction(s: Scope, f: Function): Result<Log> {
    if SignatureAllowed(s, f) then VisitBlock(s, SkipDocstring(f.body), 0, []) else Failure
  }
}
