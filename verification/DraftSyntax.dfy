/** Abstract syntax of Draft Language v1 sources and the capability tables they are checked against. */
module DraftSyntax {
  import opened Prelude

  datatype Expr =
    | Name(id: string)
    | Constant(isJsonScalar: bool)                      // str, int, float, bool, None; else bytes, complex, ...
    | Display(items: seq<Expr>)                         // list, tuple and set displays
    | Dict(entries: seq<Expr>, unpacks: bool)           // keys and values in order; unpacks: some `**d`
    | BinOp(binary: string, left: Expr, right: Expr)
    | UnaryOp(unary: string, operand: Expr)
    | BoolOp(values: seq<Expr>)
    | Compare(comparisons: seq<string>, first: Expr, comparators: seq<Expr>)
    | IfExp(test: Expr, body: Expr, orelse: Expr)
    | Subscript(base: Expr, index: Expr)
    | Slice(bounds: seq<Expr>)
    | Attribute(value: Expr, attr: string)
    | Call(func: Expr, args: seq<Expr>, unpacks: bool)  // positional, then keyword values; unpacks: some `**d`
    | Comprehension(lazy: bool, generators: seq<Generator>, elements: seq<Expr>)  // lazy: a generator expression
    | OtherExpr(stores: set<string>)                    // starred, lambda, walrus, await, ..., and names stored inside

  datatype Generator = Generator(target: Expr, iter: Expr, conditions: seq<Expr>, isAsync: bool)

  datatype Stmt =
    | Assign(targets: seq<Expr>, value: Expr)
    | AugAssign(target: Expr, operator: string, value: Expr)
    | Return(result: Option<Expr>)
    | If(test: Expr, body: seq<Stmt>, orelse: seq<Stmt>)
    | For(target: Expr, iter: Expr, body: seq<Stmt>, orelse: seq<Stmt>)
    | Break
    | Continue
    | Pass
    | Assert(test: Expr, message: Option<Expr>)
    | TextStmt                                          // a bare string literal
    | ExprStmt(value: Expr)
    | OtherStmt                                         // import, while, try, with, def, class, match, ...

  datatype Arguments = Arguments(names: seq<string>, plain: bool) // plain: no other parameter kind, no default

  datatype Function = Function(
    name: string, arguments: Arguments, body: seq<Stmt>,
    decorators: seq<Expr>, typeParameters: seq<string>, annotations: seq<Expr>)

  datatype Alias = Alias(name: string, asName: Option<string>)

  datatype TopLevel =
    | Docstring
    | Import(aliases: seq<Alias>)
    | ImportFrom(level: nat, source: Option<string>, aliases: seq<Alias>)
    | Def(definition: Function)
    | OtherTopLevel

  /** What the validator believes a name or expression stands for. */
  datatype Capability =
    | Module(name: string)
    | Symbol(source: string, member: string)
    | Instance(kind: string)
    | Context
    | Inputs

  datatype MemberKind = Callable | Plain
  datatype Member = Member(kind: MemberKind, result: Option<string>)

  /** The finite tables of a language version. */
  datatype Language = Language(
    modules: map<string, map<string, Member>>,
    instances: map<string, map<string, Member>>,
    contextMembers: set<string>,
    inputMembers: map<string, Member>,
    builtins: set<string>,
    isIdentifier: string -> bool)

  const RESERVED := {"inputs", "ctx"}
  const BINARY_OPERATORS := {"Add", "Sub", "Mult", "Div", "FloorDiv", "Mod", "Pow"}
  const UNARY_OPERATORS := {"UAdd", "USub", "Not"}
  const COMPARISONS := {"Eq", "NotEq", "Lt", "LtE", "Gt", "GtE", "In", "NotIn", "Is", "IsNot"}

  predicate IsPrivate(name: string) {
    name != "" && name[0] == '_'
  }

  predicate IsSafeIdentifier(lang: Language, name: string) {
    lang.isIdentifier(name) && !IsPrivate(name)
  }

  // ---- Names a function stores to ----

  function TargetNames(target: Expr): set<string> {
    match target
    case Name(id) => {id}
    case Display(items) => set t, x | t in items && x in TargetNames(t) :: x
    case _ => {}
  }

  /** Names bound by comprehension targets, or stored by a walrus, anywhere inside an expression. */
  function ComprehensionNames(e: Expr): set<string>
    decreases e, 1
  {
    match e
    case Display(items) => ComprehensionNamesOf(items)
    case Dict(entries, _) => ComprehensionNamesOf(entries)
    case BinOp(_, left, right) => ComprehensionNames(left) + ComprehensionNames(right)
    case UnaryOp(_, operand) => ComprehensionNames(operand)
    case BoolOp(values) => ComprehensionNamesOf(values)
    case Compare(_, first, comparators) => ComprehensionNames(first) + ComprehensionNamesOf(comparators)
    case IfExp(test, body, orelse) => ComprehensionNames(test) + ComprehensionNames(body) + ComprehensionNames(orelse)
    case Subscript(base, index) => ComprehensionNames(base) + ComprehensionNames(index)
    case Slice(bounds) => ComprehensionNamesOf(bounds)
    case Attribute(value, _) => ComprehensionNames(value)
    case Call(func, args, _) => ComprehensionNames(func) + ComprehensionNamesOf(args)
    case Comprehension(_, generators, elements) => GeneratorNames(generators) + ComprehensionNamesOf(elements)
    case OtherExpr(stores) => stores
    case _ => {}
  }

  function ComprehensionNamesOf(es: seq<Expr>): set<string>
    decreases es, 0
  {
    if es == [] then {} else ComprehensionNames(es[0]) + ComprehensionNamesOf(es[1..])
  }

  function GeneratorNames(gs: seq<Generator>): set<string>
    decreases gs, 0
  {
    if gs == [] then {}
    else TargetNames(gs[0].target) + ComprehensionNames(gs[0].iter)
         + ComprehensionNamesOf(gs[0].conditions) + GeneratorNames(gs[1..])
  }

  /** Names bound in the function's own scope: targets of assignments and for loops. */
  function AssignedNames(stmt: Stmt): set<string>
    decreases stmt, 1
  {
    match stmt
    case Assign(targets, _) => TargetNames(Display(targets))
    case AugAssign(target, _, _) => TargetNames(target)
    case If(_, body, orelse) => AssignedNamesOf(body) + AssignedNamesOf(orelse)
    case For(target, _, body, orelse) => TargetNames(target) + AssignedNamesOf(body) + AssignedNamesOf(orelse)
    case _ => {}
  }

  function AssignedNamesOf(stmts: seq<Stmt>): set<string>
    decreases stmts, 0
  {
    if stmts == [] then {} else AssignedNames(stmts[0]) + AssignedNamesOf(stmts[1..])
  }

  /** Names bound only in comprehension scopes of a statement. */
  function InnerNames(stmt: Stmt): set<string>
    decreases stmt, 1
  {
    match stmt
    case Assign(_, value) => ComprehensionNames(value)
    case AugAssign(_, _, value) => ComprehensionNames(value)
    case Return(Some(value)) => ComprehensionNames(value)
    case If(test, body, orelse) => ComprehensionNames(test) + InnerNamesOf(body) + InnerNamesOf(orelse)
    case For(_, iter, body, orelse) => ComprehensionNames(iter) + InnerNamesOf(body) + InnerNamesOf(orelse)
    case Assert(test, None) => ComprehensionNames(test)
    case Assert(test, Some(message)) => ComprehensionNames(test) + ComprehensionNames(message)
    case ExprStmt(value) => ComprehensionNames(value)
    case _ => {}
  }

  function InnerNamesOf(stmts: seq<Stmt>): set<string>
    decreases stmts, 0
  {
    if stmts == [] then {} else InnerNames(stmts[0]) + InnerNamesOf(stmts[1..])
  }

  /** Every name stored anywhere in the function, annotations included. */
  function LocalNames(f: Function): set<string> {
    AssignedNamesOf(f.body) + InnerNamesOf(f.body) + ComprehensionNamesOf(f.annotations)
  }

  // ---- Fragments ----

  /** A fragment of a draft: an expression read, or an assignment target. */
  datatype Fragment = Expression(e: Expr) | Target(t: Expr)

  /** Every expression and target anywhere inside an expression, itself included. */
  function Parts(e: Expr): set<Fragment>
    decreases e, 1
  {
    {Expression(e)} +
    match e
    case Display(items) => PartsOf(items)
    case Dict(entries, _) => PartsOf(entries)
    case BinOp(_, left, right) => Parts(left) + Parts(right)
    case UnaryOp(_, operand) => Parts(operand)
    case BoolOp(values) => PartsOf(values)
    case Compare(_, first, comparators) => Parts(first) + PartsOf(comparators)
    case IfExp(test, body, orelse) => Parts(test) + Parts(body) + Parts(orelse)
    case Subscript(base, index) => Parts(base) + Parts(index)
    case Slice(bounds) => PartsOf(bounds)
    case Attribute(value, _) => Parts(value)
    case Call(func, args, _) => Parts(func) + PartsOf(args)
    case Comprehension(_, generators, elements) => GeneratorParts(generators) + PartsOf(elements)
    case _ => {}
  }

  function PartsOf(es: seq<Expr>): set<Fragment>
    decreases es, 0
  {
    if es == [] then {} else Parts(es[0]) + PartsOf(es[1..])
  }

  function GeneratorParts(gs: seq<Generator>): set<Fragment>
    decreases gs, 0
  {
    if gs == [] then {}
    else {Target(gs[0].target)} + Parts(gs[0].iter) + PartsOf(gs[0].conditions) + GeneratorParts(gs[1..])
  }

  function StmtParts(stmt: Stmt): set<Fragment>
    decreases stmt, 1
  {
    match stmt
    case Assign(targets, value) => (set t | t in targets :: Target(t)) + Parts(value)
    case AugAssign(target, _, value) => {Target(target)} + Parts(value)
    case Return(Some(value)) => Parts(value)
    case If(test, body, orelse) => Parts(test) + BlockParts(body) + BlockParts(orelse)
    case For(target, iter, body, orelse) => {Target(target)} + Parts(iter) + BlockParts(body) + BlockParts(orelse)
    case Assert(test, None) => Parts(test)
    case Assert(test, Some(message)) => Parts(test) + Parts(message)
    case ExprStmt(value) => Parts(value)
    case _ => {}
  }

  function BlockParts(stmts: seq<Stmt>): set<Fragment>
    decreases stmts, 0
  {
    if stmts == [] then {} else StmtParts(stmts[0]) + BlockParts(stmts[1..])
  }

  /** A generator expression runs only when something asks for its items. */
  predicate IsLazy(x: Fragment) {
    x.Expression? && x.e.Comprehension? && x.e.lazy
  }

  /** What a generator expression leaves for later: all but its first iterable. */
  function Delayed(e: Expr): set<Fragment>
    requires e.Comprehension?
  {
    if e.generators == [] then PartsOf(e.elements)
    else PartsOf(e.generators[0].conditions) + GeneratorParts(e.generators[1..]) + PartsOf(e.elements)
  }

  /** The names mentioned there. */
  function DelayedNames(e: Expr): set<string>
    requires e.Comprehension?
  {
    set x | x in Delayed(e) && x.Expression? && x.e.Name? :: x.e.id
  }

  /** What the generators of a comprehension bind. */
  function TargetsOf(gs: seq<Generator>): set<string> {
    if gs == [] then {} else TargetNames(gs[0].target) + TargetsOf(gs[1..])
  }
}
