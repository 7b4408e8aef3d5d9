/**
 * A big-step semantics for drafts.  Everything outside the language (calls, operators, iteration, truth) is answered
 * by a World; each question carries a fresh tick, so answers may differ over time.  A generator expression is only
 * suspended where it stands; whenever the world is asked to call, combine or go through values, it may first run any
 * suspended generator for a while, in the frame as it then is.
 */
module DraftSemantics {
  import opened Prelude
  import opened DraftSyntax
  import opened DraftRules

  datatype Value =
    | Facade(kind: Capability, id: int)          // a module facade, an instance, ctx or inputs
    | MemberOf(owner: Capability, name: string)  // what reading an exposed member gives, bound or not
    | BuiltinV(name: string)
    | EntrypointV
    | Data(id: int, parts: seq<Value>)

  type Env = map<string, Value>

  datatype Iteration = Iteration(items: seq<Value>, exhausted: bool)  // exhausted: false if it raised

  /** A generator made: the names of the frame and of the comprehensions around it that it can read. */
  datatype Suspended = Suspended(e: Expr, free: set<string>, bound: set<string>)

  /** Ticks, and the generators made so far. */
  datatype Clock = Clock(tick: nat, pending: seq<Suspended>)
  {
    function Next(): Clock { Clock(tick + 1, pending) }
    function Suspend(s: Suspended): Clock { Clock(tick + 1, pending + [s]) }
  }

  /**
   * Going on with one of the generators: at which of its nested loops, with which items, and with what in the
   * variables of comprehensions, its own ones included; and whether whoever asked for it survives an exception.
   */
  datatype Resumption = Resumption(which: nat, level: nat, vars: Env, over: Iteration, caught: bool)

  datatype World = World(
    call: (Clock, Value, seq<Value>) -> Option<Value>,
    operate: (Clock, string, seq<Value>) -> Option<Value>,
    iterate: (Clock, Value) -> Iteration,
    unpack: (Clock, Value) -> seq<Value>,
    truth: (Clock, Value) -> bool,
    resume: Clock -> seq<Resumption>)

  /** Code of the body has the frame for its environment; comprehensions see names of it and bind their own. */
  datatype Place = Body | Inner(frame: Env, visible: set<string>, bound: set<string>)

  /**
   * A draft ready to run: its scope, the names its own frame assigns, its global name, how deep running generators
   * may have others run, and the place of the code being run.
   */
  datatype Program = Program(
    scope: Scope, frameNames: set<string>, entrypoint: string, nesting: nat, place: Place)

  function FrameOf(p: Program, env: Env): Env {
    if p.place.Body? then env else p.place.frame
  }

  function VisibleOf(p: Program): set<string> {
    if p.place.Body? then p.scope.locals + RESERVED else p.place.visible
  }

  function BoundOf(p: Program): set<string> {
    if p.place.Body? then {} else p.place.bound
  }

  /** The program inside a comprehension that binds some names. */
  function Within(p: Program, env: Env, names: set<string>): Program {
    p.(place := Inner(FrameOf(p, env), VisibleOf(p) - names, BoundOf(p) + names))
  }

  function Without(env: Env, names: set<string>): Env {
    map n | n in env && n !in names :: env[n]
  }

  function Suspension(p: Program, e: Expr): Suspended
    requires e.Comprehension?
  {
    var targets := TargetsOf(e.generators);
    Suspended(e, DelayedNames(e) * VisibleOf(p) - targets, BoundOf(p) + targets)
  }

  /** What a generator reads when it is run: its names of the frame, and variables of comprehensions. */
  function Closure(frame: Env, s: Suspended, vars: Env): Env {
    (map n | n in frame && n in s.free + RESERVED :: frame[n]) + (map n | n in vars && n in s.bound :: vars[n])
  }

  /** Missing: an attribute was read that the receiver's runtime kind does not expose. */
  datatype Outcome<+T> = Done(value: T, tick: Clock) | Raised | Missing(receiver: Value, attr: string)
  {
    predicate IsFailure() { !Done? }
    function PropagateFailure<U>(): Outcome<U>
      requires IsFailure()
    {
      if Raised? then Raised else Missing(receiver, attr)
    }
    function Extract(): (T, Clock)
      requires Done?
    {
      (value, tick)
    }
  }

  predicate MakesInstance(lang: Language, m: Member) {
    m.result.Some? && m.result.value in lang.instances
  }

  /**
   * The kind whose members a value has: a facade its own, and a constructor, which the worker exposes as a class,
   * those of the instances it makes.
   */
  function Apparent(lang: Language, v: Value): Option<Capability> {
    match v
    case Facade(kind, _) => Some(kind)
    case MemberOf(owner, name) =>
      (match ExposedMember(lang, Some(owner), name)
       case Some(m) => if MakesInstance(lang, m) then ResultCapability(m) else None
       case None => None)
    case _ => None
  }

  predicate Exposes(lang: Language, v: Value, attr: string) {
    ExposedMember(lang, Apparent(lang, v), attr).Some?
  }

  function BindingValue(c: Capability): Value {
    match c
    case Symbol(source, member) => MemberOf(Module(source), member)
    case _ => Facade(c, 0)
  }

  /** Name lookup: the frame, then globals (the definition replaces an import of its name), then builtins. */
  function Read(p: Program, id: string, env: Env, t: Clock): Outcome<Value> {
    if id in env then Done(env[id], t)
    else if id in p.frameNames || id in BoundOf(p) then Raised
    else if id == p.entrypoint then Done(EntrypointV, t)
    else if id in p.scope.bindings then Done(BindingValue(p.scope.bindings[id]), t)
    else if id in p.scope.lang.builtins then Done(BuiltinV(id), t)
    else Raised
  }

  function Answer(v: Option<Value>, t: Clock): Outcome<Value> {
    if v.Some? then Done(v.value, t.Next()) else Raised
  }

  // ---- Expressions ----

  function Eval(p: Program, w: World, e: Expr, env: Env, t: Clock): Outcome<Value>
    decreases 2 * p.nesting + 1, e, 1, 0, 0, 0
  {
    match e
    case Name(id) => Read(p, id, env, t)
    case Constant(_) => Answer(w.operate(t, "constant", []), t)
    case Display(items) =>
      var (vs, t1) :- EvalAll(p, w, items, env, t);
      var (_, t2) :- Consult(p, w, env, t1);
      Answer(w.operate(t2, "display", vs), t2)
    case Dict(entries, _) =>
      var (vs, t1) :- EvalAll(p, w, entries, env, t);
      var (_, t2) :- Consult(p, w, env, t1);
      Answer(w.operate(t2, "dict", vs), t2)
    case BinOp(binary, left, right) =>
      var (l, t1) :- Eval(p, w, left, env, t);
      var (r, t2) :- Eval(p, w, right, env, t1);
      var (_, t3) :- Consult(p, w, env, t2);
      Answer(w.operate(t3, binary, [l, r]), t3)
    case UnaryOp(unary, operand) =>
      var (v, t1) :- Eval(p, w, operand, env, t);
      var (_, t2) :- Consult(p, w, env, t1);
      Answer(w.operate(t2, unary, [v]), t2)
    case BoolOp(values) => EvalChain(p, w, values, env, t)
    case Compare(_, first, comparators) =>
      var (_, t1) :- Eval(p, w, first, env, t);
      var (_, t2) :- EvalOperands(p, w, comparators, env, t1);
      Answer(w.operate(t2, "compare", []), t2)
    case IfExp(test, body, orelse) =>
      var (v, t1) :- Eval(p, w, test, env, t);
      if w.truth(t1, v) then Eval(p, w, body, env, t1.Next()) else Eval(p, w, orelse, env, t1.Next())
    case Subscript(base, index) =>
      var (b, t1) :- Eval(p, w, base, env, t);
      var (i, t2) :- Eval(p, w, index, env, t1);
      var (_, t3) :- Consult(p, w, env, t2);
      Answer(w.operate(t3, "subscript", [b, i]), t3)
    case Slice(bounds) =>
      var (vs, t1) :- EvalAll(p, w, bounds, env, t);
      var (_, t2) :- Consult(p, w, env, t1);
      Answer(w.operate(t2, "slice", vs), t2)
    case Attribute(value, attr) =>
      var (v, t1) :- Eval(p, w, value, env, t);
      if Exposes(p.scope.lang, v, attr) then Done(MemberOf(Apparent(p.scope.lang, v).value, attr), t1)
      else Missing(v, attr)
    case Call(func, args, _) =>
      var (f, t1) :- Eval(p, w, func, env, t);
      var (vs, t2) :- EvalAll(p, w, args, env, t1);
      var (_, t3) :- Consult(p, w, env, t2);
      Answer(w.call(t3, f, vs), t3)
    case Comprehension(lazy, generators, _) =>
      if generators == [] then Raised
      else
        var (v, t1) :- Eval(p, w, generators[0].iter, env, t);
        if lazy then
          (match w.operate(t1, "generator", [v])
           case Some(made) => Done(made, t1.Suspend(Suspension(p, e)))
           case None => Raised)
        else
          var names := TargetsOf(generators);
          var (_, t2) :- EvalItems(Within(p, env, names), w, e, 0, w.iterate(t1, v), Without(env, names), t1.Next());
          Answer(w.operate(t2, "comprehension", []), t2)
    case OtherExpr(_) => Raised
  }

  function EvalAll(p: Program, w: World, es: seq<Expr>, env: Env, t: Clock): Outcome<seq<Value>>
    decreases 2 * p.nesting + 1, es, 0, 0, 0, 0
  {
    if es == [] then Done([], t)
    else
      var (v, t1) :- Eval(p, w, es[0], env, t);
      var (vs, t2) :- EvalAll(p, w, es[1..], env, t1);
      Done([v] + vs, t2)
  }

  /** Operands in order; the world decides after each whether evaluation short-circuits. */
  function EvalChain(p: Program, w: World, es: seq<Expr>, env: Env, t: Clock): Outcome<Value>
    decreases 2 * p.nesting + 1, es, 0, 0, 0, 0
  {
    if es == [] then Raised
    else
      var (v, t1) :- Eval(p, w, es[0], env, t);
      if |es| == 1 || !w.truth(t1, v) then Done(v, t1.Next()) else EvalChain(p, w, es[1..], env, t1.Next())
  }

  /** The right operands of a comparison: each is compared as soon as it is there, and the chain may end with it. */
  function EvalOperands(p: Program, w: World, es: seq<Expr>, env: Env, t: Clock): Outcome<()>
    decreases 2 * p.nesting + 1, es, 0, 0, 0, 0
  {
    if es == [] then Raised
    else
      var (v, t1) :- Eval(p, w, es[0], env, t);
      var (_, t2) :- Consult(p, w, env, t1);
      if |es| == 1 || !w.truth(t2, v) then Done((), t2.Next()) else EvalOperands(p, w, es[1..], env, t2.Next())
  }

  /** Comprehension conditions: true if all hold. */
  function EvalConditions(p: Program, w: World, es: seq<Expr>, env: Env, t: Clock): Outcome<bool>
    decreases 2 * p.nesting + 1, es, 0, 0, 0, 0
  {
    if es == [] then Done(true, t)
    else
      var (v, t1) :- Eval(p, w, es[0], env, t);
      if w.truth(t1, v) then EvalConditions(p, w, es[1..], env, t1.Next()) else Done(false, t1.Next())
  }

  /** The generators of comprehension `e` from the i-th on, and its elements, all inside the comprehension. */
  function EvalGenerators(p: Program, w: World, e: Expr, i: nat, env: Env, t: Clock): Outcome<()>
    requires e.Comprehension? && i <= |e.generators|
    decreases 2 * p.nesting + 1, e, 0, |e.generators| - i, 1, 0
  {
    if i == |e.generators| then
      var (_, t1) :- EvalAll(p, w, e.elements, env, t);
      Done((), t1)
    else
      var (v, t1) :- Eval(p, w, e.generators[i].iter, env, t);
      EvalItems(p, w, e, i, w.iterate(t1, v), env, t1.Next())
  }

  /** The i-th loop over some items. */
  function EvalItems(p: Program, w: World, e: Expr, i: nat, it: Iteration, env: Env, t: Clock): Outcome<()>
    requires e.Comprehension? && i < |e.generators|
    decreases 2 * p.nesting + 1, e, 0, |e.generators| - i, 0, |it.items|
  {
    var (_, t0) :- Consult(p, w, env, t);
    if it.items == [] then (if it.exhausted then Done((), t0) else Raised)
    else
      var (inner, t1) :- Bind(p, w, e.generators[i].target, it.items[0], env, t0);
      var (keep, t2) :- EvalConditions(p, w, e.generators[i].conditions, inner, t1);
      var (_, t3) :- if keep then EvalGenerators(p, w, e, i + 1, inner, t2) else Done((), t2);
      EvalItems(p, w, e, i, Iteration(it.items[1..], it.exhausted), inner, t3)
  }

  function Bind(p: Program, w: World, target: Expr, v: Value, env: Env, t: Clock): Outcome<Env>
    decreases 2 * p.nesting + 1, target, 1, 0, 0, 0
  {
    match target
    case Name(id) => Done(env[id := v], t)
    case Display(items) =>
      var (_, t1) :- Consult(p, w, env, t);
      BindAll(p, w, items, w.unpack(t1, v), env, t1.Next())
    case _ => Raised
  }

  function BindAll(p: Program, w: World, targets: seq<Expr>, vs: seq<Value>, env: Env, t: Clock): Outcome<Env>
    decreases 2 * p.nesting + 1, targets, 0, 0, 0, 0
  {
    if targets == [] && vs == [] then Done(env, t)
    else if targets == [] || vs == [] then Raised
    else
      var (env1, t1) :- Bind(p, w, targets[0], vs[0], env, t);
      BindAll(p, w, targets[1..], vs[1..], env1, t1)
  }

  // ---- Suspended generators ----

  /** Before the world answers, it may run suspended generators. */
  function Consult(p: Program, w: World, env: Env, t: Clock): Outcome<()>
    decreases 2 * p.nesting, 1, 0
  {
    if p.nesting == 0 then Done((), t)
    else ResumeAll(p.(nesting := p.nesting - 1), w, FrameOf(p, env), w.resume(t), t)
  }

  function ResumeAll(p: Program, w: World, frame: Env, rs: seq<Resumption>, t: Clock): Outcome<()>
    decreases 2 * p.nesting + 2, 0, |rs|
  {
    if rs == [] then Done((), t)
    else
      var r := Resume(p, w, frame, rs[0], t);
      if r.Raised? && rs[0].caught then ResumeAll(p, w, frame, rs[1..], t.Next())
      else
        var (_, t1) :- r;
        ResumeAll(p, w, frame, rs[1..], t1)
  }

  /** One of its loops, over the items the world gives, in the frame as it is now. */
  function Resume(p: Program, w: World, frame: Env, r: Resumption, t: Clock): Outcome<()>
    decreases 2 * p.nesting + 2, 0, 0
  {
    if r.which >= |t.pending| then Done((), t)
    else
      var s := t.pending[r.which];
      if !s.e.Comprehension? || r.level >= |s.e.generators| then Done((), t)
      else EvalItems(Resumed(p, frame, s), w, s.e, r.level, r.over, Closure(frame, s, r.vars), t)
  }

  function Resumed(p: Program, frame: Env, s: Suspended): Program {
    p.(place := Inner(frame, s.free, s.bound))
  }

  // ---- Statements ----

  datatype Signal = Next | Broke | Continued | Returned(value: Value)
  datatype Flow = Flow(env: Env, signal: Signal)

  function Exec(p: Program, w: World, stmt: Stmt, env: Env, t: Clock): Outcome<Flow>
    decreases stmt, 1, 0
  {
    match stmt
    case Assign(targets, value) =>
      var (v, t1) :- Eval(p, w, value, env, t);
      var (env1, t2) :- BindEach(p, w, targets, v, env, t1);
      Done(Flow(env1, Next), t2)
    case AugAssign(target, operator, value) =>
      var (current, t1) :- if target.Name? then Read(p, target.id, env, t) else Raised;  // `a, b += c` does not parse
      var (v, t2) :- Eval(p, w, value, env, t1);
      var (_, t3) :- Consult(p, w, env, t2);
      var (sum, t4) :- Answer(w.operate(t3, operator, [current, v]), t3);
      var (env1, t5) :- Bind(p, w, target, sum, env, t4);
      Done(Flow(env1, Next), t5)
    case Return(result) =>
      if result.None? then Done(Flow(env, Returned(Data(0, []))), t)
      else
        var (v, t1) :- Eval(p, w, result.value, env, t);
        Done(Flow(env, Returned(v)), t1)
    case If(test, body, orelse) =>
      var (v, t1) :- Eval(p, w, test, env, t);
      if w.truth(t1, v) then ExecBlock(p, w, body, env, t1.Next()) else ExecBlock(p, w, orelse, env, t1.Next())
    case For(_, iter, _, _) =>
      var (v, t1) :- Eval(p, w, iter, env, t);
      ExecLoop(p, w, stmt, w.iterate(t1, v), env, t1.Next())
    case Break => Done(Flow(env, Broke), t)
    case Continue => Done(Flow(env, Continued), t)
    case Pass => Done(Flow(env, Next), t)
    case Assert(test, message) =>
      var (v, t1) :- Eval(p, w, test, env, t);
      if w.truth(t1, v) then Done(Flow(env, Next), t1.Next())
      else if message.None? then Raised
      else
        var (_, _) :- Eval(p, w, message.value, env, t1.Next());
        Raised
    case TextStmt => Done(Flow(env, Next), t)
    case ExprStmt(value) =>
      var (_, t1) :- Eval(p, w, value, env, t);
      Done(Flow(env, Next), t1)
    case OtherStmt => Raised
  }

  function BindEach(p: Program, w: World, targets: seq<Expr>, v: Value, env: Env, t: Clock): Outcome<Env> {
    if targets == [] then Done(env, t)
    else
      var (env1, t1) :- Bind(p, w, targets[0], v, env, t);
      BindEach(p, w, targets[1..], v, env1, t1)
  }

  function ExecBlock(p: Program, w: World, stmts: seq<Stmt>, env: Env, t: Clock): Outcome<Flow>
    decreases stmts, 0, 0
  {
    if stmts == [] then Done(Flow(env, Next), t)
    else
      var (flow, t1) :- Exec(p, w, stmts[0], env, t);
      if flow.signal.Next? then ExecBlock(p, w, stmts[1..], flow.env, t1) else Done(flow, t1)
  }

  /**
   * The remaining iterations of a for loop, then its else branch unless it broke.  Each next item is asked for when
   * its turn comes, which may run the generator the loop goes through.
   */
  function ExecLoop(p: Program, w: World, stmt: Stmt, it: Iteration, env: Env, t: Clock): Outcome<Flow>
    requires stmt.For?
    decreases stmt, 0, |it.items|
  {
    var (_, t0) :- Consult(p, w, env, t);
    if it.items == [] then
      if it.exhausted then ExecBlock(p, w, stmt.orelse, env, t0) else Raised
    else
      var (env1, t1) :- Bind(p, w, stmt.target, it.items[0], env, t0);
      var (flow, t2) :- ExecBlock(p, w, stmt.body, env1, t1);
      match flow.signal
      case Broke => Done(Flow(flow.env, Next), t2)
      case Returned(_) => Done(flow, t2)
      case _ => ExecLoop(p, w, stmt, Iteration(it.items[1..], it.exhausted), flow.env, t2)
  }

  function InitialEnv(): Env {
    map["inputs" := Facade(Inputs, 0), "ctx" := Facade(Context, 0)]
  }

  const START := Clock(0, [])

  function ProgramOf(s: Scope, f: Function, nesting: nat): Program {
    Program(s, AssignedNamesOf(f.body), f.name, nesting, Body)
  }

  /** One run of the entrypoint, with generators running others to some depth. */
  function Run(s: Scope, f: Function, w: World, nesting: nat): Outcome<Flow> {
    ExecBlock(ProgramOf(s, f, nesting), w, f.body, InitialEnv(), START)
  }
}
