/**
 * Capability soundness of a stretch of a draft in which no name changes its capability: it never reads an attribute
 * that the receiver does not expose, nor do the generators that are run meanwhile.
 */
module DraftSoundness {
  import opened Prelude
  import opened DraftSyntax
  import opened DraftRules
  import opened DraftSemantics
  import opened DraftCoverage
  import opened DraftInvariants

  /** A conforming receiver of a capability with that member has the members of exactly that kind. */
  lemma ReceiverKind(lang: Language, c: Option<Capability>, v: Value, attr: string)
    requires Conforms(lang, c, v) && ExposedMember(lang, c, attr).Some?
    ensures Apparent(lang, v) == c
  {
  }

  /** Reading a member gives a value that conforms to the capability recorded for it, called or not. */
  lemma AttributeConforms(lang: Language, c: Option<Capability>, v: Value, attr: string)
    requires Conforms(lang, c, v) && ExposedMember(lang, c, attr).Some?
    ensures Apparent(lang, v).Some?
    ensures Conforms(lang, ResultCapability(ExposedMember(lang, c, attr).value), MemberOf(Apparent(lang, v).value, attr))
  {
    ReceiverKind(lang, c, v, attr);
  }

  /** Static capabilities are right: the value of an expression conforms to what the validator assigns it. */
  lemma {:induction false} CapabilityConforms(g: Setting, e: Expr, log: Log, env: Env, t: Clock)
    requires g.Valid() && g.EnvOk(env) && g.start <= |log|
    requires CapabilityOf(g.p.scope, e, log).Success? && CapabilityOf(g.p.scope, e, log).value.1 <= g.final
    ensures var r := Eval(g.p, g.w, e, env, t);
            r.Done? ==> Conforms(g.p.scope.lang, CapabilityOf(g.p.scope, e, log).value.0, r.value)
    decreases e
  {
    var s := g.p.scope;
    match e
    case Name(id) => NameConforms(g, id, log, env, t);
    case Attribute(value, attr) =>
      var (c, log1) := CapabilityOf(s, value, log).value;
      CapabilityConforms(g, value, log, env, t);
      var r := Eval(g.p, g.w, value, env, t);
      if r.Done? { AttributeConforms(s.lang, c, r.value, attr); }
    case Call(func, args, _) =>
      CallConforms(g, func, log, env, t);
    case _ =>
  }

  /** A callee that evaluates is the very member the validator chose. */
  lemma {:induction false} CallConforms(g: Setting, func: Expr, log: Log, env: Env, t: Clock)
    requires g.Valid() && g.EnvOk(env) && g.start <= |log|
    requires CallMember(g.p.scope, func, log).Success? && CallMember(g.p.scope, func, log).value.1 <= g.final
    ensures var r := Eval(g.p, g.w, func, env, t);
            var m := CallMember(g.p.scope, func, log).value.0;
            r.Done? && m.result.Some? ==>
              r.value.MemberOf? && ExposedMember(g.p.scope.lang, Some(r.value.owner), r.value.name) == Some(m)
    decreases func
  {
    var s := g.p.scope;
    match func
    case Name(id) => NameConforms(g, id, log, env, t);
    case Attribute(value, attr) =>
      var (c, log1) := CapabilityOf(s, value, log).value;
      CapabilityConforms(g, value, log, env, t);
      var r := Eval(g.p, g.w, value, env, t);
      if r.Done? { ReceiverKind(s.lang, c, r.value, attr); }
    case _ =>
  }

  // ---- Suspended generators are run safely ----

  /** From the validation of all generators, that of the i-th and later ones. */
  lemma {:induction false} LevelLog(s: Scope, gs: seq<Generator>, log: Log, i: nat) returns (at: Log)
    requires VisitGenerators(s, gs, log).Success? && i <= |gs|
    ensures VisitGenerators(s, gs[i..], at) == VisitGenerators(s, gs, log) && |log| <= |at|
    decreases gs
  {
    if i == 0 {
      assert gs[0..] == gs;
      at := log;
    } else {
      var log1 := Visit(s, gs[0].iter, log).value;
      var log2 := VisitAll(s, gs[0].conditions, RecordTarget(gs[0].target, None, log1)).value;
      at := LevelLog(s, gs[1..], log2, i - 1);
      assert gs[1..][i - 1..] == gs[i..];
    }
  }

  lemma LevelOf(s: Scope, e: Expr, log: Log, i: nat) returns (at: Log)
    requires e.Comprehension? && i <= |e.generators| && Visit(s, e, log).Success?
    ensures |log| <= |at| && VisitGenerators(s, e.generators[i..], at).Success?
    ensures VisitAll(s, e.elements, VisitGenerators(s, e.generators[i..], at).value) == Visit(s, e, log)
  {
    at := LevelLog(s, e.generators, log, i);
  }

  /** Whatever the world has run before it answers, nothing is missed. */
  lemma {:induction false} ConsultSafe(p: Program, w: World, whole: Log, horizon: Log, env: Env, t: Clock)
    requires Sane(p, w, whole) && horizon <= whole && FrameBase(FrameOf(p, env))
    requires PendingOk(p.scope, whole, horizon, FrameOf(p, env), t.pending)
    ensures var r := Consult(p, w, env, t);
      !r.Missing? && (r.Done? ==> PendingOk(p.scope, whole, horizon, FrameOf(p, env), r.tick.pending))
    decreases 2 * p.nesting, 1, 0
  {
    if p.nesting > 0 {
      ResumeAllSafe(p.(nesting := p.nesting - 1), w, whole, horizon, FrameOf(p, env), w.resume(t), t);
    }
  }

  lemma {:induction false} ResumeAllSafe(p: Program, w: World, whole: Log, horizon: Log, frame: Env, rs: seq<Resumption>,
                                         t: Clock)
    requires Sane(p, w, whole) && horizon <= whole && FrameBase(frame)
    requires PendingOk(p.scope, whole, horizon, frame, t.pending)
    ensures var r := ResumeAll(p, w, frame, rs, t);
      !r.Missing? && (r.Done? ==> PendingOk(p.scope, whole, horizon, frame, r.tick.pending))
    decreases 2 * p.nesting + 2, 0, |rs|
  {
    hide Sane, FrameBase, PendingOk;
    if rs != [] {
      ResumeSafe(p, w, whole, horizon, frame, rs[0], t);
      var r := Resume(p, w, frame, rs[0], t);
      if r.Done? { ResumeAllSafe(p, w, whole, horizon, frame, rs[1..], r.tick); }
      if r.Raised? { ResumeAllSafe(p, w, whole, horizon, frame, rs[1..], t.Next()); }
    }
  }

  lemma {:induction false} ResumeSafe(p: Program, w: World, whole: Log, horizon: Log, frame: Env, r: Resumption, t: Clock)
    requires Sane(p, w, whole) && horizon <= whole && FrameBase(frame)
    requires PendingOk(p.scope, whole, horizon, frame, t.pending)
    ensures var r := Resume(p, w, frame, r, t);
      !r.Missing? && (r.Done? ==> PendingOk(p.scope, whole, horizon, frame, r.tick.pending))
    decreases 2 * p.nesting + 2, 0, 0
  {
    hide Sane, FrameBase, Setting.Valid, Setting.EnvOk, Setting.PlaceOk, EvalItems, SuspendedAt, Closure;
    if r.which < |t.pending| {
      var s := t.pending[r.which];
      assert Resumable(p.scope, whole, horizon, frame, s);
      var log :| SuspendedAt(p.scope, whole, horizon, frame, s, log);
      if s.e.Comprehension? && r.level < |s.e.generators| {
        GoesOnSafely(p, w, whole, horizon, frame, s, log, r, t);
      }
    }
  }

  /** The run of a generator that was validated from `log` on. */
  lemma {:induction false} GoesOnSafely(p: Program, w: World, whole: Log, horizon: Log, frame: Env, s: Suspended, log: Log,
                                        r: Resumption, t: Clock)
    requires Sane(p, w, whole) && horizon <= whole && FrameBase(frame)
    requires PendingOk(p.scope, whole, horizon, frame, t.pending) && SuspendedAt(p.scope, whole, horizon, frame, s, log)
    requires s.e.Comprehension? && r.level < |s.e.generators|
    ensures var o := EvalItems(Resumed(p, frame, s), w, s.e, r.level, r.over, Closure(frame, s, r.vars), t);
      !o.Missing? && (o.Done? ==> PendingOk(p.scope, whole, horizon, frame, o.tick.pending))
    decreases 2 * p.nesting + 2, 0, -1
  {
    hide Sane, FrameBase, PendingOk, Setting.Valid, Setting.EnvOk, Setting.PlaceOk, EvalItems, Visit, Closure;
    var g := ResumedSetting(p, w, whole, horizon, frame, s, log);
    ResumedIsReady(p, w, whole, horizon, frame, s, log, r.vars);
    var at := LevelOf(p.scope, s.e, log, r.level);
    ItemsSafe(g, s.e, r.level, r.over, at, Closure(frame, s, r.vars), t);
  }

  /** The same for code in a setting. */
  lemma {:induction false} AskSafe(g: Setting, env: Env, t: Clock)
    requires g.Valid() && g.EnvOk(env) && g.PlaceOk(env) && g.Calm(env, t.pending)
    ensures g.Fine(env, Consult(g.p, g.w, env, t))
    decreases 2 * g.p.nesting, 2, 0
  {
    hide PendingOk, ConsistentFrom, GeneratorsLast, Sane, FrameBase;
    ConsultSafe(g.p, g.w, g.whole, g.horizon, env, t);
  }

  // ---- Expressions never miss ----

  lemma {:induction false} ExprSafe(g: Setting, e: Expr, log: Log, env: Env, t: Clock)
    requires g.Ready(log, env, t) && Parts(e) <= g.parts
    requires Visit(g.p.scope, e, log).Success? && Visit(g.p.scope, e, log).value <= g.final
    ensures g.Fine(env, Eval(g.p, g.w, e, env, t))
    decreases 2 * g.p.nesting + 1, e, 1, 0, 0, 0
  {
    hide Setting.Valid, Setting.EnvOk, Setting.PlaceOk, PendingOk, VisitAll, VisitGenerators, EvalAll, Consult;
    match e
    case Name(id) => NameConforms(g, id, log, env, t);
    case Constant(_) =>
    case Display(items) => GatherSafe(g, e, items, log, env, t);
    case Dict(entries, _) => GatherSafe(g, e, entries, log, env, t);
    case BinOp(_, left, right) => OperandsSafe(g, e, left, right, log, env, t);
    case UnaryOp(_, operand) => UnarySafe(g, e, log, env, t);
    case BoolOp(values) => ChainSafe(g, values, log, env, t);
    case Compare(_, _, _) => CompareSafe(g, e, log, env, t);
    case IfExp(_, _, _) => ChoiceSafe(g, e, log, env, t);
    case Subscript(base, index) => OperandsSafe(g, e, base, index, CapabilityOf(g.p.scope, base, log).value.1, env, t);
    case Slice(bounds) => GatherSafe(g, e, bounds, log, env, t);
    case Attribute(value, attr) => ReadSafe(g, value, attr, log, env, t);
    case Call(_, _, _) => CallSafe(g, e, log, env, t);
    case Comprehension(lazy, _, _) =>
      if lazy { LazySafe(g, e, log, env, t); } else { EagerSafe(g, e, log, env, t); }
    case OtherExpr(_) =>
  }

  /** Displays, dictionaries and slices. */
  lemma {:induction false} GatherSafe(g: Setting, e: Expr, items: seq<Expr>, log: Log, env: Env, t: Clock)
    requires g.Ready(log, env, t) && PartsOf(items) <= g.parts
    requires e == Display(items) || (e.Dict? && items == e.entries) || e == Slice(items)
    requires VisitAll(g.p.scope, items, log).Success? && VisitAll(g.p.scope, items, log).value <= g.final
    ensures g.Fine(env, Eval(g.p, g.w, e, env, t))
    decreases 2 * g.p.nesting + 1, e, 0, 0, 0, 0
  {
    hide Setting.Valid, Setting.EnvOk, Setting.PlaceOk, PendingOk, EvalAll, Consult;
    AllSafe(g, items, log, env, t);
    var r := EvalAll(g.p, g.w, items, env, t);
    if r.Done? { AskSafe(g, env, r.tick); }
  }

  lemma {:induction false} UnarySafe(g: Setting, e: Expr, log: Log, env: Env, t: Clock)
    requires g.Ready(log, env, t) && e.UnaryOp? && Parts(e) <= g.parts
    requires Visit(g.p.scope, e, log).Success? && Visit(g.p.scope, e, log).value <= g.final
    ensures g.Fine(env, Eval(g.p, g.w, e, env, t))
    decreases 2 * g.p.nesting + 1, e, 0, 0, 0, 0
  {
    hide Setting.Valid, Setting.EnvOk, Setting.PlaceOk, PendingOk, Consult;
    ExprSafe(g, e.operand, log, env, t);
    var r := Eval(g.p, g.w, e.operand, env, t);
    if r.Done? { AskSafe(g, env, r.tick); }
  }

  lemma {:induction false} OperandsSafe(g: Setting, e: Expr, left: Expr, right: Expr, log: Log, env: Env, t: Clock)
    requires g.Ready(log, env, t) && Parts(left) + Parts(right) <= g.parts
    requires (e.BinOp? && left == e.left && right == e.right) || (e.Subscript? && left == e.base && right == e.index)
    requires Visit(g.p.scope, left, log).Success?
    requires Visit(g.p.scope, right, Visit(g.p.scope, left, log).value).Success?
    requires Visit(g.p.scope, right, Visit(g.p.scope, left, log).value).value <= g.final
    ensures g.Fine(env, Eval(g.p, g.w, e, env, t))
    decreases 2 * g.p.nesting + 1, e, 0, 0, 0, 0
  {
    hide Setting.Valid, Setting.EnvOk, Setting.PlaceOk, PendingOk, Visit, Consult;
    ExprSafe(g, left, log, env, t);
    var l := Eval(g.p, g.w, left, env, t);
    if l.Done? {
      ExprSafe(g, right, Visit(g.p.scope, left, log).value, env, l.tick);
      var r := Eval(g.p, g.w, right, env, l.tick);
      if r.Done? { AskSafe(g, env, r.tick); }
    }
  }

  lemma {:induction false} CompareSafe(g: Setting, e: Expr, log: Log, env: Env, t: Clock)
    requires g.Ready(log, env, t) && e.Compare? && Parts(e) <= g.parts
    requires Visit(g.p.scope, e, log).Success? && Visit(g.p.scope, e, log).value <= g.final
    ensures g.Fine(env, Eval(g.p, g.w, e, env, t))
    decreases 2 * g.p.nesting + 1, e, 0, 0, 0, 0
  {
    hide Setting.Valid, Setting.EnvOk, Setting.PlaceOk, PendingOk, EvalOperands, VisitAll;
    ExprSafe(g, e.first, log, env, t);
    var r := Eval(g.p, g.w, e.first, env, t);
    if r.Done? { ComparatorsSafe(g, e.comparators, Visit(g.p.scope, e.first, log).value, env, r.tick); }
  }

  lemma {:induction false} ComparatorsSafe(g: Setting, es: seq<Expr>, log: Log, env: Env, t: Clock)
    requires g.Ready(log, env, t) && PartsOf(es) <= g.parts
    requires VisitAll(g.p.scope, es, log).Success? && VisitAll(g.p.scope, es, log).value <= g.final
    ensures g.Fine(env, EvalOperands(g.p, g.w, es, env, t))
    decreases 2 * g.p.nesting + 1, es, 0, 0, 0, 0
  {
    hide Setting.Valid, Setting.EnvOk, Setting.PlaceOk, PendingOk, Eval, Visit, Consult, Parts;
    if es != [] {
      ExprSafe(g, es[0], log, env, t);
      var r := Eval(g.p, g.w, es[0], env, t);
      if r.Done? {
        AskSafe(g, env, r.tick);
        var c := Consult(g.p, g.w, env, r.tick);
        if c.Done? { ComparatorsSafe(g, es[1..], Visit(g.p.scope, es[0], log).value, env, c.tick.Next()); }
      }
    }
  }

  lemma {:induction false} ChoiceSafe(g: Setting, e: Expr, log: Log, env: Env, t: Clock)
    requires g.Ready(log, env, t) && e.IfExp? && Parts(e) <= g.parts
    requires Visit(g.p.scope, e, log).Success? && Visit(g.p.scope, e, log).value <= g.final
    ensures g.Fine(env, Eval(g.p, g.w, e, env, t))
    decreases 2 * g.p.nesting + 1, e, 0, 0, 0, 0
  {
    hide Setting.Valid, Setting.EnvOk, Setting.PlaceOk, PendingOk, CapabilityOf, AttributeMember, CallMember, VisitAll,
      VisitGenerators, EvalAll, EvalChain, EvalOperands, EvalItems, Consult;
    var log1 := Visit(g.p.scope, e.test, log).value;
    ExprSafe(g, e.test, log, env, t);
    var r := Eval(g.p, g.w, e.test, env, t);
    if r.Done? {
      ExprSafe(g, e.body, log1, env, r.tick.Next());
      ExprSafe(g, e.orelse, Visit(g.p.scope, e.body, log1).value, env, r.tick.Next());
    }
  }

  lemma {:induction false} CallSafe(g: Setting, e: Expr, log: Log, env: Env, t: Clock)
    requires g.Ready(log, env, t) && e.Call? && Parts(e) <= g.parts
    requires Visit(g.p.scope, e, log).Success? && Visit(g.p.scope, e, log).value <= g.final
    ensures g.Fine(env, Eval(g.p, g.w, e, env, t))
    decreases 2 * g.p.nesting + 1, e, 0, 0, 0, 0
  {
    hide Setting.Valid, Setting.EnvOk, Setting.PlaceOk, PendingOk, EvalAll, VisitAll, Consult;
    var (_, log1) := CallMember(g.p.scope, e.func, log).value;
    CalleeSafe(g, e, log, env, t);
    var r := Eval(g.p, g.w, e.func, env, t);
    if r.Done? {
      AllSafe(g, e.args, log1, env, r.tick);
      var vs := EvalAll(g.p, g.w, e.args, env, r.tick);
      if vs.Done? { AskSafe(g, env, vs.tick); }
    }
  }

  lemma {:induction false} CalleeSafe(g: Setting, e: Expr, log: Log, env: Env, t: Clock)
    requires g.Ready(log, env, t) && e.Call? && Parts(e) <= g.parts
    requires CallMember(g.p.scope, e.func, log).Success? && CallMember(g.p.scope, e.func, log).value.1 <= g.final
    ensures g.Fine(env, Eval(g.p, g.w, e.func, env, t))
    decreases 2 * g.p.nesting + 1, e, -1, 0, 0, 0
  {
    hide Setting.Valid, Setting.EnvOk, Setting.PlaceOk, PendingOk, Visit;
    match e.func
    case Name(id) => NameConforms(g, id, log, env, t);
    case Attribute(value, attr) => ReadSafe(g, value, attr, log, env, t);
    case _ =>
  }

  /** An accepted attribute finds its member. */
  lemma {:induction false} ReadSafe(g: Setting, value: Expr, attr: string, log: Log, env: Env, t: Clock)
    requires g.Ready(log, env, t) && Parts(value) <= g.parts
    requires AttributeMember(g.p.scope, value, attr, log).Success?
    requires Visit(g.p.scope, value, AttributeMember(g.p.scope, value, attr, log).value.1).Success?
    requires Visit(g.p.scope, value, AttributeMember(g.p.scope, value, attr, log).value.1).value <= g.final
    ensures g.Fine(env, Eval(g.p, g.w, Attribute(value, attr), env, t))
    decreases 2 * g.p.nesting + 1, value, 2, 0, 0, 0
  {
    hide Visit, CapabilityOf, Setting.Valid, Setting.EnvOk, Setting.PlaceOk, PendingOk;
    var s := g.p.scope;
    var (c, log1) := CapabilityOf(s, value, log).value;
    CapabilityConforms(g, value, log, env, t);
    ExprSafe(g, value, log1, env, t);
    var r := Eval(g.p, g.w, value, env, t);
    if r.Done? { ReceiverKind(s.lang, c, r.value, attr); }
  }

  lemma {:induction false} AllSafe(g: Setting, es: seq<Expr>, log: Log, env: Env, t: Clock)
    requires g.Ready(log, env, t) && PartsOf(es) <= g.parts
    requires VisitAll(g.p.scope, es, log).Success? && VisitAll(g.p.scope, es, log).value <= g.final
    ensures g.Fine(env, EvalAll(g.p, g.w, es, env, t))
    decreases 2 * g.p.nesting + 1, es, 0, 0, 0, 0
  {
    hide Setting.Valid, Setting.EnvOk, Setting.PlaceOk, PendingOk, Eval, Visit, Parts;
    if es != [] {
      ExprSafe(g, es[0], log, env, t);
      var r := Eval(g.p, g.w, es[0], env, t);
      if r.Done? { AllSafe(g, es[1..], Visit(g.p.scope, es[0], log).value, env, r.tick); }
    }
  }

  lemma {:induction false} ChainSafe(g: Setting, es: seq<Expr>, log: Log, env: Env, t: Clock)
    requires g.Ready(log, env, t) && PartsOf(es) <= g.parts
    requires VisitAll(g.p.scope, es, log).Success? && VisitAll(g.p.scope, es, log).value <= g.final
    ensures g.Fine(env, EvalChain(g.p, g.w, es, env, t))
    ensures g.Fine(env, EvalConditions(g.p, g.w, es, env, t))
    decreases 2 * g.p.nesting + 1, es, 0, 0, 0, 0
  {
    hide Setting.Valid, Setting.EnvOk, Setting.PlaceOk, PendingOk, Eval, Visit, Parts;
    if es != [] {
      ExprSafe(g, es[0], log, env, t);
      var r := Eval(g.p, g.w, es[0], env, t);
      if r.Done? { ChainSafe(g, es[1..], Visit(g.p.scope, es[0], log).value, env, r.tick.Next()); }
    }
  }

  // ---- Comprehensions ----

  /** A generator expression evaluates its first iterable, and is then as runnable as it was accepted. */
  lemma {:induction false} LazySafe(g: Setting, e: Expr, log: Log, env: Env, t: Clock)
    requires g.Ready(log, env, t) && e.Comprehension? && e.lazy && Parts(e) <= g.parts
    requires Visit(g.p.scope, e, log).Success? && Visit(g.p.scope, e, log).value <= g.final
    ensures g.Fine(env, Eval(g.p, g.w, e, env, t))
    decreases 2 * g.p.nesting + 1, e, 0, 0, 0, 0
  {
    hide Setting.Valid, Setting.EnvOk, Setting.PlaceOk, SuspendedAt, EvalItems;
    if e.generators != [] {
      FirstIterable(g, e, log, env, t);
      var r := Eval(g.p, g.w, e.generators[0].iter, env, t);
      if r.Done? {
        MakeSuspended(g, e, log, env);
        assert Resumable(g.p.scope, g.whole, g.horizon, FrameOf(g.p, env), Suspension(g.p, e));
      }
    }
  }

  lemma {:induction false} FirstIterable(g: Setting, e: Expr, log: Log, env: Env, t: Clock)
    requires g.Ready(log, env, t) && e.Comprehension? && e.generators != [] && Parts(e) <= g.parts
    requires Visit(g.p.scope, e, log).Success? && Visit(g.p.scope, e, log).value <= g.final
    ensures g.Fine(env, Eval(g.p, g.w, e.generators[0].iter, env, t))
    decreases 2 * g.p.nesting + 1, e, -1, 0, 0, 0
  {
    hide Setting.Valid, Setting.EnvOk, Setting.PlaceOk, PendingOk, Eval;
    ExprSafe(g, e.generators[0].iter, log, env, t);
  }

  lemma {:induction false} EagerSafe(g: Setting, e: Expr, log: Log, env: Env, t: Clock)
    requires g.Ready(log, env, t) && e.Comprehension? && !e.lazy && Parts(e) <= g.parts
    requires Visit(g.p.scope, e, log).Success? && Visit(g.p.scope, e, log).value <= g.final
    ensures g.Fine(env, Eval(g.p, g.w, e, env, t))
    decreases 2 * g.p.nesting + 1, e, 0, |e.generators| + 1, 0, 0
  {
    hide Setting.Valid, Setting.EnvOk, Setting.PlaceOk, PendingOk, EvalItems;
    if e.generators != [] {
      FirstIterable(g, e, log, env, t);
      var r := Eval(g.p, g.w, e.generators[0].iter, env, t);
      if r.Done? {
        var names := TargetsOf(e.generators);
        EnterComprehension(g, e.generators, log, env);
        var g', env' := Entered(g, env, names), Without(env, names);
        assert e.generators[0..] == e.generators;
        ItemsSafe(g', e, 0, g.w.iterate(r.tick, r.value), log, env', r.tick.Next());
      }
    }
  }

  lemma {:induction false} GeneratorPart(gs: seq<Generator>, i: nat)
    requires i < |gs|
    ensures Parts(gs[i].iter) <= GeneratorParts(gs) && PartsOf(gs[i].conditions) <= GeneratorParts(gs)
    ensures TargetNames(gs[i].target) <= TargetsOf(gs)
  {
    if i > 0 { GeneratorPart(gs[1..], i - 1); }
  }

  /** Inside a comprehension: its generators from the i-th on, validated from `log`, and its elements. */
  lemma {:induction false} GeneratorsSafe(g: Setting, e: Expr, i: nat, log: Log, env: Env, t: Clock)
    requires g.Ready(log, env, t) && e.Comprehension? && i <= |e.generators| && Parts(e) <= g.parts
    requires g.p.place.Inner? && TargetsOf(e.generators) <= g.p.place.bound
    requires VisitGenerators(g.p.scope, e.generators[i..], log).Success?
    requires VisitAll(g.p.scope, e.elements, VisitGenerators(g.p.scope, e.generators[i..], log).value).Success?
    requires VisitAll(g.p.scope, e.elements, VisitGenerators(g.p.scope, e.generators[i..], log).value).value <= g.final
    ensures g.Fine(env, EvalGenerators(g.p, g.w, e, i, env, t))
    decreases 2 * g.p.nesting + 1, e, 0, |e.generators| - i, 1, 0
  {
    hide Setting.Valid, Setting.EnvOk, Setting.PlaceOk, PendingOk, EvalItems, EvalAll, Eval;
    if i == |e.generators| {
      AllSafe(g, e.elements, log, env, t);
    } else {
      var iter := e.generators[i].iter;
      GeneratorPart(e.generators, i);
      ExprSafe(g, iter, log, env, t);
      var r := Eval(g.p, g.w, iter, env, t);
      if r.Done? { ItemsSafe(g, e, i, g.w.iterate(r.tick, r.value), log, env, r.tick.Next()); }
    }
  }

  /** The i-th loop, whose iterable was validated from `log` on. */
  lemma {:induction false} ItemsSafe(g: Setting, e: Expr, i: nat, it: Iteration, log: Log, env: Env, t: Clock)
    requires g.Ready(log, env, t) && e.Comprehension? && i < |e.generators| && Parts(e) <= g.parts
    requires g.p.place.Inner? && TargetsOf(e.generators) <= g.p.place.bound
    requires VisitGenerators(g.p.scope, e.generators[i..], log).Success?
    requires VisitAll(g.p.scope, e.elements, VisitGenerators(g.p.scope, e.generators[i..], log).value).Success?
    requires VisitAll(g.p.scope, e.elements, VisitGenerators(g.p.scope, e.generators[i..], log).value).value <= g.final
    ensures g.Fine(env, EvalItems(g.p, g.w, e, i, it, env, t))
    decreases 2 * g.p.nesting + 1, e, 0, |e.generators| - i, 0, |it.items|
  {
    hide Setting.Valid, Setting.EnvOk, Setting.PlaceOk, PendingOk, Consult, Bind, EvalConditions, EvalGenerators, Visit;
    AskSafe(g, env, t);
    var c := Consult(g.p, g.w, env, t);
    if c.Done? && it.items != [] {
      RoundSafe(g, e, i, it.items[0], log, env, c.tick);
      var b := Bind(g.p, g.w, e.generators[i].target, it.items[0], env, c.tick);
      if b.Done? {
        var k := EvalConditions(g.p, g.w, e.generators[i].conditions, b.value, b.tick);
        if k.Done? {
          var n := if k.value then EvalGenerators(g.p, g.w, e, i + 1, b.value, k.tick) else Done((), k.tick);
          if n.Done? { ItemsSafe(g, e, i, Iteration(it.items[1..], it.exhausted), log, b.value, n.tick); }
        }
      }
    }
  }

  /** One item of the i-th loop. */
  lemma {:induction false} RoundSafe(g: Setting, e: Expr, i: nat, v: Value, log: Log, env: Env, t: Clock)
    requires g.Ready(log, env, t) && e.Comprehension? && i < |e.generators| && Parts(e) <= g.parts
    requires g.p.place.Inner? && TargetsOf(e.generators) <= g.p.place.bound
    requires VisitGenerators(g.p.scope, e.generators[i..], log).Success?
    requires VisitAll(g.p.scope, e.elements, VisitGenerators(g.p.scope, e.generators[i..], log).value).Success?
    requires VisitAll(g.p.scope, e.elements, VisitGenerators(g.p.scope, e.generators[i..], log).value).value <= g.final
    ensures var b := Bind(g.p, g.w, e.generators[i].target, v, env, t);
      && !b.Missing?
      && (b.Done? ==>
          && g.EnvOk(b.value) && g.PlaceOk(b.value)
          && var k := EvalConditions(g.p, g.w, e.generators[i].conditions, b.value, b.tick);
             g.Fine(env, k) && (k.Done? && k.value ==> g.Fine(env, EvalGenerators(g.p, g.w, e, i + 1, b.value, k.tick))))
    decreases 2 * g.p.nesting + 1, e, 0, |e.generators| - i, 0, -1
  {
    hide Setting.Valid, Setting.EnvOk, Setting.PlaceOk, PendingOk, Bind, EvalConditions, EvalGenerators, Visit;
    var s, gen := g.p.scope, e.generators[i];
    var log1 := Visit(s, gen.iter, log).value;
    var log2 := RecordTarget(gen.target, None, log1);
    var log3 := VisitAll(s, gen.conditions, log2).value;
    assert e.generators[i..][1..] == e.generators[i + 1..];
    GeneratorPart(e.generators, i);
    BindSafe(g, gen.target, None, v, log1, env, t);
    var b := Bind(g.p, g.w, gen.target, v, env, t);
    if b.Done? {
      ChainSafe(g, gen.conditions, log2, b.value, b.tick);
      var k := EvalConditions(g.p, g.w, gen.conditions, b.value, b.tick);
      if k.Done? && k.value { GeneratorsSafe(g, e, i + 1, log3, b.value, k.tick); }
    }
  }

  // ---- Bindings keep the environment in line with the log ----

  ghost predicate BindOk(g: Setting, b: Outcome<Env>) {
    !b.Missing? && (b.Done? ==> g.EnvOk(b.value) && g.PlaceOk(b.value) && g.Calm(b.value, b.tick.pending))
  }

  /** In the body, generators were validated before the end of the stretch. */
  ghost predicate MayBind(g: Setting, names: set<string>) {
    if g.p.place.Body? then g.horizon == g.final else names <= g.p.place.bound
  }

  lemma {:induction false} BindSafe(g: Setting, target: Expr, c: Option<Capability>, v: Value, log: Log, env: Env,
                                    t: Clock)
    requires g.Ready(log, env, t) && Conforms(g.p.scope.lang, c, v) && MayBind(g, TargetNames(target))
    requires TargetAllowed(g.p.scope, target) && RecordTarget(target, c, log) <= g.final
    ensures BindOk(g, Bind(g.p, g.w, target, v, env, t))
    decreases 2 * g.p.nesting + 1, target, 1, 0, 0, 0
  {
    match target
    case Name(id) => StoreSafe(g, id, c, v, log, env, t);
    case Display(items) =>
      hide Setting.Valid, Setting.EnvOk, Setting.PlaceOk, PendingOk, Conforms, Consult;
      AskSafe(g, env, t);
      var r := Consult(g.p, g.w, env, t);
      if r.Done? { BindAllSafe(g, items, g.w.unpack(r.tick, v), log, env, r.tick.Next()); }
    case _ =>
  }

  lemma StoreSafe(g: Setting, id: string, c: Option<Capability>, v: Value, log: Log, env: Env, t: Clock)
    requires g.Ready(log, env, t) && Conforms(g.p.scope.lang, c, v) && MayBind(g, {id})
    requires id in g.p.scope.locals && log + [Record(id, c)] <= g.final
    ensures g.EnvOk(env[id := v]) && g.PlaceOk(env[id := v]) && g.Calm(env[id := v], t.pending)
  {
    var env' := env[id := v];
    assert g.final[|log|] == (log + [Record(id, c)])[|log|] == Record(id, c);
    assert Live(g.final, g.start, |log|) && g.final[|log|] in g.final;
    forall i | Live(g.final, g.start, i) && g.final[i].name in env'
      ensures Conforms(g.p.scope.lang, g.final[i].capability, env'[g.final[i].name])
    {
      if g.final[i].name == id { assert g.final[i].capability == g.final[|log|].capability; }
    }
    if g.p.place.Body? { StoreInBody(g, id, c, v, log, env, t); }
  }

  lemma StoreInBody(g: Setting, id: string, c: Option<Capability>, v: Value, log: Log, env: Env, t: Clock)
    requires g.Ready(log, env, t) && Conforms(g.p.scope.lang, c, v) && g.p.place.Body? && g.horizon == g.final
    requires log + [Record(id, c)] <= g.final
    ensures g.Calm(env[id := v], t.pending)
  {
    hide PendingOk;
    var k := |log|;
    assert g.final[k] == (log + [Record(id, c)])[k] == g.whole[k];
    forall j | k <= j < |g.final| && g.final[j].name == id ensures g.final[j].capability == g.whole[k].capability {
      assert Live(g.final, g.start, j) && Live(g.final, g.start, k);
    }
    StoreKeepsPending(g.p.scope, g.whole, g.horizon, env, t.pending, id, v, k);
  }

  lemma {:induction false} BindAllSafe(g: Setting, targets: seq<Expr>, vs: seq<Value>, log: Log, env: Env, t: Clock)
    requires g.Ready(log, env, t) && MayBind(g, TargetNames(Display(targets)))
    requires (forall x | x in targets :: TargetAllowed(g.p.scope, x)) && RecordItems(targets, log) <= g.final
    ensures BindOk(g, BindAll(g.p, g.w, targets, vs, env, t))
    decreases 2 * g.p.nesting + 1, targets, 0, 0, 0, 0
  {
    hide Setting.Valid, Setting.EnvOk, Setting.PlaceOk, PendingOk, Bind;
    if targets != [] && vs != [] {
      assert TargetNames(targets[0]) <= TargetNames(Display(targets));
      assert TargetNames(Display(targets[1..])) <= TargetNames(Display(targets));
      BindSafe(g, targets[0], None, vs[0], log, env, t);
      var b := Bind(g.p, g.w, targets[0], vs[0], env, t);
      if b.Done? {
        BindAllSafe(g, targets[1..], vs[1..], RecordTarget(targets[0], None, log), b.value, b.tick);
      }
    }
  }

  lemma {:induction false} BindEachSafe(g: Setting, targets: seq<Expr>, c: Option<Capability>, v: Value, log: Log,
                                        env: Env, t: Clock)
    requires g.Ready(log, env, t) && Conforms(g.p.scope.lang, c, v) && g.p.place.Body? && g.horizon == g.final
    requires AssignTargets(g.p.scope, targets, c, log).Success?
    requires AssignTargets(g.p.scope, targets, c, log).value <= g.final
    ensures BindOk(g, BindEach(g.p, g.w, targets, v, env, t))
  {
    hide Setting.Valid, Setting.EnvOk, Setting.PlaceOk, PendingOk, Conforms, Bind;
    if targets != [] {
      BindSafe(g, targets[0], c, v, log, env, t);
      var b := Bind(g.p, g.w, targets[0], v, env, t);
      if b.Done? {
        BindEachSafe(g, targets[1..], c, v, RecordTarget(targets[0], c, log), b.value, b.tick);
      }
    }
  }

  // ---- Statements ----

  /** Code of the body, ready to be run. */
  ghost predicate BodyReady(g: Setting, log: Log, env: Env, t: Clock) {
    g.Ready(log, env, t) && g.p.place.Body? && g.horizon == g.final
  }

  ghost predicate FlowOk(g: Setting, r: Outcome<Flow>) {
    !r.Missing? && (r.Done? ==> g.EnvOk(r.value.env) && g.PlaceOk(r.value.env) && g.Calm(r.value.env, r.tick.pending))
  }

  lemma {:induction false} StmtSafe(g: Setting, stmt: Stmt, depth: nat, log: Log, env: Env, t: Clock)
    requires BodyReady(g, log, env, t) && StmtParts(stmt) <= g.parts
    requires VisitStmt(g.p.scope, stmt, depth, log).Success? && VisitStmt(g.p.scope, stmt, depth, log).value <= g.final
    ensures FlowOk(g, Exec(g.p, g.w, stmt, env, t))
    decreases stmt, 2, 0
  {
    hide Setting.Valid, Setting.EnvOk, Setting.PlaceOk, PendingOk, Visit, Eval;
    match stmt
    case Assign(targets, value) => AssignSafe(g, stmt, depth, log, env, t);
    case AugAssign(target, operator, value) => AugAssignSafe(g, stmt, depth, log, env, t);
    case Return(result) => ExprSafe(g, result.value, log, env, t);
    case If(_, _, _) => BranchSafe(g, stmt, depth, log, env, t);
    case For(_, _, _, _) => ForSafe(g, stmt, depth, log, env, t);
    case Assert(_, _) => AssertSafe(g, stmt, depth, log, env, t);
    case _ =>
  }

  lemma {:induction false} ForSafe(g: Setting, stmt: Stmt, depth: nat, log: Log, env: Env, t: Clock)
    requires BodyReady(g, log, env, t) && stmt.For? && StmtParts(stmt) <= g.parts
    requires VisitStmt(g.p.scope, stmt, depth, log).Success? && VisitStmt(g.p.scope, stmt, depth, log).value <= g.final
    ensures FlowOk(g, Exec(g.p, g.w, stmt, env, t))
    decreases stmt, 1, 0
  {
    hide Setting.Valid, Setting.EnvOk, Setting.PlaceOk, PendingOk, Eval, Visit, ExecLoop;
    ExprSafe(g, stmt.iter, log, env, t);
    var r := Eval(g.p, g.w, stmt.iter, env, t);
    if r.Done? { LoopSafe(g, stmt, depth, g.w.iterate(r.tick, r.value), log, env, r.tick.Next()); }
  }

  lemma AssertSafe(g: Setting, stmt: Stmt, depth: nat, log: Log, env: Env, t: Clock)
    requires BodyReady(g, log, env, t) && stmt.Assert? && StmtParts(stmt) <= g.parts
    requires VisitStmt(g.p.scope, stmt, depth, log).Success? && VisitStmt(g.p.scope, stmt, depth, log).value <= g.final
    ensures FlowOk(g, Exec(g.p, g.w, stmt, env, t))
  {
    hide Setting.Valid, Setting.EnvOk, Setting.PlaceOk, PendingOk, Visit, Eval;
    ExprSafe(g, stmt.test, log, env, t);
    var r := Eval(g.p, g.w, stmt.test, env, t);
    if r.Done? && stmt.message.Some? {
      ExprSafe(g, stmt.message.value, Visit(g.p.scope, stmt.test, log).value, env, r.tick.Next());
    }
  }

  lemma AssignSafe(g: Setting, stmt: Stmt, depth: nat, log: Log, env: Env, t: Clock)
    requires BodyReady(g, log, env, t) && stmt.Assign? && StmtParts(stmt) <= g.parts
    requires VisitStmt(g.p.scope, stmt, depth, log).Success? && VisitStmt(g.p.scope, stmt, depth, log).value <= g.final
    ensures FlowOk(g, Exec(g.p, g.w, stmt, env, t))
  {
    hide Setting.Valid, Setting.EnvOk, Setting.PlaceOk, PendingOk, Visit, Eval, CapabilityOf;
    var Assign(targets, value) := stmt;
    var log1 := Visit(g.p.scope, value, log).value;
    var (c, log2) := CapabilityOf(g.p.scope, value, log1).value;
    ExprSafe(g, value, log, env, t);
    CapabilityConforms(g, value, log1, env, t);
    var r := Eval(g.p, g.w, value, env, t);
    if r.Done? { BindEachSafe(g, targets, c, r.value, log2, env, r.tick); }
  }

  lemma AugAssignSafe(g: Setting, stmt: Stmt, depth: nat, log: Log, env: Env, t: Clock)
    requires BodyReady(g, log, env, t) && stmt.AugAssign? && StmtParts(stmt) <= g.parts
    requires VisitStmt(g.p.scope, stmt, depth, log).Success? && VisitStmt(g.p.scope, stmt, depth, log).value <= g.final
    ensures FlowOk(g, Exec(g.p, g.w, stmt, env, t))
  {
    hide Setting.Valid, Setting.EnvOk, Setting.PlaceOk, PendingOk, Visit, Eval, Consult, Bind;
    if stmt.target.Name? {
      NameConforms(g, stmt.target.id, log, env, t);
      var r1 := Read(g.p, stmt.target.id, env, t);
      if r1.Done? {
        ExprSafe(g, stmt.value, log, env, r1.tick);
        var r2 := Eval(g.p, g.w, stmt.value, env, r1.tick);
        if r2.Done? {
          AskSafe(g, env, r2.tick);
          var r3 := Consult(g.p, g.w, env, r2.tick);
          if r3.Done? {
            var r4 := Answer(g.w.operate(r3.tick, stmt.operator, [r1.value, r2.value]), r3.tick);
            if r4.Done? {
              BindSafe(g, stmt.target, None, r4.value, Visit(g.p.scope, stmt.value, log).value, env, r4.tick);
            }
          }
        }
      }
    }
  }

  lemma {:induction false} BranchSafe(g: Setting, stmt: Stmt, depth: nat, log: Log, env: Env, t: Clock)
    requires BodyReady(g, log, env, t) && stmt.If? && StmtParts(stmt) <= g.parts
    requires VisitStmt(g.p.scope, stmt, depth, log).Success? && VisitStmt(g.p.scope, stmt, depth, log).value <= g.final
    ensures FlowOk(g, Exec(g.p, g.w, stmt, env, t))
    decreases stmt, 0, 0
  {
    hide Setting.Valid, Setting.EnvOk, Setting.PlaceOk, PendingOk, Visit, VisitBlock, ExecBlock, Eval;
    var log1 := Visit(g.p.scope, stmt.test, log).value;
    ExprSafe(g, stmt.test, log, env, t);
    var r := Eval(g.p, g.w, stmt.test, env, t);
    if r.Done? {
      BlockSafe(g, stmt.body, depth, log1, env, r.tick.Next());
      BlockSafe(g, stmt.orelse, depth, VisitBlock(g.p.scope, stmt.body, depth, log1).value, env, r.tick.Next());
    }
  }

  lemma {:induction false} BlockSafe(g: Setting, stmts: seq<Stmt>, depth: nat, log: Log, env: Env, t: Clock)
    requires BodyReady(g, log, env, t) && BlockParts(stmts) <= g.parts
    requires VisitBlock(g.p.scope, stmts, depth, log).Success? && VisitBlock(g.p.scope, stmts, depth, log).value <= g.final
    ensures FlowOk(g, ExecBlock(g.p, g.w, stmts, env, t))
    decreases stmts, 0, 0
  {
    hide Setting.Valid, Setting.EnvOk, Setting.PlaceOk, PendingOk, VisitStmt, Exec;
    if stmts != [] {
      StmtSafe(g, stmts[0], depth, log, env, t);
      var r := Exec(g.p, g.w, stmts[0], env, t);
      if r.Done? {
        BlockSafe(g, stmts[1..], depth, VisitStmt(g.p.scope, stmts[0], depth, log).value, r.value.env, r.tick);
      }
    }
  }

  lemma {:induction false} LoopSafe(g: Setting, stmt: Stmt, depth: nat, it: Iteration, log: Log, env: Env, t: Clock)
    requires BodyReady(g, log, env, t) && stmt.For? && StmtParts(stmt) <= g.parts
    requires VisitStmt(g.p.scope, stmt, depth, log).Success? && VisitStmt(g.p.scope, stmt, depth, log).value <= g.final
    ensures FlowOk(g, ExecLoop(g.p, g.w, stmt, it, env, t))
    decreases stmt, 0, |it.items|
  {
    hide Setting.Valid, Setting.EnvOk, Setting.PlaceOk, PendingOk, Visit, VisitBlock, ExecBlock, RecordTarget, Bind, Consult;
    var s := g.p.scope;
    var log1 := Visit(s, stmt.iter, log).value;
    var log2 := RecordTarget(stmt.target, None, log1);
    var log3 := VisitBlock(s, stmt.body, depth + 1, log2).value;
    AskSafe(g, env, t);
    var c := Consult(g.p, g.w, env, t);
    if c.Done? {
      if it.items == [] {
        BlockSafe(g, stmt.orelse, depth + 1, log3, env, c.tick);
      } else {
        BindSafe(g, stmt.target, None, it.items[0], log1, env, c.tick);
        var b := Bind(g.p, g.w, stmt.target, it.items[0], env, c.tick);
        if b.Done? {
          BlockSafe(g, stmt.body, depth + 1, log2, b.value, b.tick);
          var r := ExecBlock(g.p, g.w, stmt.body, b.value, b.tick);
          if r.Done? && !r.value.signal.Broke? && !r.value.signal.Returned? {
            LoopSafe(g, stmt, depth, Iteration(it.items[1..], it.exhausted), log, r.value.env, r.tick);
          }
        }
      }
    }
  }

  // ---- Records carry capabilities only for names of the frame ----

  ghost predicate RecordsOnly(log: Log, log': Log, names: set<string>) {
    log <= log' && forall i :: |log| <= i < |log'| && log'[i].capability.Some? ==> log'[i].name in names
  }

  lemma {:induction false} TargetRecords(s: Scope, targets: seq<Expr>, c: Option<Capability>, log: Log)
    requires AssignTargets(s, targets, c, log).Success?
    ensures RecordsOnly(log, AssignTargets(s, targets, c, log).value, TargetNames(Display(targets)))
  {
    if targets != [] {
      var log1 := RecordTarget(targets[0], c, log);
      assert RecordsOnly(log, log1, TargetNames(targets[0]));
      TargetRecords(s, targets[1..], c, log1);
      assert TargetNames(targets[0]) <= TargetNames(Display(targets));
      assert TargetNames(Display(targets[1..])) <= TargetNames(Display(targets));
    }
  }

  lemma {:induction false} StmtRecords(s: Scope, stmt: Stmt, depth: nat, log: Log)
    requires VisitStmt(s, stmt, depth, log).Success?
    ensures RecordsOnly(log, VisitStmt(s, stmt, depth, log).value, AssignedNames(stmt))
    decreases stmt, 1
  {
    hide Visit, VisitBlock, CapabilityOf, AssignTargets;
    match stmt
    case Assign(targets, value) =>
      var log1 := Visit(s, value, log).value;
      var (c, log2) := CapabilityOf(s, value, log1).value;
      TargetRecords(s, targets, c, log2);
    case If(test, body, orelse) =>
      var log1 := Visit(s, test, log).value;
      BlockRecords(s, body, depth, log1);
      BlockRecords(s, orelse, depth, VisitBlock(s, body, depth, log1).value);
    case For(target, iter, body, orelse) =>
      var log1 := RecordTarget(target, None, Visit(s, iter, log).value);
      BlockRecords(s, body, depth + 1, log1);
      BlockRecords(s, orelse, depth + 1, VisitBlock(s, body, depth + 1, log1).value);
    case _ =>
  }

  lemma {:induction false} BlockRecords(s: Scope, stmts: seq<Stmt>, depth: nat, log: Log)
    requires VisitBlock(s, stmts, depth, log).Success?
    ensures RecordsOnly(log, VisitBlock(s, stmts, depth, log).value, AssignedNamesOf(stmts))
    decreases stmts, 0
  {
    if stmts != [] {
      StmtRecords(s, stmts[0], depth, log);
      BlockRecords(s, stmts[1..], depth, VisitStmt(s, stmts[0], depth, log).value);
    }
  }
}
