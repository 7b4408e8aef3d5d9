/**
 * Capability soundness of whole drafts.  Along straight-line code a name may change its capability; what branches
 * and loops must not do is leave a record that does not hold on every way to the code behind them, and the names that
 * a generator expression reads later must keep the capabilities they have where it stands.
 */
module DraftFlow {
  import opened Prelude
  import opened DraftSyntax
  import opened DraftRules
  import opened DraftSemantics
  import opened DraftInvariants
  import opened DraftSoundness
  import opened DraftValidator

  // ---- The condition ----

  /** Nothing recorded between two points of the log changes a capability. */
  ghost predicate Settled(log: Log, log': Log) {
    log <= log' && ConsistentFrom(|log|, log')
  }

  /** What was recorded in between promises nothing new to a run that skipped it: names keep their capability or lose it. */
  ghost predicate Skips(log: Log, log': Log) {
    forall n :: n in Recorded(log) && n in Recorded(log') && Recorded(log')[n].Some? ==>
      Recorded(log)[n] == Recorded(log')[n]
  }

  /**
   * Expressions do not reuse a name that has a capability for a comprehension variable, loops change no capability,
   * and each branch can be skipped.  Assignments are free to change capabilities.
   */
  ghost predicate StmtSettled(s: Scope, stmt: Stmt, depth: nat, log: Log)
    requires VisitStmt(s, stmt, depth, log).Success?
    decreases stmt, 1
  {
    match stmt
    case Assign(_, value) => Settled(log, CapabilityOf(s, value, Visit(s, value, log).value).value.1)
    case AugAssign(_, _, value) => Settled(log, Visit(s, value, log).value)
    case If(test, body, orelse) =>
      var log1 := Visit(s, test, log).value;
      var log2 := VisitBlock(s, body, depth, log1).value;
      && Settled(log, log1) && BlockSettled(s, body, depth, log1) && BlockSettled(s, orelse, depth, log2)
      && Skips(log1, log2) && Skips(log2, VisitBlock(s, orelse, depth, log2).value)
    case _ => Settled(log, VisitStmt(s, stmt, depth, log).value)
  }

  ghost predicate BlockSettled(s: Scope, stmts: seq<Stmt>, depth: nat, log: Log)
    requires VisitBlock(s, stmts, depth, log).Success?
    decreases stmts, 0
  {
    stmts != [] ==>
      && StmtSettled(s, stmts[0], depth, log)
      && BlockSettled(s, stmts[1..], depth, VisitStmt(s, stmts[0], depth, log).value)
  }

  /**
   * A generator expression may run at any later time: the capabilities that the names it then reads have where it
   * stands, they are recorded with ever after, to the end of the whole log.
   */
  ghost predicate StmtLasts(s: Scope, whole: Log, stmt: Stmt, depth: nat, log: Log)
    requires VisitStmt(s, stmt, depth, log).Success?
    decreases stmt, 1
  {
    match stmt
    case Assign(_, value) =>
      GeneratorsLast(whole, CapabilityOf(s, value, Visit(s, value, log).value).value.1, Parts(value))
    case AugAssign(_, _, value) => GeneratorsLast(whole, Visit(s, value, log).value, Parts(value))
    case If(test, body, orelse) =>
      var log1 := Visit(s, test, log).value;
      && GeneratorsLast(whole, log1, Parts(test))
      && BlockLasts(s, whole, body, depth, log1)
      && BlockLasts(s, whole, orelse, depth, VisitBlock(s, body, depth, log1).value)
    case _ => GeneratorsLast(whole, VisitStmt(s, stmt, depth, log).value, StmtParts(stmt))
  }

  ghost predicate BlockLasts(s: Scope, whole: Log, stmts: seq<Stmt>, depth: nat, log: Log)
    requires VisitBlock(s, stmts, depth, log).Success?
    decreases stmts, 0
  {
    stmts != [] ==>
      && StmtLasts(s, whole, stmts[0], depth, log)
      && BlockLasts(s, whole, stmts[1..], depth, VisitStmt(s, stmts[0], depth, log).value)
  }

  // ---- The invariant between statements ----

  /** A program, its world, and the log of the whole body. */
  datatype Whole = Whole(p: Program, w: World, log: Log)
  {
    ghost predicate Valid() {
      Sane(p, w, log) && p.place.Body?
    }

    /** The values of the names conform to their last records at this point. */
    ghost predicate EnvFits(at: Log, env: Env) {
      && FrameBase(env)
      && env.Keys <= p.scope.locals + RESERVED && env.Keys <= NamesOf(at) + RESERVED
      && forall n :: n in env && n in Recorded(at) ==> Conforms(p.scope.lang, Recorded(at)[n], env[n])
    }

    ghost predicate Calm(at: Log, env: Env, pending: seq<Suspended>) {
      PendingOk(p.scope, log, at, env, pending)
    }

    /** They do, and the generators made so far can be run. */
    ghost predicate Fits(at: Log, env: Env, t: Clock) {
      at <= log && EnvFits(at, env) && Calm(at, env, t.pending)
    }

    ghost predicate FlowFits(at: Log, r: Outcome<Flow>) {
      !r.Missing? && (r.Done? && r.value.signal.Next? ==> Fits(at, r.value.env, r.tick))
    }

    ghost predicate EnvResult(at: Log, b: Outcome<Env>) {
      !b.Missing? && (b.Done? ==> Fits(at, b.value, b.tick))
    }

    /** The setting of a stretch of the log. */
    ghost function Stretch(from: Log, to: Log, parts: set<Fragment>): Setting {
      Setting(p, w, |from|, to, to, log, parts)
    }
  }

  /** Names with a capability are in the frame, hence not reserved. */
  lemma RecordedInFrame(h: Whole, at: Log, n: string)
    requires h.Valid() && at <= h.log && n in Recorded(at) && Recorded(at)[n].Some?
    ensures n in h.p.frameNames && n !in RESERVED
  {
    var i := RecordedComesFromLog(at, n);
    assert h.log[i] == at[i];
  }

  /** The code of a stretch may be run where the values fit its beginning. */
  lemma Enter(h: Whole, from: Log, to: Log, parts: set<Fragment>, env: Env, t: Clock)
    requires h.Valid() && Settled(from, to) && to <= h.log && h.Fits(from, env, t) && GeneratorsLast(h.log, to, parts)
    ensures BodyReady(h.Stretch(from, to, parts), from, env, t)
  {
    hide GeneratorsLast, Sane;
    StretchFits(h, from, to, parts, env, t);
    FurtherHorizon(h.p.scope, h.log, from, to, env, t.pending);
  }

  /** At the beginning of a stretch, the environment is in line with all of it. */
  lemma StretchFits(h: Whole, from: Log, to: Log, parts: set<Fragment>, env: Env, t: Clock)
    requires h.Valid() && Settled(from, to) && to <= h.log && h.Fits(from, env, t)
    ensures h.Stretch(from, to, parts).EnvOk(env)
  {
    hide GeneratorsLast, PendingOk;
    RecordedNames(from);
    assert NamesOf(from) <= NamesOf(to) by { assert forall r | r in from :: r in to; }
    forall i | Live(to, |from|, i) && to[i].name in env
      ensures Conforms(h.p.scope.lang, to[i].capability, env[to[i].name])
    {
      EnterAt(h, from, to, env, i);
    }
  }

  lemma EnterAt(h: Whole, from: Log, to: Log, env: Env, i: nat)
    requires h.Valid() && Settled(from, to) && to <= h.log && h.EnvFits(from, env)
    requires Live(to, |from|, i) && to[i].name in env
    ensures Conforms(h.p.scope.lang, to[i].capability, env[to[i].name])
  {
    var n := to[i].name;
    if to[i].capability.Some? {
      assert to[i] == h.log[i];
      RecordedNames(from);
      assert n in Recorded(from);
      var j := RecordedComesFromLog(from, n);
      assert to[j] == from[j] && Live(to, |from|, j);
    }
  }

  /** At its end, what is in line with the stretch fits its last records. */
  lemma Leave(h: Whole, from: Log, to: Log, parts: set<Fragment>, env: Env)
    requires h.Valid() && Settled(from, to) && to <= h.log && h.Stretch(from, to, parts).EnvOk(env)
    ensures h.EnvFits(to, env)
  {
    forall n | n in env && n in Recorded(to) ensures Conforms(h.p.scope.lang, Recorded(to)[n], env[n]) {
      var i := RecordedComesFromLog(to, n);
      assert Live(to, |from|, i);
    }
  }

  /** Skipping records keeps the environment fitting. */
  lemma Stay(h: Whole, from: Log, to: Log, env: Env)
    requires h.Valid() && from <= to <= h.log && Skips(from, to) && h.EnvFits(from, env)
    ensures h.EnvFits(to, env)
  {
    assert NamesOf(from) <= NamesOf(to) by { assert forall r | r in from :: r in to; }
    forall n | n in env && n in Recorded(to) ensures Conforms(h.p.scope.lang, Recorded(to)[n], env[n]) {
      if Recorded(to)[n].Some? {
        RecordedInFrame(h, to, n);
        RecordedNames(from);
        assert n in Recorded(from);
      }
    }
  }

  lemma StayFits(h: Whole, from: Log, to: Log, env: Env, t: Clock)
    requires h.Valid() && from <= to <= h.log && Skips(from, to) && h.Fits(from, env, t)
    ensures h.Fits(to, env, t)
  {
    hide Whole.Valid, Whole.EnvFits, Skips;
    Stay(h, from, to, env);
    FurtherHorizon(h.p.scope, h.log, from, to, env, t.pending);
  }

  lemma {:induction false} PlainRecordsSkip(log: Log, log': Log)
    requires Grows(log, log')
    ensures Skips(log, log')
  {
    forall n | n in Recorded(log) && n in Recorded(log') && Recorded(log')[n].Some?
      ensures Recorded(log)[n] == Recorded(log')[n]
    {
      var i := RecordedComesFromLog(log', n);
      var j := RecordedComesFromLog(log, n);
      assert log'[j] == log[j];
    }
  }

  /** After an expression that was safe in its stretch, the values fit the end of the stretch. */
  lemma ExprLeaves(h: Whole, from: Log, to: Log, parts: set<Fragment>, env: Env, t: Clock, r: Outcome<Value>)
    requires h.Valid() && Settled(from, to) && Grows(from, to) && to <= h.log && h.Fits(from, env, t)
    requires h.Stretch(from, to, parts).Fine(env, r)
    ensures !r.Missing? && (r.Done? ==> h.Fits(to, env, r.tick))
  {
    hide Whole.EnvFits, Settled, Skips, PendingOk, Sane;
    PlainRecordsSkip(from, to);
    Stay(h, from, to, env);
  }

  /** Running code of a stretch and nothing else: what the expression reads is there. */
  lemma ExprFits(h: Whole, e: Expr, log: Log, to: Log, env: Env, t: Clock)
    requires h.Valid() && h.Fits(log, env, t) && Settled(log, to) && Grows(log, to) && to <= h.log
    requires Visit(h.p.scope, e, log).Success? && Visit(h.p.scope, e, log).value <= to
    requires GeneratorsLast(h.log, to, Parts(e))
    ensures var r := Eval(h.p, h.w, e, env, t); !r.Missing? && (r.Done? ==> h.Fits(to, env, r.tick))
  {
    hide Whole.Valid, Whole.Fits, Settled, Setting.Valid, Setting.EnvOk, Setting.PlaceOk, Setting.Calm, Visit, Eval, Parts,
      GeneratorsLast;
    Enter(h, log, to, Parts(e), env, t);
    ExprSafe(h.Stretch(log, to, Parts(e)), e, log, env, t);
    ExprLeaves(h, log, to, Parts(e), env, t, Eval(h.p, h.w, e, env, t));
  }

  /** Between two statements or within one, the world may run generators. */
  lemma AskFits(h: Whole, at: Log, env: Env, t: Clock)
    requires h.Valid() && h.Fits(at, env, t)
    ensures var r := Consult(h.p, h.w, env, t); !r.Missing? && (r.Done? ==> h.Fits(at, env, r.tick))
  {
    hide Sane, PendingOk, Consult;
    ConsultSafe(h.p, h.w, h.log, at, env, t);
  }

  // ---- Bindings ----

  /** Storing to a name records it. */
  lemma StoreFits(h: Whole, id: string, c: Option<Capability>, v: Value, log: Log, env: Env, t: Clock)
    requires h.Valid() && h.Fits(log, env, t) && Conforms(h.p.scope.lang, c, v) && id in h.p.scope.locals
    requires log + [Record(id, c)] <= h.log
    ensures h.Fits(log + [Record(id, c)], env[id := v], t)
  {
    hide PendingOk;
    var log' := log + [Record(id, c)];
    assert h.log[|log|] == log'[|log|];
    StoreKeepsPending(h.p.scope, h.log, log, env, t.pending, id, v, |log|);
    FurtherHorizon(h.p.scope, h.log, log, log', env[id := v], t.pending);
    StoreEnvFits(h, id, c, v, log, env);
  }

  lemma StoreEnvFits(h: Whole, id: string, c: Option<Capability>, v: Value, log: Log, env: Env)
    requires h.Valid() && h.EnvFits(log, env) && Conforms(h.p.scope.lang, c, v) && id in h.p.scope.locals
    ensures h.EnvFits(log + [Record(id, c)], env[id := v])
  {
    var log' := log + [Record(id, c)];
    assert log'[..|log|] == log && Recorded(log') == Recorded(log)[id := c];
    assert NamesOf(log') == NamesOf(log) + {id};
  }

  lemma {:induction false} BindFits(h: Whole, target: Expr, c: Option<Capability>, v: Value, log: Log, env: Env, t: Clock)
    requires h.Valid() && h.Fits(log, env, t) && Conforms(h.p.scope.lang, c, v) && TargetAllowed(h.p.scope, target)
    requires RecordTarget(target, c, log) <= h.log
    ensures h.EnvResult(RecordTarget(target, c, log), Bind(h.p, h.w, target, v, env, t))
    decreases target, 1
  {
    match target
    case Name(id) => StoreFits(h, id, c, v, log, env, t);
    case Display(items) =>
      hide Whole.Valid, Whole.EnvFits, Consult;
      AskFits(h, log, env, t);
      var r := Consult(h.p, h.w, env, t);
      if r.Done? { BindAllFits(h, items, h.w.unpack(r.tick, v), log, env, r.tick.Next()); }
    case _ =>
  }

  lemma {:induction false} BindAllFits(h: Whole, targets: seq<Expr>, vs: seq<Value>, log: Log, env: Env, t: Clock)
    requires h.Valid() && h.Fits(log, env, t) && forall x | x in targets :: TargetAllowed(h.p.scope, x)
    requires RecordItems(targets, log) <= h.log
    ensures h.EnvResult(RecordItems(targets, log), BindAll(h.p, h.w, targets, vs, env, t))
    decreases targets, 0
  {
    hide Whole.Valid, Whole.Fits, Bind;
    if targets != [] && vs != [] {
      var log1 := RecordTarget(targets[0], None, log);
      BindFits(h, targets[0], None, vs[0], log, env, t);
      var b := Bind(h.p, h.w, targets[0], vs[0], env, t);
      if b.Done? { BindAllFits(h, targets[1..], vs[1..], log1, b.value, b.tick); }
    }
  }

  lemma {:induction false} BindEachFits(h: Whole, targets: seq<Expr>, c: Option<Capability>, v: Value, log: Log, env: Env,
                                        t: Clock)
    requires h.Valid() && h.Fits(log, env, t) && Conforms(h.p.scope.lang, c, v)
    requires AssignTargets(h.p.scope, targets, c, log).Success? && AssignTargets(h.p.scope, targets, c, log).value <= h.log
    ensures h.EnvResult(AssignTargets(h.p.scope, targets, c, log).value, BindEach(h.p, h.w, targets, v, env, t))
  {
    hide Whole.Valid, Whole.Fits, Conforms, Bind;
    if targets != [] {
      BindFits(h, targets[0], c, v, log, env, t);
      var b := Bind(h.p, h.w, targets[0], v, env, t);
      if b.Done? { BindEachFits(h, targets[1..], c, v, RecordTarget(targets[0], c, log), b.value, b.tick); }
    }
  }

  // ---- Statements ----

  lemma AssignFits(h: Whole, stmt: Stmt, depth: nat, log: Log, env: Env, t: Clock)
    requires h.Valid() && h.Fits(log, env, t) && stmt.Assign?
    requires VisitStmt(h.p.scope, stmt, depth, log).Success? && VisitStmt(h.p.scope, stmt, depth, log).value <= h.log
    requires StmtSettled(h.p.scope, stmt, depth, log) && StmtLasts(h.p.scope, h.log, stmt, depth, log)
    ensures h.FlowFits(VisitStmt(h.p.scope, stmt, depth, log).value, Exec(h.p, h.w, stmt, env, t))
  {
    hide Whole.Valid, Whole.Fits, Settled, Conforms, GeneratorsLast, Visit, Eval, CapabilityOf;
    var Assign(targets, value) := stmt;
    var log1 := Visit(h.p.scope, value, log).value;
    var (c, log2) := CapabilityOf(h.p.scope, value, log1).value;
    ExprFits(h, value, log, log2, env, t);
    ValueConforms(h, value, log, env, t);
    var r := Eval(h.p, h.w, value, env, t);
    if r.Done? { BindEachFits(h, targets, c, r.value, log2, env, r.tick); }
  }

  /** The assigned value is what the validator takes it for. */
  lemma ValueConforms(h: Whole, e: Expr, log: Log, env: Env, t: Clock)
    requires h.Valid() && h.Fits(log, env, t) && Visit(h.p.scope, e, log).Success?
    requires var c := CapabilityOf(h.p.scope, e, Visit(h.p.scope, e, log).value);
      c.Success? && Settled(log, c.value.1) && c.value.1 <= h.log && GeneratorsLast(h.log, c.value.1, Parts(e))
    ensures var r, c := Eval(h.p, h.w, e, env, t), CapabilityOf(h.p.scope, e, Visit(h.p.scope, e, log).value).value.0;
      r.Done? ==> Conforms(h.p.scope.lang, c, r.value)
  {
    hide Whole.Valid, Whole.Fits, Settled, Conforms, GeneratorsLast, Visit, Eval, CapabilityOf, Parts, Setting.Valid,
      Setting.EnvOk, Setting.PlaceOk, Setting.Calm;
    var log1 := Visit(h.p.scope, e, log).value;
    var to := CapabilityOf(h.p.scope, e, log1).value.1;
    Enter(h, log, to, Parts(e), env, t);
    CapabilityConforms(h.Stretch(log, to, Parts(e)), e, log1, env, t);
  }

  lemma AugAssignFits(h: Whole, stmt: Stmt, depth: nat, log: Log, env: Env, t: Clock)
    requires h.Valid() && h.Fits(log, env, t) && stmt.AugAssign?
    requires VisitStmt(h.p.scope, stmt, depth, log).Success? && VisitStmt(h.p.scope, stmt, depth, log).value <= h.log
    requires StmtSettled(h.p.scope, stmt, depth, log) && StmtLasts(h.p.scope, h.log, stmt, depth, log)
    ensures h.FlowFits(VisitStmt(h.p.scope, stmt, depth, log).value, Exec(h.p, h.w, stmt, env, t))
  {
    hide Whole.Valid, Whole.EnvFits, Whole.Calm, Settled, GeneratorsLast, Visit, Eval, Consult, Bind;
    var log1 := Visit(h.p.scope, stmt.value, log).value;
    if stmt.target.Name? {
      assert !Read(h.p, stmt.target.id, env, t).Missing?;
      var r1 := Read(h.p, stmt.target.id, env, t);
      if r1.Done? {
        ExprFits(h, stmt.value, log, log1, env, t);
        var r2 := Eval(h.p, h.w, stmt.value, env, t);
        if r2.Done? {
          AskFits(h, log1, env, r2.tick);
          var r3 := Consult(h.p, h.w, env, r2.tick);
          if r3.Done? {
            var r4 := Answer(h.w.operate(r3.tick, stmt.operator, [r1.value, r2.value]), r3.tick);
            if r4.Done? { BindFits(h, stmt.target, None, r4.value, log1, env, r4.tick); }
          }
        }
      }
    }
  }

  lemma {:induction false} BranchFits(h: Whole, stmt: Stmt, depth: nat, log: Log, env: Env, t: Clock)
    requires h.Valid() && h.Fits(log, env, t) && stmt.If?
    requires VisitStmt(h.p.scope, stmt, depth, log).Success? && VisitStmt(h.p.scope, stmt, depth, log).value <= h.log
    requires StmtSettled(h.p.scope, stmt, depth, log) && StmtLasts(h.p.scope, h.log, stmt, depth, log)
    ensures h.FlowFits(VisitStmt(h.p.scope, stmt, depth, log).value, Exec(h.p, h.w, stmt, env, t))
    decreases stmt, 0
  {
    hide Whole.Valid, Whole.EnvFits, Whole.Calm, Settled, Skips, GeneratorsLast, Visit, VisitBlock, ExecBlock, Eval;
    var s := h.p.scope;
    var log1 := Visit(s, stmt.test, log).value;
    var log2 := VisitBlock(s, stmt.body, depth, log1).value;
    var log3 := VisitBlock(s, stmt.orelse, depth, log2).value;
    ExprFits(h, stmt.test, log, log1, env, t);
    var r := Eval(h.p, h.w, stmt.test, env, t);
    if r.Done? {
      if h.w.truth(r.tick, r.value) {
        BlockFits(h, stmt.body, depth, log1, env, r.tick.Next());
        var flow := ExecBlock(h.p, h.w, stmt.body, env, r.tick.Next());
        if flow.Done? && flow.value.signal.Next? { StayFits(h, log2, log3, flow.value.env, flow.tick); }
      } else {
        StayFits(h, log1, log2, env, r.tick.Next());
        BlockFits(h, stmt.orelse, depth, log2, env, r.tick.Next());
      }
    }
  }

  /** Statements that change no capability, loops among them. */
  lemma SettledFits(h: Whole, stmt: Stmt, depth: nat, log: Log, env: Env, t: Clock)
    requires h.Valid() && h.Fits(log, env, t)
    requires VisitStmt(h.p.scope, stmt, depth, log).Success? && VisitStmt(h.p.scope, stmt, depth, log).value <= h.log
    requires Settled(log, VisitStmt(h.p.scope, stmt, depth, log).value)
    requires GeneratorsLast(h.log, VisitStmt(h.p.scope, stmt, depth, log).value, StmtParts(stmt))
    ensures h.FlowFits(VisitStmt(h.p.scope, stmt, depth, log).value, Exec(h.p, h.w, stmt, env, t))
  {
    hide Whole.EnvFits, Sane, PendingOk, Settled, GeneratorsLast, Setting.Valid, Setting.EnvOk, Setting.PlaceOk, VisitStmt, Exec,
      StmtParts, BodyReady;
    var log' := VisitStmt(h.p.scope, stmt, depth, log).value;
    Enter(h, log, log', StmtParts(stmt), env, t);
    StmtSafe(h.Stretch(log, log', StmtParts(stmt)), stmt, depth, log, env, t);
    var r := Exec(h.p, h.w, stmt, env, t);
    if r.Done? { Leave(h, log, log', StmtParts(stmt), r.value.env); }
  }

  lemma {:induction false} StmtFits(h: Whole, stmt: Stmt, depth: nat, log: Log, env: Env, t: Clock)
    requires h.Valid() && h.Fits(log, env, t)
    requires VisitStmt(h.p.scope, stmt, depth, log).Success? && VisitStmt(h.p.scope, stmt, depth, log).value <= h.log
    requires StmtSettled(h.p.scope, stmt, depth, log) && StmtLasts(h.p.scope, h.log, stmt, depth, log)
    ensures h.FlowFits(VisitStmt(h.p.scope, stmt, depth, log).value, Exec(h.p, h.w, stmt, env, t))
    decreases stmt, 1
  {
    hide Whole.Valid, Whole.Fits, Whole.FlowFits, Settled, GeneratorsLast, VisitStmt, Exec;
    match stmt
    case Assign(_, _) => AssignFits(h, stmt, depth, log, env, t);
    case AugAssign(_, _, _) => AugAssignFits(h, stmt, depth, log, env, t);
    case If(_, _, _) => BranchFits(h, stmt, depth, log, env, t);
    case _ => SettledFits(h, stmt, depth, log, env, t);
  }

  lemma {:induction false} BlockFits(h: Whole, stmts: seq<Stmt>, depth: nat, log: Log, env: Env, t: Clock)
    requires h.Valid() && h.Fits(log, env, t)
    requires VisitBlock(h.p.scope, stmts, depth, log).Success? && VisitBlock(h.p.scope, stmts, depth, log).value <= h.log
    requires BlockSettled(h.p.scope, stmts, depth, log) && BlockLasts(h.p.scope, h.log, stmts, depth, log)
    ensures h.FlowFits(VisitBlock(h.p.scope, stmts, depth, log).value, ExecBlock(h.p, h.w, stmts, env, t))
    decreases stmts, 0
  {
    hide Whole.Valid, Whole.Fits, StmtSettled, StmtLasts, VisitStmt, Exec;
    if stmts != [] {
      StmtFits(h, stmts[0], depth, log, env, t);
      var r := Exec(h.p, h.w, stmts[0], env, t);
      if r.Done? && r.value.signal.Next? {
        BlockFits(h, stmts[1..], depth, VisitStmt(h.p.scope, stmts[0], depth, log).value, r.value.env, r.tick);
      }
    }
  }

  // ---- The theorem ----

  /** What a caller can check of a draft besides having it validated. */
  ghost predicate WellBehaved(s: Scope, f: Function) {
    && ValidateFunction(s, f).Success? && BlockSettled(s, SkipDocstring(f.body), 0, [])
    && BlockLasts(s, ValidateFunction(s, f).value, SkipDocstring(f.body), 0, [])
    && f.name !in s.bindings
  }

  lemma WholeIsValid(lang: Language, bindings: map<string, Capability>, f: Function, w: World, nesting: nat)
    requires WellBehaved(ScopeOf(lang, bindings, f), f) && Faithful(lang, w)
    ensures var s := ScopeOf(lang, bindings, f); Whole(ProgramOf(s, f, nesting), w, ValidateFunction(s, f).value).Valid()
  {
    hide Faithful, BlockSettled, BlockLasts;
    var s := ScopeOf(lang, bindings, f);
    BlockRecords(s, SkipDocstring(f.body), 0, []);
    assert AssignedNamesOf(SkipDocstring(f.body)) <= AssignedNamesOf(f.body);
  }

  lemma StartFits(h: Whole)
    ensures h.Fits([], InitialEnv(), START)
  {
  }

  /**
   * In no world does a run of a well-behaved accepted draft read an attribute its receiver lacks, whenever and however
   * often its generators are run.
   */
  lemma CapabilitySoundness(lang: Language, bindings: map<string, Capability>, f: Function, w: World, nesting: nat)
    requires WellBehaved(ScopeOf(lang, bindings, f), f) && Faithful(lang, w)
    ensures !Run(ScopeOf(lang, bindings, f), f, w, nesting).Missing?
  {
    hide Whole.Valid, Whole.Fits, Faithful, BlockSettled, BlockLasts, SignatureAllowed;
    var s := ScopeOf(lang, bindings, f);
    var body := SkipDocstring(f.body);
    var h := Whole(ProgramOf(s, f, nesting), w, ValidateFunction(s, f).value);
    WholeIsValid(lang, bindings, f, w, nesting);
    StartFits(h);
    BlockFits(h, body, 0, [], InitialEnv(), START);
    if body != f.body {
      assert ExecBlock(h.p, w, f.body, InitialEnv(), START) == ExecBlock(h.p, w, body, InitialEnv(), START);
    }
  }

  /** The same for what the worker executes: the annotation-free tree of an accepted source. */
  lemma AcceptedSourcesAreSound(lang: Language, tree: seq<TopLevel>, entrypoint: Option<string>,
                                draft: ValidatedDraft, w: World, nesting: nat)
    requires IsDraft(lang, tree, entrypoint, draft) && Faithful(lang, w)
    requires var f := Split(lang, tree).value.1;
             WellBehaved(ScopeOf(lang, BindingTable(draft.bindings), f), f)
    ensures var s := ScopeOf(lang, BindingTable(draft.bindings), Split(lang, tree).value.1);
            !Run(s, draft.execution, w, nesting).Missing?
  {
    CapabilitySoundness(lang, BindingTable(draft.bindings), Split(lang, tree).value.1, w, nesting);
  }

  // ---- A log without two capabilities for one name is settled everywhere ----

  lemma ConsistentStretch(log: Log, log': Log, whole: Log)
    requires log <= log' <= whole && Consistent(whole)
    ensures Settled(log, log')
  {
    assert forall i | 0 <= i < |log'| :: log'[i] == whole[i];
  }

  lemma ConsistentSkips(log: Log, log': Log, whole: Log)
    requires log <= log' <= whole && Consistent(whole)
    ensures Skips(log, log')
  {
    forall n | n in Recorded(log) && n in Recorded(log') ensures Recorded(log)[n] == Recorded(log')[n] {
      var i := RecordedComesFromLog(log, n);
      var j := RecordedComesFromLog(log', n);
      assert whole[i] == log[i] && whole[j] == log'[j];
    }
  }

  lemma ConsistentLasts(log: Log, whole: Log, parts: set<Fragment>)
    requires log <= whole && Consistent(whole)
    ensures GeneratorsLast(whole, log, parts)
  {
    forall i | |log| <= i < |whole| ensures Repeats(log, whole[i]) {
      if whole[i].name in Recorded(log) {
        var j := RecordedComesFromLog(log, whole[i].name);
        assert whole[j] == log[j];
      }
    }
  }

  lemma {:induction false} ConsistentStmt(s: Scope, stmt: Stmt, depth: nat, log: Log, whole: Log)
    requires VisitStmt(s, stmt, depth, log).Success? && VisitStmt(s, stmt, depth, log).value <= whole && Consistent(whole)
    ensures StmtSettled(s, stmt, depth, log) && StmtLasts(s, whole, stmt, depth, log)
    decreases stmt, 1
  {
    hide Consistent, Settled, GeneratorsLast, Skips, Visit, VisitBlock, CapabilityOf, StmtParts;
    var log' := VisitStmt(s, stmt, depth, log).value;
    match stmt
    case Assign(_, value) =>
      var log1 := CapabilityOf(s, value, Visit(s, value, log).value).value.1;
      ConsistentStretch(log, log1, whole);
      ConsistentLasts(log1, whole, Parts(value));
    case AugAssign(_, _, value) =>
      var log1 := Visit(s, value, log).value;
      ConsistentStretch(log, log1, whole);
      ConsistentLasts(log1, whole, Parts(value));
    case If(_, _, _) => ConsistentBranch(s, stmt, depth, log, whole);
    case For(_, _, _, _) => ConsistentOther(log, log', whole, stmt);
    case Return(_) => ConsistentOther(log, log', whole, stmt);
    case Break => ConsistentOther(log, log', whole, stmt);
    case Continue => ConsistentOther(log, log', whole, stmt);
    case Pass => ConsistentOther(log, log', whole, stmt);
    case Assert(_, _) => ConsistentOther(log, log', whole, stmt);
    case _ =>
  }

  lemma ConsistentOther(log: Log, log': Log, whole: Log, stmt: Stmt)
    requires log <= log' <= whole && Consistent(whole)
    ensures Settled(log, log') && GeneratorsLast(whole, log', StmtParts(stmt))
  {
    ConsistentStretch(log, log', whole);
    ConsistentLasts(log', whole, StmtParts(stmt));
  }

  lemma {:induction false} ConsistentBranch(s: Scope, stmt: Stmt, depth: nat, log: Log, whole: Log)
    requires stmt.If? && VisitStmt(s, stmt, depth, log).Success? && VisitStmt(s, stmt, depth, log).value <= whole
    requires Consistent(whole)
    ensures StmtSettled(s, stmt, depth, log) && StmtLasts(s, whole, stmt, depth, log)
    decreases stmt, 0
  {
    hide Consistent, Settled, GeneratorsLast, Skips, Visit, VisitBlock, CapabilityOf, Parts, BlockSettled, BlockLasts;
    var log1 := Visit(s, stmt.test, log).value;
    var log2 := VisitBlock(s, stmt.body, depth, log1).value;
    var log3 := VisitBlock(s, stmt.orelse, depth, log2).value;
    ConsistentStretch(log, log1, whole);
    ConsistentLasts(log1, whole, Parts(stmt.test));
    ConsistentBlock(s, stmt.body, depth, log1, whole);
    ConsistentBlock(s, stmt.orelse, depth, log2, whole);
    ConsistentSkips(log1, log2, whole);
    ConsistentSkips(log2, log3, whole);
  }

  lemma {:induction false} ConsistentBlock(s: Scope, stmts: seq<Stmt>, depth: nat, log: Log, whole: Log)
    requires VisitBlock(s, stmts, depth, log).Success? && VisitBlock(s, stmts, depth, log).value <= whole
    requires Consistent(whole)
    ensures BlockSettled(s, stmts, depth, log) && BlockLasts(s, whole, stmts, depth, log)
    decreases stmts, 0
  {
    hide Consistent, StmtSettled, StmtLasts;
    if stmts != [] {
      ConsistentStmt(s, stmts[0], depth, log, whole);
      ConsistentBlock(s, stmts[1..], depth, VisitStmt(s, stmts[0], depth, log).value, whole);
    }
  }
}
