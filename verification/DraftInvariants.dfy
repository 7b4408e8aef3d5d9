/** What holds while a draft runs: values conform to the validator's records, and suspended generators may be run. */
module DraftInvariants {
  import opened Prelude
  import opened DraftSyntax
  import opened DraftRules
  import opened DraftSemantics
  import opened DraftCoverage

  /** The runtime meaning of a capability. */
  ghost predicate Conforms(lang: Language, c: Option<Capability>, v: Value) {
    match c
    case None => true
    case Some(Symbol(source, member)) => v == MemberOf(Module(source), member)
    case Some(Instance(kind)) => kind in lang.instances ==> Apparent(lang, v) == c
    case Some(other) => v.Facade? && v.kind == other
  }

  /** Calling an exposed member yields what the tables announce for it. */
  ghost predicate Faithful(lang: Language, w: World) {
    forall t, f, args ::
      w.call(t, f, args).Some? && f.MemberOf? && ExposedMember(lang, Some(f.owner), f.name).Some? ==>
        Conforms(lang, ResultCapability(ExposedMember(lang, Some(f.owner), f.name).value), w.call(t, f, args).value)
  }

  // ---- Logs ----

  /** No name is recorded with two different capabilities. */
  ghost predicate Consistent(log: Log) {
    forall i, j :: 0 <= i < |log| && 0 <= j < |log| && log[i].name == log[j].name ==>
      log[i].capability == log[j].capability
  }

  /** Records that count from a point of the log on: the later ones, and the last one of each name before. */
  ghost predicate Live(log: Log, start: nat, i: int) {
    0 <= i < |log| && (i >= start || forall j :: i < j < start && j < |log| ==> log[j].name != log[i].name)
  }

  /** From a point of the log on, no name has two different capabilities. */
  ghost predicate ConsistentFrom(start: nat, log: Log) {
    forall i, j :: Live(log, start, i) && Live(log, start, j) && log[i].name == log[j].name ==>
      log[i].capability == log[j].capability
  }

  function NamesOf(log: Log): set<string> {
    set r | r in log :: r.name
  }

  /** If its name has a capability at this point of the log, the record gives it the same. */
  ghost predicate Repeats(log: Log, r: Record) {
    r.name in Recorded(log) && Recorded(log)[r.name].Some? ==> r.capability == Recorded(log)[r.name]
  }

  /** The capabilities some names have at a point of the log are the ones they are recorded with ever after. */
  ghost predicate Lasting(whole: Log, log: Log, names: set<string>) {
    forall i | |log| <= i < |whole| && whole[i].name in names :: Repeats(log, whole[i])
  }

  /** So are those of the names that the generator expressions among some fragments read later. */
  ghost predicate GeneratorsLast(whole: Log, log: Log, parts: set<Fragment>) {
    forall x | x in parts && IsLazy(x) :: Lasting(whole, log, DelayedNames(x.e))
  }

  lemma {:induction false} RecordedComesFromLog(log: Log, id: string) returns (i: nat)
    requires id in Recorded(log)
    ensures i < |log| && log[i].name == id && log[i].capability == Recorded(log)[id]
    ensures forall j :: i < j < |log| ==> log[j].name != id
  {
    if log[|log| - 1].name == id {
      i := |log| - 1;
    } else {
      i := RecordedComesFromLog(log[..|log| - 1], id);
    }
  }

  lemma {:induction false} RecordedNames(log: Log)
    ensures Recorded(log).Keys == NamesOf(log)
  {
    if log != [] {
      var init := log[..|log| - 1];
      RecordedNames(init);
      assert log == init + [log[|log| - 1]];
    }
  }

  /** Consistency is inherited by every stretch inside. */
  lemma Substretch(start: nat, from: Log, to: Log, final: Log)
    requires start <= |from| && from <= to <= final && ConsistentFrom(start, final)
    ensures ConsistentFrom(|from|, to)
  {
    forall i, j | Live(to, |from|, i) && Live(to, |from|, j) && to[i].name == to[j].name
      ensures to[i].capability == to[j].capability
    {
      LiveInside(start, from, to, final, i);
      LiveInside(start, from, to, final, j);
      assert to[i] == final[i] && to[j] == final[j];
    }
  }

  lemma LiveInside(start: nat, from: Log, to: Log, final: Log, i: nat)
    requires start <= |from| && from <= to <= final && Live(to, |from|, i)
    ensures Live(final, start, i)
  {
    if i < start {
      forall j | i < j < start && j < |final| ensures final[j].name != final[i].name {
        assert to[j] == final[j] && to[i] == final[i];
      }
    }
  }

  /** Within a stretch, the record that counts at some point has the capability of all that count. */
  lemma LastIsLive(start: nat, at: Log, final: Log, n: string, k: nat)
    requires start <= |at| && at <= final && ConsistentFrom(start, final)
    requires n in Recorded(at) && Live(final, start, k) && final[k].name == n
    ensures Recorded(at)[n] == final[k].capability
  {
    var j := RecordedComesFromLog(at, n);
    assert final[j] == at[j];
    assert Live(final, start, j);
  }

  lemma StillRecorded(log: Log, log': Log, n: string)
    requires log <= log' && n in Recorded(log)
    ensures n in Recorded(log')
  {
    RecordedNames(log);
    RecordedNames(log');
    var r :| r in log && r.name == n;
    assert r in log';
  }

  /** What lasts from the end of a stretch lasts from every point in it. */
  lemma LastsFromInside(start: nat, at: Log, final: Log, whole: Log, names: set<string>)
    requires start <= |at| && at <= final <= whole && ConsistentFrom(start, final) && Lasting(whole, final, names)
    ensures Lasting(whole, at, names)
  {
    forall i | |at| <= i < |whole| && whole[i].name in names ensures Repeats(at, whole[i]) {
      var n := whole[i].name;
      if n in Recorded(at) && i < |final| {
        assert final[i] == whole[i] && Live(final, start, i);
        LastIsLive(start, at, final, n, i);
      } else if n in Recorded(at) {
        StillRecorded(at, final, n);
        var k := RecordedComesFromLog(final, n);
        assert Live(final, start, k);
        LastIsLive(start, at, final, n, k);
        assert Repeats(final, whole[i]);
      }
    }
  }

  // ---- Suspended generators ----

  /** Facts about a program and its world that never change. */
  ghost predicate Sane(p: Program, w: World, whole: Log) {
    && Faithful(p.scope.lang, w)
    && p.frameNames <= p.scope.locals
    && p.scope.locals !! RESERVED + p.scope.bindings.Keys
    && p.entrypoint !in p.scope.bindings
    && (forall i :: 0 <= i < |whole| && whole[i].capability.Some? ==> whole[i].name in p.frameNames)
  }

  ghost predicate FrameBase(frame: Env) {
    && "inputs" in frame && frame["inputs"] == Facade(Inputs, 0)
    && "ctx" in frame && frame["ctx"] == Facade(Context, 0)
  }

  /** What was recorded for the expression, from a point of the log on, is settled and stays so. */
  ghost predicate Validated(scope: Scope, whole: Log, horizon: Log, e: Expr, log: Log) {
    Visit(scope, e, log).Success? && ValidatedTo(whole, horizon, e, log, Visit(scope, e, log).value)
  }

  ghost predicate ValidatedTo(whole: Log, horizon: Log, e: Expr, log: Log, end: Log) {
    end <= horizon && ConsistentFrom(|log|, end) && GeneratorsLast(whole, end, Parts(e))
  }

  /** The generator was validated from this point of the log on, before `horizon`, and can be run in this frame. */
  ghost predicate SuspendedAt(scope: Scope, whole: Log, horizon: Log, frame: Env, s: Suspended, log: Log) {
    && s.e.Comprehension? && s.e.lazy
    && Validated(scope, whole, horizon, s.e, log)
    && s.free <= DelayedNames(s.e) && s.free <= scope.locals + RESERVED && s.free !! s.bound && s.bound <= scope.locals
    && TargetsOf(s.e.generators) <= s.bound
    && (forall n | n in s.bound && n in Recorded(log) :: Recorded(log)[n].None?)
    && (forall n | n in s.free && n in frame && n in Recorded(log) :: Conforms(scope.lang, Recorded(log)[n], frame[n]))
  }

  ghost predicate Resumable(scope: Scope, whole: Log, horizon: Log, frame: Env, s: Suspended) {
    exists log :: SuspendedAt(scope, whole, horizon, frame, s, log)
  }

  ghost predicate PendingOk(scope: Scope, whole: Log, horizon: Log, frame: Env, pending: seq<Suspended>) {
    forall k | 0 <= k < |pending| :: Resumable(scope, whole, horizon, frame, pending[k])
  }

  lemma FurtherHorizon(scope: Scope, whole: Log, near: Log, far: Log, frame: Env, pending: seq<Suspended>)
    requires near <= far && PendingOk(scope, whole, near, frame, pending)
    ensures PendingOk(scope, whole, far, frame, pending)
  {
    forall k | 0 <= k < |pending| ensures Resumable(scope, whole, far, frame, pending[k]) {
      var log :| SuspendedAt(scope, whole, near, frame, pending[k], log);
      assert SuspendedAt(scope, whole, far, frame, pending[k], log);
    }
  }

  // ---- The setting of a stretch of code ----

  /**
   * A program and its world, and the stretch of the log, from `start` to `final`, that belongs to the code being run;
   * generators made so far were validated before `horizon`, and `parts` holds what is being run.
   */
  datatype Setting = Setting(
    p: Program, w: World, start: nat, final: Log, horizon: Log, whole: Log, parts: set<Fragment>)
  {
    ghost predicate Valid() {
      && Sane(p, w, whole)
      && start <= |final| && final <= horizon <= whole
      && ConsistentFrom(start, final) && GeneratorsLast(whole, final, parts)
    }

    ghost predicate EnvOk(env: Env) {
      && FrameBase(env)
      && env.Keys <= p.scope.locals + RESERVED && (p.place.Body? ==> env.Keys <= NamesOf(final) + RESERVED)
      && forall i :: Live(final, start, i) && final[i].name in env ==>
           Conforms(p.scope.lang, final[i].capability, env[final[i].name])
    }

    /** A comprehension sees names of the frame as they are; its own variables have no capabilities. */
    ghost predicate PlaceOk(env: Env) {
      p.place.Inner? ==>
        && FrameBase(p.place.frame)
        && p.place.visible <= p.scope.locals + RESERVED && p.place.visible !! p.place.bound
        && p.place.bound <= p.scope.locals
        && (forall n :: n in p.place.visible && n in p.place.frame ==> n in env && env[n] == p.place.frame[n])
        && (forall i :: Live(final, start, i) && final[i].name in p.place.bound ==> final[i].capability.None?)
    }

    ghost predicate Calm(env: Env, pending: seq<Suspended>) {
      PendingOk(p.scope, whole, horizon, FrameOf(p, env), pending)
    }

    /** Ready to run what was validated from `log` on. */
    ghost predicate Ready(log: Log, env: Env, t: Clock) {
      Valid() && EnvOk(env) && PlaceOk(env) && start <= |log| && Calm(env, t.pending)
    }

    ghost predicate Fine<T>(env: Env, r: Outcome<T>) {
      !r.Missing? && (r.Done? ==> Calm(env, r.tick.pending))
    }
  }

  lemma NameConforms(g: Setting, id: string, log: Log, env: Env, t: Clock)
    requires g.Valid() && g.EnvOk(env) && g.start <= |log| && log <= g.final
    ensures var r := Read(g.p, id, env, t);
            !r.Missing? && (r.Done? ==> r.tick == t && Conforms(g.p.scope.lang, NameCapability(g.p.scope, id, log), r.value))
  {
    if id in Recorded(log) && id !in RESERVED {
      var i := RecordedComesFromLog(log, id);
      assert g.final[i] == log[i] == g.whole[i] && Live(g.final, g.start, i);
    }
  }

  // ---- Entering a comprehension ----

  lemma {:induction false} TargetRecorded(target: Expr, log: Log, n: string) returns (i: nat)
    requires n in TargetNames(target)
    ensures |log| <= i < |RecordTarget(target, None, log)| && RecordTarget(target, None, log)[i] == Record(n, None)
    decreases target, 1
  {
    match target
    case Name(id) => i := |log|;
    case Display(items) => i := ItemRecorded(items, log, n);
  }

  lemma {:induction false} ItemRecorded(targets: seq<Expr>, log: Log, n: string) returns (i: nat)
    requires exists x | x in targets :: n in TargetNames(x)
    ensures |log| <= i < |RecordItems(targets, log)| && RecordItems(targets, log)[i] == Record(n, None)
    decreases targets, 0
  {
    var log1 := RecordTarget(targets[0], None, log);
    if n in TargetNames(targets[0]) {
      i := TargetRecorded(targets[0], log, n);
      assert log1 <= RecordItems(targets[1..], log1);
    } else {
      assert exists x | x in targets[1..] :: n in TargetNames(x);
      i := ItemRecorded(targets[1..], log1, n);
    }
  }

  /** Every target of a comprehension is recorded without a capability, and is a local. */
  lemma {:induction false} GeneratorRecorded(s: Scope, gs: seq<Generator>, log: Log, n: string) returns (i: nat)
    requires VisitGenerators(s, gs, log).Success? && n in TargetsOf(gs)
    ensures |log| <= i < |VisitGenerators(s, gs, log).value| && VisitGenerators(s, gs, log).value[i] == Record(n, None)
    ensures n in s.locals
    decreases gs
  {
    var log1 := Visit(s, gs[0].iter, log).value;
    var log2 := RecordTarget(gs[0].target, None, log1);
    var log3 := VisitAll(s, gs[0].conditions, log2).value;
    if n in TargetNames(gs[0].target) {
      TargetsAreLocal(s, gs[0].target);
      i := TargetRecorded(gs[0].target, log1, n);
      assert log2 <= log3 <= VisitGenerators(s, gs[1..], log3).value;
    } else {
      i := GeneratorRecorded(s, gs[1..], log3, n);
    }
  }

  /** In a stretch with such a comprehension, its targets have no capability anywhere. */
  lemma TargetsArePlain(g: Setting, gs: seq<Generator>, log: Log, n: string, k: nat)
    requires g.Valid() && g.start <= |log| && VisitGenerators(g.p.scope, gs, log).Success?
    requires VisitGenerators(g.p.scope, gs, log).value <= g.final && n in TargetsOf(gs)
    requires Live(g.final, g.start, k) && g.final[k].name == n
    ensures g.final[k].capability.None?
  {
    var i := GeneratorRecorded(g.p.scope, gs, log, n);
    assert g.final[i] == VisitGenerators(g.p.scope, gs, log).value[i] && Live(g.final, g.start, i);
  }

  ghost function Entered(g: Setting, env: Env, names: set<string>): Setting {
    g.(p := Within(g.p, env, names))
  }

  lemma EnterComprehension(g: Setting, gs: seq<Generator>, log: Log, env: Env)
    requires g.Valid() && g.EnvOk(env) && g.PlaceOk(env) && g.start <= |log|
    requires VisitGenerators(g.p.scope, gs, log).Success? && VisitGenerators(g.p.scope, gs, log).value <= g.final
    ensures var names := TargetsOf(gs);
      && Entered(g, env, names).Valid() && Entered(g, env, names).EnvOk(Without(env, names))
      && Entered(g, env, names).PlaceOk(Without(env, names))
  {
    var names := TargetsOf(gs);
    forall n | n in names ensures n in g.p.scope.locals { var i := GeneratorRecorded(g.p.scope, gs, log, n); }
    forall i | Live(g.final, g.start, i) && g.final[i].name in names ensures g.final[i].capability.None? {
      TargetsArePlain(g, gs, log, g.final[i].name, i);
    }
  }

  // ---- Suspending and resuming ----

  lemma MakeSuspended(g: Setting, e: Expr, log: Log, env: Env)
    requires g.Valid() && g.EnvOk(env) && g.PlaceOk(env) && g.start <= |log|
    requires e.Comprehension? && e.lazy && Parts(e) <= g.parts
    requires Visit(g.p.scope, e, log).Success? && Visit(g.p.scope, e, log).value <= g.final
    ensures SuspendedAt(g.p.scope, g.whole, g.horizon, FrameOf(g.p, env), Suspension(g.p, e), log)
  {
    var s, scope, end := Suspension(g.p, e), g.p.scope, Visit(g.p.scope, e, log).value;
    var gend := VisitGenerators(scope, e.generators, log).value;
    Substretch(g.start, log, end, g.final);
    forall x | x in Parts(e) && IsLazy(x) ensures Lasting(g.whole, end, DelayedNames(x.e)) {
      LastsFromInside(g.start, end, g.final, g.whole, DelayedNames(x.e));
    }
    forall n | n in TargetsOf(e.generators) ensures n in scope.locals {
      var i := GeneratorRecorded(scope, e.generators, log, n);
    }
    forall n | n in s.bound && n in Recorded(log) ensures Recorded(log)[n].None? { BoundIsPlain(g, e, log, env, n); }
    forall n | n in s.free && n in FrameOf(g.p, env) && n in Recorded(log)
      ensures Conforms(scope.lang, Recorded(log)[n], FrameOf(g.p, env)[n])
    {
      var j := RecordedComesFromLog(log, n);
      assert g.final[j] == log[j] && Live(g.final, g.start, j);
    }
  }

  lemma BoundIsPlain(g: Setting, e: Expr, log: Log, env: Env, n: string)
    requires g.Valid() && g.PlaceOk(env) && g.start <= |log| && e.Comprehension?
    requires Visit(g.p.scope, e, log).Success? && Visit(g.p.scope, e, log).value <= g.final
    requires n in Suspension(g.p, e).bound && n in Recorded(log)
    ensures Recorded(log)[n].None?
  {
    var j := RecordedComesFromLog(log, n);
    assert g.final[j] == log[j] && Live(g.final, g.start, j);
    if n in TargetsOf(e.generators) { TargetsArePlain(g, e.generators, log, n, j); }
  }

  /** The setting in which a suspended generator goes on. */
  ghost function ResumedSetting(p: Program, w: World, whole: Log, horizon: Log, frame: Env, s: Suspended, log: Log): Setting
    requires Visit(p.scope, s.e, log).Success?
  {
    Setting(Resumed(p, frame, s), w, |log|, Visit(p.scope, s.e, log).value, horizon, whole, Parts(s.e))
  }

  lemma ResumedIsReady(p: Program, w: World, whole: Log, horizon: Log, frame: Env, s: Suspended, log: Log, vars: Env)
    requires Sane(p, w, whole) && horizon <= whole && FrameBase(frame) && SuspendedAt(p.scope, whole, horizon, frame, s, log)
    ensures var g, env := ResumedSetting(p, w, whole, horizon, frame, s, log), Closure(frame, s, vars);
      g.Valid() && g.EnvOk(env) && g.PlaceOk(env)
  {
    var g, env := ResumedSetting(p, w, whole, horizon, frame, s, log), Closure(frame, s, vars);
    forall i | Live(g.final, g.start, i) && g.final[i].name in s.bound ensures g.final[i].capability.None? {
      LivePlain(p, w, whole, horizon, frame, s, log, i);
    }
    forall i | Live(g.final, g.start, i) && g.final[i].name in env
      ensures Conforms(p.scope.lang, g.final[i].capability, env[g.final[i].name])
    {
      LiveConforms(p, w, whole, horizon, frame, s, log, vars, i);
    }
  }

  lemma LivePlain(p: Program, w: World, whole: Log, horizon: Log, frame: Env, s: Suspended, log: Log, i: nat)
    requires Sane(p, w, whole) && horizon <= whole && SuspendedAt(p.scope, whole, horizon, frame, s, log)
    requires var end := Visit(p.scope, s.e, log).value; Live(end, |log|, i) && end[i].name in s.bound
    ensures Visit(p.scope, s.e, log).value[i].capability.None?
  {
    var end := Visit(p.scope, s.e, log).value;
    if i < |log| {
      RecordedNames(log);
      assert log[i] in log && end[i] == log[i];
      LastIsLive(|log|, log, end, end[i].name, i);
    }
  }

  lemma LiveConforms(p: Program, w: World, whole: Log, horizon: Log, frame: Env, s: Suspended, log: Log, vars: Env, i: nat)
    requires Sane(p, w, whole) && horizon <= whole && FrameBase(frame) && SuspendedAt(p.scope, whole, horizon, frame, s, log)
    requires var end := Visit(p.scope, s.e, log).value; Live(end, |log|, i) && end[i].name in Closure(frame, s, vars)
    ensures var end := Visit(p.scope, s.e, log).value;
      Conforms(p.scope.lang, end[i].capability, Closure(frame, s, vars)[end[i].name])
  {
    var end := Visit(p.scope, s.e, log).value;
    var n := end[i].name;
    if n in s.bound {
      LivePlain(p, w, whole, horizon, frame, s, log, i);
    } else if end[i].capability.Some? {
      assert end[i] == whole[i];
      assert n in p.scope.locals && n !in RESERVED;
      assert i < |log|;
      RecordedNames(log);
      assert log[i] in log && end[i] == log[i];
      LastIsLive(|log|, log, end, n, i);
    }
  }

  // ---- Storing to the frame ----

  /** The last record of a name in a log is its last one there. */
  lemma NotBetween(end: Log, whole: Log, j: nat, k: nat, id: string)
    requires end <= whole && j < k < |whole| && whole[k].name == id
    requires forall i :: j < i < |end| ==> end[i].name != id
    ensures |end| <= k
  {
    assert forall i | 0 <= i < |end| :: end[i] == whole[i];
  }

  /**
   * Storing a value to a name leaves a suspended generator runnable: the record of the store comes after the generator
   * or belongs to the same stretch.
   */
  lemma StoreKeepsSuspended(scope: Scope, whole: Log, horizon: Log, frame: Env, s: Suspended, log: Log,
                            id: string, v: Value, k: nat)
    requires SuspendedAt(scope, whole, horizon, frame, s, log) && horizon <= whole
    requires k < |whole| && whole[k].name == id && Conforms(scope.lang, whole[k].capability, v)
    requires forall j | k <= j < |horizon| && horizon[j].name == id :: horizon[j].capability == whole[k].capability
    ensures SuspendedAt(scope, whole, horizon, frame[id := v], s, log)
  {
    if id in s.free && id in Recorded(log) && Recorded(log)[id].Some? {
      var end := Visit(scope, s.e, log).value;
      var i := RecordedComesFromLog(log, id);
      assert end[i] == log[i] && Live(end, |log|, i);
      RecordedNames(end);
      assert end[i] in end;
      LastIsLive(|log|, end, end, id, i);
      var j := RecordedComesFromLog(end, id);
      assert Expression(s.e) in Parts(s.e) && IsLazy(Expression(s.e));
      if k <= j { assert horizon[j] == end[j]; } else { NotBetween(end, whole, j, k, id); }
    }
  }

  lemma StoreKeepsPending(scope: Scope, whole: Log, horizon: Log, frame: Env, pending: seq<Suspended>,
                          id: string, v: Value, k: nat)
    requires PendingOk(scope, whole, horizon, frame, pending) && horizon <= whole
    requires k < |whole| && whole[k].name == id && Conforms(scope.lang, whole[k].capability, v)
    requires forall j | k <= j < |horizon| && horizon[j].name == id :: horizon[j].capability == whole[k].capability
    ensures PendingOk(scope, whole, horizon, frame[id := v], pending)
  {
    hide SuspendedAt;
    forall n | 0 <= n < |pending| ensures Resumable(scope, whole, horizon, frame[id := v], pending[n]) {
      var log :| SuspendedAt(scope, whole, horizon, frame, pending[n], log);
      StoreKeepsSuspended(scope, whole, horizon, frame, pending[n], log, id, v, k);
    }
  }
}
