/** A draft whose generator expression runs when a name it reads has become plain: the third way to miss a member. */
module DraftLateGenerators {
  import opened Prelude
  import opened DraftSyntax
  import opened DraftRules
  import opened DraftSemantics
  import opened DraftInvariants
  import opened DraftFlow
  import opened DraftLanguageV1

  const G := Name("g")
  const LAZY_CHOICES := Comprehension(true, [Generator(Name("x"), Name("inputs"), [], false)], [CHOICE])
  const SUSPEND := Assign([G], LAZY_CHOICES)
  const LISTED := Call(Name("list"), [G], false)
  const DRAIN := Return(Some(LISTED))

  /** `g` chooses with `r` for each item, but only inside `list(g)`, when `r` is plain data. */
  const LAZY := Entry("draft", [MADE, SUSPEND, PLAIN, DRAIN])

  ghost predicate HasList(lang: Language) {
    "list" in lang.builtins && lang.isIdentifier("list") && lang.isIdentifier("g") && lang.isIdentifier("x")
  }

  /** A scope in which that draft is validated. */
  ghost predicate LazyScope(s: Scope) {
    HasRandom(s.lang) && HasList(s.lang) && s.bindings == IMPORTS && s.locals == {"r", "g", "x"}
  }

  const X_RECORD := Record("x", None)
  const G_RECORD := Record("g", None)
  const LAZY_LOG := [RANDOM_RECORD, X_RECORD, G_RECORD, PLAIN_RECORD]

  lemma LazyMade(s: Scope)
    requires LazyScope(s)
    ensures VisitStmt(s, MADE, 0, []) == Success(LAZY_LOG[..1]) && StmtSettled(s, MADE, 0, [])
  {
    var log0: Log := [];
    assert !IsPrivate("r");
    MakeRandomChecks(s, log0);
    AssignRecords(s, "r", MAKE_RANDOM, Some(Instance("random")), log0);
    assert log0 + [RANDOM_RECORD] == LAZY_LOG[..1];
    OneRecordIsConsistent();
    NothingRecordedSettles(log0);
  }

  lemma LastOf(log: Log, r: Record)
    ensures Recorded(log + [r]) == Recorded(log)[r.name := r.capability]
  {
    assert (log + [r])[..|log|] == log;
  }

  lemma LazyChoicesVisited(s: Scope)
    requires LazyScope(s)
    ensures Visit(s, LAZY_CHOICES, LAZY_LOG[..1]) == Success(LAZY_LOG[..2])
  {
    hide CapabilityOf, AttributeMember, CallMember;
    var log1, log2 := LAZY_LOG[..1], LAZY_LOG[..2];
    EachInput(s, log1);
    assert log2 == log1 + [X_RECORD];
    RandomThenX();
    ChoiceChecks(s, log2);
    assert VisitAll(s, [CHOICE], log2) == VisitAll(s, [], log2);
  }

  lemma RandomThenX()
    ensures Recorded(LAZY_LOG[..2]) == map["r" := Some(Instance("random")), "x" := None]
  {
    assert LAZY_LOG[..2] == ([] + [RANDOM_RECORD]) + [X_RECORD];
    LastOf([], RANDOM_RECORD);
    LastOf([] + [RANDOM_RECORD], X_RECORD);
  }

  /** The loop of the generator expression records its variable. */
  lemma EachInput(s: Scope, log: Log)
    requires LazyScope(s)
    ensures VisitGenerators(s, LAZY_CHOICES.generators, log) == Success(log + [X_RECORD])
  {
    hide CapabilityOf, AttributeMember, CallMember;
    var gs := LAZY_CHOICES.generators;
    assert !IsPrivate("inputs") && !IsPrivate("x");
    assert Visit(s, Name("inputs"), log) == Success(log);
    assert VisitGenerators(s, gs[1..], log + [X_RECORD]) == Success(log + [X_RECORD]);
  }

  lemma LazySuspend(s: Scope)
    requires LazyScope(s)
    ensures VisitStmt(s, SUSPEND, 0, LAZY_LOG[..1]) == Success(LAZY_LOG[..3])
    ensures StmtSettled(s, SUSPEND, 0, LAZY_LOG[..1]) && !StmtLasts(s, LAZY_LOG, SUSPEND, 0, LAZY_LOG[..1])
  {
    hide Visit, CallMember, GeneratorsLast, HasRandom;
    var log1, log2 := LAZY_LOG[..1], LAZY_LOG[..2];
    LazyChoicesVisited(s);
    assert !IsPrivate("g");
    assert AssignTargets(s, [G], None, log2) == AssignTargets(s, [], None, log2 + [G_RECORD]);
    assert log2 + [G_RECORD] == LAZY_LOG[..3];
    assert Settled(log1, log2) by { assert log2[0].name != log2[1].name; }
    LazyChoicesFade(log2);
  }

  /** The name `r` loses the capability that the generator expression reads it with. */
  lemma LazyChoicesFade(log: Log)
    requires log == LAZY_LOG[..2]
    ensures !GeneratorsLast(LAZY_LOG, log, Parts(LAZY_CHOICES))
  {
    RandomThenX();
    assert !Repeats(log, LAZY_LOG[3]);
    ChoiceReadsR();
    assert Expression(R) in Delayed(LAZY_CHOICES);
    assert "r" in DelayedNames(LAZY_CHOICES);
    assert !Lasting(LAZY_LOG, log, DelayedNames(LAZY_CHOICES));
    assert Expression(LAZY_CHOICES) in Parts(LAZY_CHOICES) && IsLazy(Expression(LAZY_CHOICES));
  }

  lemma ChoiceReadsR()
    ensures Expression(R) in PartsOf(LAZY_CHOICES.elements)
  {
    assert Expression(R) in Parts(R) && Parts(R) <= Parts(Attribute(R, "choice"));
    assert Parts(Attribute(R, "choice")) <= Parts(CHOICE);
  }

  lemma ThreeNames()
    ensures X_RECORD.name != G_RECORD.name && G_RECORD.name != PLAIN_RECORD.name && PLAIN_RECORD.name != X_RECORD.name
  {
    assert X_RECORD.name[0] != G_RECORD.name[0] && G_RECORD.name[0] != PLAIN_RECORD.name[0];
    assert PLAIN_RECORD.name[0] != X_RECORD.name[0];
  }

  lemma LazyPlain(s: Scope)
    requires LazyScope(s)
    ensures VisitStmt(s, PLAIN, 0, LAZY_LOG[..3]) == Success(LAZY_LOG) && StmtSettled(s, PLAIN, 0, LAZY_LOG[..3])
  {
    var log3 := LAZY_LOG[..3];
    assert !IsPrivate("r");
    AssignRecords(s, "r", Constant(true), None, log3);
    assert log3 + [PLAIN_RECORD] == LAZY_LOG;
    assert Consistent(log3) by { ThreeNames(); }
    NothingRecordedSettles(log3);
  }

  lemma LazyDrain(s: Scope)
    requires LazyScope(s)
    ensures VisitStmt(s, DRAIN, 0, LAZY_LOG) == Success(LAZY_LOG) && StmtSettled(s, DRAIN, 0, LAZY_LOG)
  {
    assert !IsPrivate("list") && !IsPrivate("g");
    assert CallMember(s, Name("list"), LAZY_LOG) == Success((Member(Callable, None), LAZY_LOG));
    assert VisitAll(s, [G], LAZY_LOG) == VisitAll(s, [], LAZY_LOG);
    assert Visit(s, LISTED, LAZY_LOG) == Success(LAZY_LOG);
    assert Settled(LAZY_LOG, LAZY_LOG) by { LazyLogSettled(); }
  }

  /** At its end each name has one last record. */
  lemma LazyLogSettled()
    ensures ConsistentFrom(4, LAZY_LOG)
  {
    var log := LAZY_LOG;
    assert log[0].name == log[3].name;
    assert !Live(log, 4, 0);
    ThreeNames();
  }

  lemma BlockStep(s: Scope, a: Stmt, rest: seq<Stmt>, log: Log, log1: Log, whole: Log)
    requires VisitStmt(s, a, 0, log) == Success(log1) && VisitBlock(s, rest, 0, log1).Success?
    ensures VisitBlock(s, [a] + rest, 0, log) == VisitBlock(s, rest, 0, log1)
    ensures BlockSettled(s, [a] + rest, 0, log) <==> StmtSettled(s, a, 0, log) && BlockSettled(s, rest, 0, log1)
    ensures BlockLasts(s, whole, [a] + rest, 0, log) <==>
            StmtLasts(s, whole, a, 0, log) && BlockLasts(s, whole, rest, 0, log1)
  {
    assert ([a] + rest)[1..] == rest;
  }

  lemma LazyValidates(s: Scope)
    requires LazyScope(s)
    ensures ValidateFunction(s, LAZY) == Success(LAZY_LOG)
    ensures SkipDocstring(LAZY.body) == LAZY.body && VisitBlock(s, LAZY.body, 0, []) == Success(LAZY_LOG)
    ensures BlockSettled(s, LAZY.body, 0, []) && !BlockLasts(s, LAZY_LOG, LAZY.body, 0, [])
  {
    hide VisitStmt, StmtSettled, StmtLasts, IsSafeIdentifier;
    LazyMade(s);
    LazySuspend(s);
    LazyPlain(s);
    LazyDrain(s);
    BlockStep(s, DRAIN, [], LAZY_LOG, LAZY_LOG, LAZY_LOG);
    BlockStep(s, PLAIN, [DRAIN], LAZY_LOG[..3], LAZY_LOG, LAZY_LOG);
    BlockStep(s, SUSPEND, [PLAIN, DRAIN], LAZY_LOG[..1], LAZY_LOG[..3], LAZY_LOG);
    BlockStep(s, MADE, [SUSPEND, PLAIN, DRAIN], [], LAZY_LOG[..1], LAZY_LOG);
    assert [MADE] + [SUSPEND, PLAIN, DRAIN] == LAZY.body;
    assert [SUSPEND] + [PLAIN, DRAIN] == [SUSPEND, PLAIN, DRAIN];
    assert IsSafeIdentifier(s.lang, "r") && IsSafeIdentifier(s.lang, "g") && IsSafeIdentifier(s.lang, "x") by {
      LazyNamesSafe(s.lang);
    }
  }

  lemma LazyNamesSafe(lang: Language)
    requires HasRandom(lang) && HasList(lang)
    ensures IsSafeIdentifier(lang, "r") && IsSafeIdentifier(lang, "g") && IsSafeIdentifier(lang, "x")
  {
  }

  lemma LazyLocals()
    ensures LocalNames(LAZY) == {"r", "g", "x"} && AssignedNamesOf(LAZY.body) == {"r", "g"}
  {
    StoresR(MAKE_RANDOM);
    StoresR(Constant(true));
    SuspendStores();
    DrainStores();
    var rest1, rest2, rest3 := [SUSPEND, PLAIN, DRAIN], [PLAIN, DRAIN], [DRAIN];
    assert LAZY.body[1..] == rest1 && rest1[1..] == rest2 && rest2[1..] == rest3 && rest3[1..] == [];
    assert AssignedNamesOf(rest3) == {} && InnerNamesOf(rest3) == {};
    assert AssignedNamesOf(rest2) == {"r"} && InnerNamesOf(rest2) == {};
    assert AssignedNamesOf(rest1) == {"r", "g"} && InnerNamesOf(rest1) == {"x"};
  }

  lemma SuspendStores()
    ensures AssignedNames(SUSPEND) == {"g"} && InnerNames(SUSPEND) == {"x"}
  {
    assert TargetNames(G) == {"g"};
    assert TargetNames(Display([G])) == {"g"};
    assert ComprehensionNamesOf([CHOICE]) == {};
    assert LAZY_CHOICES.generators[1..] == [] && TargetNames(Name("x")) == {"x"};
    assert GeneratorNames(LAZY_CHOICES.generators) == {"x"};
  }

  lemma DrainStores()
    ensures AssignedNames(DRAIN) == {} && InnerNames(DRAIN) == {}
  {
    assert ComprehensionNamesOf([G]) == {} by { assert [G][1..] == []; }
    assert ComprehensionNames(Name("list")) == {};
    assert ComprehensionNames(LISTED) == {};
  }

  /** Drawing one item from the first generator made. */
  const DRAW := Resumption(0, 0, map[], Iteration([Data(0, [])], true), false)

  /** In this world `random.Random()` makes a generator of random numbers, and suspended generators are run. */
  function DrainingWorld(): World {
    World((t, f, args) => if f == MemberOf(Module("random"), "Random") then Some(Facade(Instance("random"), 0)) else None,
          (t: Clock, op, vs) => Some(Data(t.tick, vs)), (t, v) => Iteration([], true), (t, v) => [], (t, v) => true,
          (t: Clock) => if t.pending == [] then [] else [DRAW])
  }

  lemma DrainingWorldIsFaithful(lang: Language)
    requires HasRandom(lang)
    ensures Faithful(lang, DrainingWorld())
  {
  }

  /** The program of the draft in its body, with generators run by the body alone. */
  ghost predicate LazyProgram(p: Program) {
    LazyScope(p.scope) && p.frameNames == {"r", "g"} && p.entrypoint == "draft" && p.nesting == 1 && p.place.Body?
  }

  lemma NothingToRun(p: Program, env: Env, t: Clock)
    requires t.pending == []
    ensures Consult(p, DrainingWorld(), env, t) == Done((), t)
  {
  }

  lemma ModuleRead(p: Program)
    requires LazyProgram(p)
    ensures Eval(p, DrainingWorld(), Attribute(Name("random"), "Random"), InitialEnv(), START)
      == Done(MemberOf(Module("random"), "Random"), START)
  {
    hide Consult, DrainingWorld;
    assert Eval(p, DrainingWorld(), Name("random"), InitialEnv(), START) == Done(Facade(Module("random"), 0), START);
  }

  lemma MakeRandomRuns(p: Program)
    requires LazyProgram(p)
    ensures Eval(p, DrainingWorld(), MAKE_RANDOM, InitialEnv(), START) == Done(Facade(Instance("random"), 0), START.Next())
  {
    hide Consult;
    var w, env, made := DrainingWorld(), InitialEnv(), MemberOf(Module("random"), "Random");
    ModuleRead(p);
    assert EvalAll(p, w, [], env, START) == Done([], START);
    NothingToRun(p, env, START);
  }

  /** Drawing one item evaluates the element in the frame as it is then. */
  lemma DrawMisses(p: Program, frame: Env, s: Suspended, t: Clock)
    requires p.nesting == 0 && s.e == LAZY_CHOICES && "r" in s.free && "r" in frame && frame["r"].Data?
    requires s.bound == {"x"}
    ensures EvalItems(Resumed(p, frame, s), DrainingWorld(), LAZY_CHOICES, 0, Iteration([Data(0, [])], true),
                      Closure(frame, s, map[]), t).Missing?
  {
    var p', w, env := Resumed(p, frame, s), DrainingWorld(), Closure(frame, s, map[]);
    var inner := env["x" := Data(0, [])];
    assert "r" in env && env["r"] == frame["r"];
    ChooseMisses(p', w, inner, t);
    assert EvalAll(p', w, [CHOICE], inner, t).Missing?;
    assert EvalGenerators(p', w, LAZY_CHOICES, 1, inner, t).Missing?;
    assert Bind(p', w, Name("x"), Data(0, []), env, t) == Done(inner, t);
    assert EvalConditions(p', w, [], inner, t) == Done(true, t);
  }

  lemma SuspensionReadsR(p: Program)
    requires LazyProgram(p)
    ensures var s := Suspension(p, LAZY_CHOICES); s.e == LAZY_CHOICES && "r" in s.free && s.bound == {"x"}
  {
    ChoiceReadsR();
    assert Expression(R) in Delayed(LAZY_CHOICES);
    assert TargetsOf(LAZY_CHOICES.generators) == {"x"} by { assert LAZY_CHOICES.generators[1..] == []; }
  }

  lemma AskingMisses(p: Program, env: Env, t: Clock)
    requires LazyProgram(p) && "r" in env && env["r"].Data? && t.pending == [Suspension(p, LAZY_CHOICES)]
    ensures Consult(p, DrainingWorld(), env, t).Missing?
  {
    hide EvalItems, Suspension, LazyScope, Closure;
    var p', w, s := p.(nesting := 0), DrainingWorld(), t.pending[0];
    SuspensionReadsR(p);
    DrawMisses(p', env, s, t);
    assert Resume(p', w, env, w.resume(t)[0], t).Missing?;
  }

  /** Calling `list` draws from the generator. */
  lemma DrainMisses(p: Program, env: Env, t: Clock)
    requires LazyProgram(p) && "list" !in env && "g" in env && "r" in env && env["r"].Data?
    requires t.pending == [Suspension(p, LAZY_CHOICES)]
    ensures Exec(p, DrainingWorld(), DRAIN, env, t).Missing?
  {
    hide EvalItems, Consult, Suspension, DrainingWorld;
    var w := DrainingWorld();
    AskingMisses(p, env, t);
    assert Eval(p, w, Name("list"), env, t) == Done(BuiltinV("list"), t);
    assert Eval(p, w, G, env, t) == Done(env["g"], t) && EvalAll(p, w, [], env, t) == Done([], t);
    assert [G][1..] == [] && [env["g"]] + [] == [env["g"]];
    assert EvalAll(p, w, [G], env, t) == Done([env["g"]], t);
    assert Eval(p, w, LISTED, env, t).Missing?;
  }

  /** A statement that goes on to the rest of its block. */
  lemma RunStep(p: Program, w: World, a: Stmt, rest: seq<Stmt>, env: Env, t: Clock, env1: Env, t1: Clock)
    requires Exec(p, w, a, env, t) == Done(Flow(env1, Next), t1)
    ensures ExecBlock(p, w, [a] + rest, env, t) == ExecBlock(p, w, rest, env1, t1)
  {
    assert ([a] + rest)[1..] == rest;
  }

  lemma LazyMisses(p: Program)
    requires LazyProgram(p)
    ensures ExecBlock(p, DrainingWorld(), LAZY.body, InitialEnv(), START).Missing?
  {
    hide Eval, Exec, Suspension, DrainingWorld, LazyScope;
    var w, env0, t1 := DrainingWorld(), InitialEnv(), START.Next();
    var env1 := env0["r" := Facade(Instance("random"), 0)];
    var env2, t2 := env1["g" := Data(1, [Facade(Inputs, 0)])], t1.Suspend(Suspension(p, LAZY_CHOICES));
    var env3 := env2["r" := Data(t2.tick, [])];
    MakeRandomRuns(p);
    AssignRuns(p, w, "r", MAKE_RANDOM, env0, START);
    SuspendRuns(p, env1, t1);
    AssignRuns(p, w, "g", LAZY_CHOICES, env1, t1);
    ConstantRuns(p, env2, t2);
    AssignRuns(p, w, "r", Constant(true), env2, t2);
    DrainMisses(p, env3, t2.Next());
    RunStep(p, w, MADE, [SUSPEND, PLAIN, DRAIN], env0, START, env1, t1);
    RunStep(p, w, SUSPEND, [PLAIN, DRAIN], env1, t1, env2, t2);
    RunStep(p, w, PLAIN, [DRAIN], env2, t2, env3, t2.Next());
    assert [MADE] + [SUSPEND, PLAIN, DRAIN] == LAZY.body;
    assert [SUSPEND] + [PLAIN, DRAIN] == [SUSPEND, PLAIN, DRAIN] && [PLAIN] + [DRAIN] == [PLAIN, DRAIN];
  }

  lemma SuspendRuns(p: Program, env: Env, t: Clock)
    requires "inputs" in env && env["inputs"] == Facade(Inputs, 0)
    ensures Eval(p, DrainingWorld(), LAZY_CHOICES, env, t)
      == Done(Data(t.tick, [Facade(Inputs, 0)]), t.Suspend(Suspension(p, LAZY_CHOICES)))
  {
    assert Eval(p, DrainingWorld(), Name("inputs"), env, t) == Done(Facade(Inputs, 0), t);
  }

  lemma ConstantRuns(p: Program, env: Env, t: Clock)
    ensures Eval(p, DrainingWorld(), Constant(true), env, t) == Done(Data(t.tick, []), t.Next())
  {
  }

  /** An accepted and settled draft fails because a generator reads a name after it has lost its capability. */
  lemma LastingNeeded(lang: Language)
    requires HasRandom(lang) && HasList(lang)
    ensures Unsound(ScopeOf(lang, IMPORTS, LAZY), LAZY, DrainingWorld(), 1, true, false, true)
  {
    hide BlockSettled, BlockLasts, Faithful, HasRandom, ValidateFunction;
    var s := ScopeOf(lang, IMPORTS, LAZY);
    LazyLocals();
    LazyValidates(s);
    DrainingWorldIsFaithful(lang);
    LazyMisses(ProgramOf(s, LAZY, 1));
  }

  lemma V1HasList(isIdentifier: string -> bool)
    requires isIdentifier("list") && isIdentifier("g") && isIdentifier("x")
    ensures HasList(V1(isIdentifier))
  {
  }
}
