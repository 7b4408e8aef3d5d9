/** The tables of Draft Language v1, and drafts that show what each side condition of soundness rules out. */
module DraftLanguageV1 {
  import opened Prelude
  import opened DraftSyntax
  import opened DraftRules
  import opened DraftSemantics
  import opened DraftInvariants
  import opened DraftFlow

  /** A member table: plain callables, constants, and constructors with the kind their calls yield. */
  function Table(callables: set<string>, constants: set<string>, constructors: map<string, string>): (t: map<string,
                 Member>)
    ensures t.Keys == callables + constants + constructors.Keys
    ensures forall n | n in t :: t[n].result == if n in constructors then Some(constructors[n]) else None
  {
    map n | n in callables + constants + constructors.Keys ::
      Member(if n in constants then Plain else Callable, if n in constructors then Some(constructors[n]) else None)
  }

  const RANDOM_MEMBERS := {"choice", "randint", "random", "uniform"}

  const MODULE_NAMES := {
    "collections", "decimal", "fractions", "functools", "itertools", "json", "math", "operator", "random", "re",
    "statistics", "string"}

  function Callables(source: string): set<string> {
    match source
    case "functools" => {"reduce"}
    case "itertools" => {"chain", "repeat"}
    case "json" => {"dumps", "loads"}
    case "math" => {"ceil", "exp", "fabs", "floor", "isclose", "isfinite", "log", "log10", "pow", "sqrt", "trunc"}
    case "operator" => {"add", "floordiv", "mul", "sub", "truediv"}
    case "random" => RANDOM_MEMBERS
    case "re" => {"findall", "fullmatch", "match", "search", "split", "sub"}
    case "statistics" => {"fmean", "mean", "median", "median_high", "median_low", "pstdev", "pvariance", "quantiles",
                          "stdev", "variance"}
    case _ => {}
  }

  function Constants(source: string): set<string> {
    match source
    case "decimal" => {"ROUND_DOWN", "ROUND_HALF_EVEN", "ROUND_HALF_UP", "ROUND_UP"}
    case "math" => {"e", "inf", "nan", "pi"}
    case "string" => {"ascii_letters", "ascii_lowercase", "ascii_uppercase", "digits", "hexdigits", "punctuation",
                      "whitespace"}
    case _ => {}
  }

  function Constructors(source: string): map<string, string> {
    match source
    case "collections" => map["Counter" := "counter"]
    case "decimal" => map["Decimal" := "decimal"]
    case "fractions" => map["Fraction" := "fraction"]
    case "random" => map["Random" := "random"]
    case _ => map[]
  }

  const MODULES: map<string, map<string, Member>> :=
    map m | m in MODULE_NAMES :: Table(Callables(m), Constants(m), Constructors(m))

  const INSTANCES: map<string, map<string, Member>> := map["random" := Table(RANDOM_MEMBERS, {}, map[])]

  const BUILTINS := {
    "abs", "all", "any", "bool", "dict", "enumerate", "filter", "float", "frozenset", "int", "len", "list", "map",
    "max", "min", "range", "reversed", "round", "set", "sorted", "str", "sum", "tuple", "zip"}

  function V1(isIdentifier: string -> bool): Language {
    Language(MODULES, INSTANCES, {"task_id", "seed"}, Table({"get"}, {}, map[]), BUILTINS, isIdentifier)
  }

  // ---- Each side condition is needed ----

  /** The part of the tables the drafts below use. */
  ghost predicate HasRandom(lang: Language) {
    && "random" in lang.modules && "random" in lang.instances
    && ExposedMember(lang, Some(Module("random")), "Random") == Some(Member(Callable, Some("random")))
    && ExposedMember(lang, Some(Module("random")), "random") == Some(Member(Callable, None))
    && ExposedMember(lang, Some(Instance("random")), "choice") == Some(Member(Callable, None))
    && "r" !in lang.builtins && "random" !in lang.builtins
    && lang.isIdentifier("r") && lang.isIdentifier("random") && lang.isIdentifier("inputs")
  }

  lemma V1HasRandom(isIdentifier: string -> bool)
    requires isIdentifier("r") && isIdentifier("random") && isIdentifier("inputs")
    ensures HasRandom(V1(isIdentifier))
  {
    RandomEntries();
    NotBuiltin();
    TablesGiveRandom(V1(isIdentifier));
  }

  lemma TablesGiveRandom(lang: Language)
    requires "random" in lang.modules && "random" in lang.instances
    requires LookUp(lang.modules["random"], "Random") == Some(Member(Callable, Some("random")))
    requires LookUp(lang.modules["random"], "random") == Some(Member(Callable, None))
    requires LookUp(lang.instances["random"], "choice") == Some(Member(Callable, None))
    requires "random" !in lang.builtins && "r" !in lang.builtins
    requires lang.isIdentifier("r") && lang.isIdentifier("random") && lang.isIdentifier("inputs")
    ensures HasRandom(lang)
  {
  }

  lemma RandomEntries()
    ensures "random" in MODULES && "random" in INSTANCES
    ensures LookUp(MODULES["random"], "Random") == Some(Member(Callable, Some("random")))
    ensures LookUp(MODULES["random"], "random") == Some(Member(Callable, None))
    ensures LookUp(INSTANCES["random"], "choice") == Some(Member(Callable, None))
  {
    RandomMembers();
    assert MODULES["random"] == Table(RANDOM_MEMBERS, {}, map["Random" := "random"]);
    assert "random" != "Random";
  }

  lemma RandomMembers()
    ensures Callables("random") == RANDOM_MEMBERS && Constants("random") == {}
    ensures Constructors("random") == map["Random" := "random"]
  {
  }

  lemma NotBuiltin()
    ensures "random" !in BUILTINS && "r" !in BUILTINS
  {
    assert forall b | b in BUILTINS :: |b| != 1 && (|b| == 6 ==> b[0] != 'r');
  }

  function Entry(name: string, body: seq<Stmt>): Function {
    Function(name, Arguments(["inputs", "ctx"], true), body, [], [], [])
  }

  const IMPORTS := map["random" := Module("random")]
  const R := Name("r")
  const MAKE_RANDOM := Call(Attribute(Name("random"), "Random"), [], false)
  const CHOICE := Call(Attribute(R, "choice"), [Name("inputs")], false)
  const CHOOSE := Return(Some(CHOICE))

  /** A world in which everything is true, every call raises and no generator is run. */
  function PlainWorld(): World {
    World((t, f, args) => None, (t: Clock, op, vs) => Some(Data(t.tick, vs)),
          (t, v) => Iteration([], true), (t, v) => [], (t, v) => true, t => [])
  }

  /** The last record wins: the other branch ran, and `r` holds plain data. */
  const TWO_BRANCHES := Entry("draft", [
    If(Constant(true), [Assign([R], Constant(true))], [Assign([R], MAKE_RANDOM)]),
    CHOOSE])

  /** Validating `x = e` once `e` has been visited. */
  lemma AssignRecords(s: Scope, x: string, e: Expr, c: Option<Capability>, log: Log)
    requires IsSafeIdentifier(s.lang, x) && x in s.locals
    requires Visit(s, e, log) == Success(log) && CapabilityOf(s, e, log) == Success((c, log))
    ensures VisitStmt(s, Assign([Name(x)], e), 0, log) == Success(log + [Record(x, c)])
  {
    assert AssignTargets(s, [Name(x)], c, log) == AssignTargets(s, [], c, RecordTarget(Name(x), c, log));
  }

  lemma MakeRandomChecks(s: Scope, log: Log)
    requires HasRandom(s.lang) && s.bindings == IMPORTS && "random" !in s.locals && "random" !in Recorded(log)
    ensures Visit(s, MAKE_RANDOM, log) == Success(log)
    ensures CapabilityOf(s, MAKE_RANDOM, log) == Success((Some(Instance("random")), log))
    ensures AttributeMember(s, Name("random"), "Random", log) == Success((Member(Callable, Some("random")), log))
  {
    assert NameCapability(s, "random", log) == Some(Module("random"));
    assert !IsPrivate("Random") && !IsPrivate("random");
    assert CapabilityOf(s, Name("random"), log) == Success((Some(Module("random")), log));
    assert VisitAll(s, [], log) == Success(log);
  }

  lemma ChooseChecks(s: Scope, log: Log)
    requires HasRandom(s.lang) && "r" in s.locals
    requires "r" in Recorded(log) && Recorded(log)["r"] == Some(Instance("random"))
    ensures VisitStmt(s, CHOOSE, 0, log) == Success(log)
  {
    assert !IsPrivate("choice") && !IsPrivate("r") && !IsPrivate("inputs");
    assert CapabilityOf(s, R, log) == Success((Some(Instance("random")), log));
    assert VisitAll(s, [Name("inputs")], log) == VisitAll(s, [], log);
  }

  lemma LocalsOfTwo(a: Stmt, b: Stmt)
    ensures LocalNames(Entry("", [a, b])) == AssignedNames(a) + InnerNames(a) + AssignedNames(b) + InnerNames(b)
  {
    assert [a, b][1..] == [b] && [b][1..] == [];
    assert AssignedNamesOf([b]) == AssignedNames(b);
    assert InnerNamesOf([]) == {};
    assert InnerNamesOf([b]) == InnerNames(b);
  }

  lemma StoresR(e: Expr)
    requires ComprehensionNames(e) == {}
    ensures AssignedNames(Assign([R], e)) == {"r"} && InnerNames(Assign([R], e)) == {}
    ensures AssignedNamesOf([Assign([R], e)]) == {"r"} && InnerNamesOf([Assign([R], e)]) == {}
  {
    assert TargetNames(R) == {"r"};
    assert TargetNames(Display([R])) == {"r"};
  }

  lemma BlockOfOne(s: Scope, a: Stmt, log: Log, log1: Log)
    requires VisitStmt(s, a, 0, log) == Success(log1)
    ensures VisitBlock(s, [a], 0, log) == Success(log1)
  {
  }

  lemma BlockOfTwo(s: Scope, a: Stmt, b: Stmt, log: Log, log1: Log, log2: Log)
    requires VisitStmt(s, a, 0, log) == Success(log1) && VisitStmt(s, b, 0, log1) == Success(log2)
    ensures VisitBlock(s, [a, b], 0, log) == Success(log2)
  {
    assert [a, b][1..] == [b];
    assert VisitBlock(s, [b], 0, log1) == Success(log2);
  }

  const PLAIN := Assign([R], Constant(true))
  const MADE := Assign([R], MAKE_RANDOM)

  lemma BranchLocals()
    ensures AssignedNames(If(Constant(true), [PLAIN], [MADE])) + InnerNames(If(Constant(true), [PLAIN], [MADE])) == {"r"}
  {
    StoresR(Constant(true));
    StoresR(MAKE_RANDOM);
  }

  lemma ChooseStoresNothing()
    ensures AssignedNames(CHOOSE) == {} && InnerNames(CHOOSE) == {}
  {
  }

  lemma TwoBranchesLocals()
    ensures LocalNames(TWO_BRANCHES) == {"r"}
  {
    BranchLocals();
    ChooseStoresNothing();
    LocalsOfTwo(If(Constant(true), [PLAIN], [MADE]), CHOOSE);
  }

  /** Both branches of a conditional are checked in turn, each continuing the same log. */
  lemma BranchAccepted(s: Scope, test: Expr, a: Stmt, b: Stmt, log: Log, log1: Log, log2: Log)
    requires Visit(s, test, log) == Success(log)
    requires VisitStmt(s, a, 0, log) == Success(log1) && VisitStmt(s, b, 0, log1) == Success(log2)
    ensures VisitStmt(s, If(test, [a], [b]), 0, log) == Success(log2)
  {
    BlockOfOne(s, a, log, log1);
    BlockOfOne(s, b, log1, log2);
  }

  const PLAIN_RECORD := Record("r", None)
  const RANDOM_RECORD := Record("r", Some(Instance("random")))

  lemma PlainAccepted(s: Scope)
    requires HasRandom(s.lang) && s.locals == {"r"}
    ensures VisitStmt(s, PLAIN, 0, []) == Success([PLAIN_RECORD])
    ensures Visit(s, Constant(true), []) == Success([])
  {
    var log0: Log := [];
    assert !IsPrivate("r");
    AssignRecords(s, "r", Constant(true), None, log0);
    assert log0 + [PLAIN_RECORD] == [PLAIN_RECORD];
  }

  lemma MadeAccepted(s: Scope)
    requires HasRandom(s.lang) && s.bindings == IMPORTS && s.locals == {"r"}
    ensures VisitStmt(s, MADE, 0, [PLAIN_RECORD]) == Success([PLAIN_RECORD, RANDOM_RECORD])
  {
    var log1 := [PLAIN_RECORD];
    assert !IsPrivate("r");
    assert log1[..0] == [] && Recorded(log1) == Recorded([])["r" := None];
    MakeRandomChecks(s, log1);
    AssignRecords(s, "r", MAKE_RANDOM, Some(Instance("random")), log1);
    assert log1 + [RANDOM_RECORD] == [PLAIN_RECORD, RANDOM_RECORD];
  }

  lemma TwoBranchesAccepted(s: Scope)
    requires HasRandom(s.lang) && s.bindings == IMPORTS && s.locals == {"r"}
    ensures VisitBlock(s, TWO_BRANCHES.body, 0, []) == Success([PLAIN_RECORD, RANDOM_RECORD])
  {
    var log := [PLAIN_RECORD, RANDOM_RECORD];
    PlainAccepted(s);
    MadeAccepted(s);
    BranchAccepted(s, Constant(true), PLAIN, MADE, [], [PLAIN_RECORD], log);
    assert Recorded(log)["r"] == Some(Instance("random"));
    ChooseChecks(s, log);
    BlockOfTwo(s, If(Constant(true), [PLAIN], [MADE]), CHOOSE, [], log, log);
  }

  lemma AssignRuns(p: Program, w: World, x: string, e: Expr, env: Env, t: Clock)
    requires Eval(p, w, e, env, t).Done?
    ensures var r := Eval(p, w, e, env, t);
      && Exec(p, w, Assign([Name(x)], e), env, t) == Done(Flow(env[x := r.value], Next), r.tick)
      && ExecBlock(p, w, [Assign([Name(x)], e)], env, t) == Done(Flow(env[x := r.value], Next), r.tick)
  {
    var r := Eval(p, w, e, env, t);
    assert BindEach(p, w, [Name(x)], r.value, env, r.tick) == BindEach(p, w, [], r.value, env[x := r.value], r.tick);
    assert Exec(p, w, Assign([Name(x)], e), env, t) == Done(Flow(env[x := r.value], Next), r.tick);
  }

  /** `CHOOSE` misses when `r` holds something without a `choice`. */
  lemma ChooseMisses(p: Program, w: World, env: Env, t: Clock)
    requires "r" in env && !Exposes(p.scope.lang, env["r"], "choice")
    ensures Exec(p, w, CHOOSE, env, t).Missing? && Eval(p, w, CHOICE, env, t).Missing?
  {
    assert Eval(p, w, R, env, t) == Done(env["r"], t);
    assert Eval(p, w, Attribute(R, "choice"), env, t).Missing?;
  }

  lemma TwoBranchesMisses(p: Program)
    ensures ExecBlock(p, PlainWorld(), TWO_BRANCHES.body, InitialEnv(), START).Missing?
  {
    var w, env := PlainWorld(), InitialEnv()["r" := Data(2, [])];
    AssignRuns(p, w, "r", Constant(true), InitialEnv(), Clock(2, []));
    assert PLAIN == Assign([Name("r")], Constant(true));
    assert Exec(p, w, If(Constant(true), [PLAIN], [MADE]), InitialEnv(), START) == Done(Flow(env, Next), Clock(3, []));
    ChooseMisses(p, w, env, Clock(3, []));
  }

  /** The one-name constructor read without a call: `r` holds `random.Random` itself. */
  const BARE := Entry("draft", [Assign([R], Attribute(Name("random"), "Random")), CHOOSE])

  lemma BareAccepted(s: Scope)
    requires HasRandom(s.lang) && s.bindings == IMPORTS && s.locals == {"r"}
    ensures VisitBlock(s, BARE.body, 0, []) == Success([RANDOM_RECORD])
  {
    var log0: Log := [];
    var read := Attribute(Name("random"), "Random");
    assert !IsPrivate("r") && !IsPrivate("random");
    MakeRandomChecks(s, log0);
    assert Visit(s, read, log0) == Success(log0);
    AssignRecords(s, "r", read, Some(Instance("random")), log0);
    assert log0 + [RANDOM_RECORD] == [RANDOM_RECORD];
    ChooseChecks(s, [RANDOM_RECORD]);
    BlockOfTwo(s, Assign([R], read), CHOOSE, [], [RANDOM_RECORD], [RANDOM_RECORD]);
  }

  lemma BareLocals()
    ensures LocalNames(BARE) == {"r"} && AssignedNamesOf(BARE.body) == {"r"}
  {
    var first := Assign([R], Attribute(Name("random"), "Random"));
    StoresR(first.value);
    LocalsOfTwo(first, CHOOSE);
    assert [first, CHOOSE][1..] == [CHOOSE] && AssignedNamesOf([CHOOSE]) == {};
  }

  /** The class itself has `choice`, so the read finds it and only the call can fail. */
  lemma BareReadsMember(p: Program, w: World)
    requires HasRandom(p.scope.lang) && p.scope.bindings == IMPORTS && "random" !in p.frameNames && p.entrypoint == "draft"
    requires p.place.Body?
    ensures var made := MemberOf(Module("random"), "Random");
      && Eval(p, w, Attribute(Name("random"), "Random"), InitialEnv(), START) == Done(made, START)
      && Eval(p, w, Attribute(R, "choice"), InitialEnv()["r" := made], START)
         == Done(MemberOf(Instance("random"), "choice"), START)
  {
    var read := Attribute(Name("random"), "Random");
    var made := MemberOf(Module("random"), "Random");
    assert Eval(p, w, Name("random"), InitialEnv(), START) == Done(Facade(Module("random"), 0), START);
    assert Eval(p, w, R, InitialEnv()["r" := made], START) == Done(made, START);
    assert Apparent(p.scope.lang, made) == Some(Instance("random"));
  }

  /** The definition replaces the import of its own name. */
  const SHADOWED := Entry("random", [Return(Some(Call(Attribute(Name("random"), "random"), [], false)))])

  lemma ShadowedAccepted(s: Scope)
    requires HasRandom(s.lang) && s.bindings == IMPORTS && s.locals == {}
    ensures VisitBlock(s, SHADOWED.body, 0, []) == Success([])
  {
    var log0: Log := [];
    assert !IsPrivate("random");
    assert CapabilityOf(s, Name("random"), log0) == Success((Some(Module("random")), log0));
    assert AttributeMember(s, Name("random"), "random", log0) == Success((Member(Callable, None), log0));
    assert CallMember(s, Attribute(Name("random"), "random"), log0) == Success((Member(Callable, None), log0));
    BlockOfOne(s, SHADOWED.body[0], log0, log0);
  }

  lemma ShadowedMisses(p: Program, w: World)
    requires "random" !in p.frameNames && p.entrypoint == "random" && p.place.Body?
    ensures ExecBlock(p, w, SHADOWED.body, InitialEnv(), START).Missing?
  {
    assert Eval(p, w, Name("random"), InitialEnv(), START) == Done(EntrypointV, START);
    assert Eval(p, w, Attribute(Name("random"), "random"), InitialEnv(), START).Missing?;
    assert Exec(p, w, SHADOWED.body[0], InitialEnv(), START).Missing?;
  }

  /** A draft that is accepted and misses a member in a faithful world, and which of the conditions it meets. */
  ghost predicate Unsound(s: Scope, f: Function, w: World, nesting: nat, settled: bool, lasting: bool, freshName: bool) {
    && ValidateFunction(s, f).Success?
    && (BlockSettled(s, SkipDocstring(f.body), 0, []) <==> settled)
    && (BlockLasts(s, ValidateFunction(s, f).value, SkipDocstring(f.body), 0, []) <==> lasting)
    && (f.name !in s.bindings <==> freshName)
    && Faithful(s.lang, w) && Run(s, f, w, nesting).Missing?
  }

  // ---- Drafts without generator expressions ----

  /** None of the fragments is a generator expression. */
  ghost predicate NoneLazy(parts: set<Fragment>) {
    forall x | x in parts :: !IsLazy(x)
  }

  lemma NameCallParts(value: string, attr: string, args: seq<Expr>)
    requires NoneLazy(PartsOf(args))
    ensures NoneLazy(Parts(Call(Attribute(Name(value), attr), args, false)))
  {
    assert NoneLazy(Parts(Name(value)));
    assert NoneLazy(Parts(Attribute(Name(value), attr)));
  }

  lemma PlainParts()
    ensures NoneLazy(Parts(Constant(true))) && NoneLazy(Parts(MAKE_RANDOM)) && NoneLazy(Parts(CHOICE))
    ensures NoneLazy(StmtParts(CHOOSE))
  {
    hide Parts, IsLazy;
    assert NoneLazy(PartsOf([Name("inputs")])) && NoneLazy(PartsOf([])) && NoneLazy(Parts(Constant(true))) by {
      OneNameParts();
    }
    NameCallParts("random", "Random", []);
    NameCallParts("r", "choice", [Name("inputs")]);
  }

  lemma OneNameParts()
    ensures NoneLazy(PartsOf([Name("inputs")])) && NoneLazy(PartsOf([])) && NoneLazy(Parts(Constant(true)))
  {
    assert PartsOf([Name("inputs")]) == Parts(Name("inputs"));
  }

  lemma TwoBranchesValidates(s: Scope)
    requires HasRandom(s.lang) && s.bindings == IMPORTS && s.locals == {"r"}
    ensures ValidateFunction(s, TWO_BRANCHES) == Success([PLAIN_RECORD, RANDOM_RECORD])
  {
    TwoBranchesAccepted(s);
  }

  lemma LastRecords()
    ensures Recorded([PLAIN_RECORD]) == map["r" := None]
    ensures Recorded([PLAIN_RECORD, RANDOM_RECORD]) == map["r" := Some(Instance("random"))]
  {
    assert [PLAIN_RECORD][..0] == [] && [PLAIN_RECORD, RANDOM_RECORD][..1] == [PLAIN_RECORD];
  }

  /** A run of the first branch skips the record of the second. */
  lemma TwoBranchesUnsettled(s: Scope)
    requires HasRandom(s.lang) && s.bindings == IMPORTS && s.locals == {"r"}
    requires VisitBlock(s, TWO_BRANCHES.body, 0, []).Success?
    ensures !BlockSettled(s, TWO_BRANCHES.body, 0, [])
  {
    PlainAccepted(s);
    MadeAccepted(s);
    BlockOfOne(s, PLAIN, [], [PLAIN_RECORD]);
    BlockOfOne(s, MADE, [PLAIN_RECORD], [PLAIN_RECORD, RANDOM_RECORD]);
    LastRecords();
    assert !Skips([PLAIN_RECORD], [PLAIN_RECORD, RANDOM_RECORD]) by { assert "r" in Recorded([PLAIN_RECORD]); }
    assert !StmtSettled(s, If(Constant(true), [PLAIN], [MADE]), 0, []);
  }

  lemma OneLasts(s: Scope, whole: Log, a: Stmt, log: Log)
    requires VisitStmt(s, a, 0, log).Success? && StmtLasts(s, whole, a, 0, log)
    ensures VisitBlock(s, [a], 0, log).Success? && BlockLasts(s, whole, [a], 0, log)
  {
  }

  lemma TwoBranchesLasts(s: Scope, whole: Log)
    requires HasRandom(s.lang) && s.bindings == IMPORTS && s.locals == {"r"}
    requires VisitBlock(s, TWO_BRANCHES.body, 0, []).Success?
    ensures BlockLasts(s, whole, TWO_BRANCHES.body, 0, [])
  {
    var branch, log := If(Constant(true), [PLAIN], [MADE]), [PLAIN_RECORD, RANDOM_RECORD];
    PlainParts();
    PlainAccepted(s);
    MadeAccepted(s);
    OneLasts(s, whole, PLAIN, []);
    OneLasts(s, whole, MADE, [PLAIN_RECORD]);
    BranchAccepted(s, Constant(true), PLAIN, MADE, [], [PLAIN_RECORD], log);
    assert StmtLasts(s, whole, branch, 0, []);
    LastRecords();
    ChooseChecks(s, log);
    OneLasts(s, whole, CHOOSE, log);
    assert TWO_BRANCHES.body[1..] == [CHOOSE];
  }

  lemma SettlingNeeded(lang: Language, nesting: nat)
    requires HasRandom(lang)
    ensures Unsound(ScopeOf(lang, IMPORTS, TWO_BRANCHES), TWO_BRANCHES, PlainWorld(), nesting, false, true, true)
  {
    hide BlockSettled, BlockLasts;
    var s := ScopeOf(lang, IMPORTS, TWO_BRANCHES);
    TwoBranchesLocals();
    TwoBranchesValidates(s);
    TwoBranchesUnsettled(s);
    TwoBranchesLasts(s, [PLAIN_RECORD, RANDOM_RECORD]);
    TwoBranchesMisses(ProgramOf(s, TWO_BRANCHES, nesting));
  }

  lemma BareValidates(s: Scope)
    requires HasRandom(s.lang) && s.bindings == IMPORTS && s.locals == {"r"}
    ensures ValidateFunction(s, BARE) == Success([RANDOM_RECORD])
  {
    BareAccepted(s);
  }

  lemma OneRecordIsConsistent()
    ensures Consistent([RANDOM_RECORD]) && Consistent([])
  {
  }

  /** Reading `random.Random` without calling it is accepted and safe: in no world is a member missed. */
  lemma BareConstructorIsSafe(lang: Language, w: World, nesting: nat)
    requires HasRandom(lang) && Faithful(lang, w)
    ensures var s := ScopeOf(lang, IMPORTS, BARE);
      ValidateFunction(s, BARE) == Success([RANDOM_RECORD]) && !Run(s, BARE, w, nesting).Missing?
  {
    hide BlockSettled, BlockLasts, Run;
    var s := ScopeOf(lang, IMPORTS, BARE);
    BareLocals();
    BareValidates(s);
    OneRecordIsConsistent();
    ConsistentBlock(s, SkipDocstring(BARE.body), 0, [], [RANDOM_RECORD]);
    CapabilitySoundness(lang, IMPORTS, BARE, w, nesting);
  }

  // ---- Storing a name again in straight-line code ----

  /** `r` makes choices first and then what it chose. */
  const RESTORED := Entry("draft", [Assign([R], MAKE_RANDOM), Assign([R], CHOICE)])

  lemma RestoredLocals()
    ensures LocalNames(RESTORED) == {"r"}
  {
    StoresR(MAKE_RANDOM);
    StoresR(CHOICE);
    LocalsOfTwo(MADE, Assign([R], CHOICE));
  }

  lemma ChoiceChecks(s: Scope, log: Log)
    requires HasRandom(s.lang) && "r" in s.locals
    requires "r" in Recorded(log) && Recorded(log)["r"] == Some(Instance("random"))
    ensures Visit(s, CHOICE, log) == Success(log) && CapabilityOf(s, CHOICE, log) == Success((None, log))
  {
    ChooseChecks(s, log);
    assert AttributeMember(s, R, "choice", log) == Success((Member(Callable, None), log));
  }

  /** How the second statement is recorded. */
  lemma RestoredAccepted(s: Scope)
    requires HasRandom(s.lang) && s.bindings == IMPORTS && s.locals == {"r"}
    ensures VisitStmt(s, MADE, 0, []) == Success([RANDOM_RECORD])
    ensures VisitStmt(s, Assign([R], CHOICE), 0, [RANDOM_RECORD]) == Success([RANDOM_RECORD, PLAIN_RECORD])
  {
    var log0: Log := [];
    assert !IsPrivate("r");
    MakeRandomChecks(s, log0);
    AssignRecords(s, "r", MAKE_RANDOM, Some(Instance("random")), log0);
    assert log0 + [RANDOM_RECORD] == [RANDOM_RECORD];
    assert [RANDOM_RECORD][..0] == [] && "r" in Recorded([RANDOM_RECORD]);
    ChoiceChecks(s, [RANDOM_RECORD]);
    AssignRecords(s, "r", CHOICE, None, [RANDOM_RECORD]);
    assert [RANDOM_RECORD] + [PLAIN_RECORD] == [RANDOM_RECORD, PLAIN_RECORD];
  }

  lemma NothingRecordedSettles(log: Log)
    requires Consistent(log)
    ensures Settled(log, log)
  {
    ConsistentStretch(log, log, log);
  }

  lemma RestoredSettled(s: Scope)
    requires HasRandom(s.lang) && s.bindings == IMPORTS && s.locals == {"r"}
    requires VisitBlock(s, RESTORED.body, 0, []).Success?
    ensures BlockSettled(s, RESTORED.body, 0, [])
  {
    hide Settled;
    var second := Assign([R], CHOICE);
    RestoredAccepted(s);
    OneRecordIsConsistent();
    NothingRecordedSettles([]);
    NothingRecordedSettles([RANDOM_RECORD]);
    MakeRandomChecks(s, []);
    assert [RANDOM_RECORD][..0] == [] && "r" in Recorded([RANDOM_RECORD]);
    ChoiceChecks(s, [RANDOM_RECORD]);
    assert StmtSettled(s, MADE, 0, []);
    assert StmtSettled(s, second, 0, [RANDOM_RECORD]);
    assert [MADE, second][1..] == [second] && [second][1..] == [];
    assert BlockSettled(s, [second], 0, [RANDOM_RECORD]);
  }

  lemma RestoredLasts(s: Scope, whole: Log)
    requires HasRandom(s.lang) && s.bindings == IMPORTS && s.locals == {"r"}
    requires VisitBlock(s, RESTORED.body, 0, []).Success?
    ensures BlockLasts(s, whole, RESTORED.body, 0, [])
  {
    PlainParts();
    RestoredAccepted(s);
    assert StmtLasts(s, whole, MADE, 0, []);
    OneLasts(s, whole, Assign([R], CHOICE), [RANDOM_RECORD]);
    assert RESTORED.body[1..] == [Assign([R], CHOICE)];
  }

  lemma RestoredValidates(s: Scope)
    requires HasRandom(s.lang) && s.bindings == IMPORTS && s.locals == {"r"}
    ensures ValidateFunction(s, RESTORED) == Success([RANDOM_RECORD, PLAIN_RECORD])
    ensures SkipDocstring(RESTORED.body) == RESTORED.body
    ensures VisitBlock(s, RESTORED.body, 0, []) == Success([RANDOM_RECORD, PLAIN_RECORD])
  {
    hide VisitStmt;
    RestoredAccepted(s);
    BlockOfTwo(s, MADE, Assign([R], CHOICE), [], [RANDOM_RECORD], [RANDOM_RECORD, PLAIN_RECORD]);
  }

  lemma RestoredInconsistent()
    ensures !Consistent([RANDOM_RECORD, PLAIN_RECORD])
  {
    assert [RANDOM_RECORD, PLAIN_RECORD][0].name == [RANDOM_RECORD, PLAIN_RECORD][1].name;
  }

  /** The name has two capabilities one after the other, and the draft is safe. */
  lemma RestoringIsSafe(lang: Language, w: World, nesting: nat)
    requires HasRandom(lang) && Faithful(lang, w)
    ensures var s := ScopeOf(lang, IMPORTS, RESTORED);
      && ValidateFunction(s, RESTORED) == Success([RANDOM_RECORD, PLAIN_RECORD])
      && !Consistent([RANDOM_RECORD, PLAIN_RECORD]) && !Run(s, RESTORED, w, nesting).Missing?
  {
    hide BlockSettled, BlockLasts, Run, HasRandom, ValidateFunction, Consistent, Faithful;
    var s := ScopeOf(lang, IMPORTS, RESTORED);
    RestoredLocals();
    RestoredValidates(s);
    RestoredSettled(s);
    RestoredLasts(s, [RANDOM_RECORD, PLAIN_RECORD]);
    RestoredInconsistent();
    CapabilitySoundness(lang, IMPORTS, RESTORED, w, nesting);
  }

  // ---- An entrypoint named like an import ----

  lemma ShadowedValidates(s: Scope)
    requires HasRandom(s.lang) && s.bindings == IMPORTS && s.locals == {}
    ensures ValidateFunction(s, SHADOWED) == Success([])
  {
    ShadowedAccepted(s);
  }

  lemma FreshNameNeeded(lang: Language, nesting: nat)
    requires HasRandom(lang)
    ensures Unsound(ScopeOf(lang, IMPORTS, SHADOWED), SHADOWED, PlainWorld(), nesting, true, true, false)
  {
    hide BlockSettled, BlockLasts, HasRandom, SignatureAllowed;
    var s := ScopeOf(lang, IMPORTS, SHADOWED);
    ShadowedValidates(s);
    OneRecordIsConsistent();
    ConsistentBlock(s, SkipDocstring(SHADOWED.body), 0, [], []);
    ShadowedMisses(ProgramOf(s, SHADOWED, nesting), PlainWorld());
  }
}
