/**
 * The project-context ledger (migration 19), the report ledger (migrations 20 and 21) and the
 * artifact registry (migration 10), under arbitrary single-row INSERT, UPDATE and DELETE statements.
 */
module TaskLedgers {
  import opened Prelude
  import opened Ledger

  datatype Context = Context(operationHash: string, contentHash: string)

  datatype Output = Output(artifact: string, hash: string)

  /** Columns of a published report; the DOCX pair is null in rows older than migration 21. */
  datatype Outputs = Outputs(
    strategy: Option<string>, version: Option<string>,
    json: Output, markdown: Output, xlsx: Output, docx: Option<string>, docxHash: Option<string>)

  datatype Artifact = Artifact(id: Option<string>, task: string, kind: string, path: string, hash: string, origin: string)

  /** `docxGoverned` says that migration 21 has rebuilt the artifact triggers. */
  datatype State = State(
    tasks: set<string>, contexts: Table<Context>, reports: Table<Outputs>, artifacts: set<Artifact>, docxGoverned: bool)

  datatype Write =
    | InsertTask(task: string)
    | RenameTask(task: string, renamed: string)
    | DeleteTask(task: string)
    | OnContexts(context: Statement<Context>)
    | OnReports(report: Statement<Outputs>)
    | InsertArtifact(artifact: Artifact)
    | UpdateArtifact(artifact: Artifact, replacement: Artifact)
    | DeleteArtifact(artifact: Artifact)
    | GovernDocx

  const ORIGIN := "strategy.build_report_bundle_v2"
  const DRAFT_SCOPE := "task-draft"
  const STRATEGY_SCOPE := "strategy:"

  // ---- Guards ----

  function Coalesce(id: Option<string>): string {
    if id.Some? then id.value else ""
  }

  predicate ContextGuard(t: Table<Context>, s: Statement<Context>) {
    match s
    case InsertHead(h) => h.scope == ""
    case InsertRevision(r) =>
      && r.key.scope == "" && IsHash(r.payload.operationHash) && IsHash(r.payload.contentHash)
      && (forall q | q in t.revisions ::
            !(q.key.task == r.key.task && Coalesce(q.parent) == Coalesce(r.parent)
              && q.payload.operationHash == r.payload.operationHash))
    case _ => true
  }

  predicate ScopeMatches(scope: string, strategy: Option<string>) {
    scope == if strategy.Some? then STRATEGY_SCOPE + strategy.value else DRAFT_SCOPE
  }

  predicate IsScope(scope: string) {
    scope == DRAFT_SCOPE || STRATEGY_SCOPE <= scope
  }

  predicate Present(artifacts: set<Artifact>, task: string, kind: string, o: Output) {
    exists a | a in artifacts ::
      a.id == Some(o.artifact) && a.task == task && a.kind == kind && a.hash == o.hash && a.origin == ORIGIN
  }

  predicate TextOutputsPresent(artifacts: set<Artifact>, task: string, p: Outputs) {
    && Present(artifacts, task, "strategy_report_bundle_json", p.json)
    && Present(artifacts, task, "strategy_report_markdown", p.markdown)
    && Present(artifacts, task, "strategy_report_xlsx", p.xlsx)
  }

  predicate DocxPresent(artifacts: set<Artifact>, task: string, p: Outputs) {
    && p.docx.Some? && p.docxHash.Some?
    && Present(artifacts, task, "strategy_report_docx", Output(p.docx.value, p.docxHash.value))
  }

  /** Before migration 21 the DOCX columns do not exist; afterwards the rebuilt trigger requires them. */
  predicate OutputsAllowed(s: State, r: Revision<Outputs>) {
    && TextOutputsPresent(s.artifacts, r.key.task, r.payload)
    && if s.docxGoverned then DocxPresent(s.artifacts, r.key.task, r.payload)
       else r.payload.docx.None? && r.payload.docxHash.None?
  }

  predicate ReportGuard(s: State, w: Statement<Outputs>) {
    match w
    case InsertHead(h) => h.task.Some? && IsScope(h.scope)
    case InsertRevision(r) =>
      && (r.payload.strategy.Some? <==> r.payload.version.Some?)
      && ScopeMatches(r.key.scope, r.payload.strategy)
      && IsHash(r.payload.json.hash) && IsHash(r.payload.markdown.hash) && IsHash(r.payload.xlsx.hash)
      && NullOrHash(r.payload.docxHash)
      && OutputsAllowed(s, r)
    case _ => true
  }

  predicate Uses(p: Outputs, id: string) {
    p.json.artifact == id || p.markdown.artifact == id || p.xlsx.artifact == id || p.docx == Some(id)
  }

  predicate Referenced(s: State, a: Artifact) {
    a.id.Some? && exists r | r in s.reports.revisions :: Uses(r.payload, a.id.value)
  }

  predicate ArtifactAllowed(s: State, a: Artifact) {
    && IsHash(a.hash) && a.task in s.tasks
    && (forall b | b in s.artifacts ::
          !SameText(a.id, b.id) && !(a.task == b.task && a.kind == b.kind && a.path == b.path))
  }

  predicate TaskMentioned(s: State, task: string) {
    Mentions(s.contexts, task) || Mentions(s.reports, task) || exists a | a in s.artifacts :: a.task == task
  }

  // ---- Statements ----

  /** The database after one statement, or None if SQLite aborts it. */
  function Apply(s: State, w: Write): Option<State> {
    match w
    case InsertTask(t) => if t in s.tasks then None else Some(s.(tasks := s.tasks + {t}))
    case RenameTask(t, t') =>
      if t !in s.tasks || t == t' then Some(s)
      else if t' in s.tasks || TaskMentioned(s, t) then None
      else Some(s.(tasks := s.tasks - {t} + {t'}))
    case DeleteTask(t) =>
      Some(State(s.tasks - {t}, Cascade(s.contexts, t), Cascade(s.reports, t),
                 (set a | a in s.artifacts && a.task != t), s.docxGoverned))
    case OnContexts(c) =>
      if !ContextGuard(s.contexts, c) then None
      else (match Execute(s.contexts, s.tasks, true, c) case Some(t) => Some(s.(contexts := t)) case None => None)
    case OnReports(c) =>
      if !ReportGuard(s, c) then None
      else (match Execute(s.reports, s.tasks, false, c) case Some(t) => Some(s.(reports := t)) case None => None)
    case InsertArtifact(a) => if ArtifactAllowed(s, a) then Some(s.(artifacts := s.artifacts + {a})) else None
    case UpdateArtifact(a, _) => if a in s.artifacts then None else Some(s)
    case DeleteArtifact(a) =>
      if a !in s.artifacts then Some(s)
      else if Referenced(s, a) then None
      else Some(s.(artifacts := s.artifacts - {a}))
    case GovernDocx => Some(s.(docxGoverned := true))
  }

  /** An aborted statement leaves the database as it was. */
  function Step(s: State, w: Write): State {
    match Apply(s, w) case Some(s') => s' case None => s
  }

  function Run(s: State, ws: seq<Write>): State
    decreases |ws|
  {
    if ws == [] then s else Run(Step(s, ws[0]), ws[1..])
  }

  const EMPTY := State({}, Table({}, {}), Table({}, {}), {}, false)

  // ---- The invariant ----

  /** A published report's outputs are in the registry: always three, and DOCX unless both its columns are null. */
  ghost predicate Published(artifacts: set<Artifact>, r: Revision<Outputs>) {
    && TextOutputsPresent(artifacts, r.key.task, r.payload)
    && ((r.payload.docx.None? && r.payload.docxHash.None?) || DocxPresent(artifacts, r.key.task, r.payload))
  }

  ghost predicate AllPublished(artifacts: set<Artifact>, t: Table<Outputs>) {
    forall r | r in t.revisions :: Published(artifacts, r)
  }

  ghost predicate Registry(artifacts: set<Artifact>, tasks: set<string>) {
    && (forall a | a in artifacts :: a.task in tasks)
    && (forall a, b | a in artifacts && b in artifacts && a != b :: !SameText(a.id, b.id))
  }

  ghost predicate Valid(s: State) {
    && Sound(s.contexts, s.tasks, true) && Sound(s.reports, s.tasks, false)
    && Registry(s.artifacts, s.tasks) && AllPublished(s.artifacts, s.reports)
  }

  lemma PublishedGrows(artifacts: set<Artifact>, artifacts': set<Artifact>, r: Revision<Outputs>)
    requires Published(artifacts, r)
    requires forall a | a in artifacts && a !in artifacts' :: a.task != r.key.task || a.id.None? || !Uses(r.payload, a.id.value)
    ensures Published(artifacts', r)
  {
  }

  lemma AllPublishedGrows(artifacts: set<Artifact>, artifacts': set<Artifact>, t: Table<Outputs>)
    requires AllPublished(artifacts, t) && artifacts <= artifacts'
    ensures AllPublished(artifacts', t)
  {
    forall r | r in t.revisions ensures Published(artifacts', r) { PublishedGrows(artifacts, artifacts', r); }
  }

  /** Renaming or adding tasks that no row mentions leaves a ledger sound. */
  lemma TasksChange<P>(t: Table<P>, tasks: set<string>, tasks': set<string>, hashed: bool)
    requires Sound(t, tasks, hashed) && forall k | k in tasks && k !in tasks' :: !Mentions(t, k)
    ensures Sound(t, tasks', hashed)
  {
    forall r | r in t.revisions ensures r.key.task in tasks' { assert Linked(t, hashed, r); }
    forall h | h in t.heads ensures h.task.Some? ==> h.task.value in tasks' { assert Anchored(t, h); }
  }

  lemma DeleteTaskKeepsValid(s: State, task: string)
    requires Valid(s)
    ensures Valid(Step(s, DeleteTask(task)))
  {
    var s' := Step(s, DeleteTask(task));
    CascadeKeepsSound(s.contexts, s.tasks, true, task);
    CascadeKeepsSound(s.reports, s.tasks, false, task);
    forall r | r in s'.reports.revisions ensures Published(s'.artifacts, r) { PublishedGrows(s.artifacts, s'.artifacts, r); }
  }

  lemma ReportKeepsPublished(s: State, c: Statement<Outputs>)
    requires AllPublished(s.artifacts, s.reports) && Apply(s, OnReports(c)).Some?
    ensures AllPublished(s.artifacts, Step(s, OnReports(c)).reports)
  {
  }

  lemma DeleteArtifactKeepsPublished(s: State, a: Artifact)
    requires AllPublished(s.artifacts, s.reports) && Apply(s, DeleteArtifact(a)).Some?
    ensures AllPublished(Step(s, DeleteArtifact(a)).artifacts, s.reports)
  {
    var s' := Step(s, DeleteArtifact(a));
    forall r | r in s.reports.revisions ensures Published(s'.artifacts, r) { PublishedGrows(s.artifacts, s'.artifacts, r); }
  }

  /** Every statement SQLite lets through keeps both chains and every published report intact. */
  lemma StepKeepsValid(s: State, w: Write)
    requires Valid(s)
    ensures Valid(Step(s, w))
  {
    if Apply(s, w).Some? {
      match w
      case InsertTask(t) => TasksChange(s.contexts, s.tasks, s.tasks + {t}, true); TasksChange(s.reports, s.tasks, s.tasks + {t}, false);
      case RenameTask(t, t') =>
        if t in s.tasks && t != t' {
          TasksChange(s.contexts, s.tasks, s.tasks - {t} + {t'}, true);
          TasksChange(s.reports, s.tasks, s.tasks - {t} + {t'}, false);
        }
      case DeleteTask(t) => DeleteTaskKeepsValid(s, t);
      case OnContexts(c) => ExecuteKeepsSound(s.contexts, s.tasks, true, c);
      case OnReports(c) => ExecuteKeepsSound(s.reports, s.tasks, false, c); ReportKeepsPublished(s, c);
      case InsertArtifact(a) => AllPublishedGrows(s.artifacts, s.artifacts + {a}, s.reports);
      case DeleteArtifact(a) => DeleteArtifactKeepsPublished(s, a);
      case _ =>
    }
  }

  lemma {:induction false} RunKeepsValid(s: State, ws: seq<Write>)
    requires Valid(s)
    ensures Valid(Run(s, ws))
    decreases |ws|
  {
    if ws != [] { StepKeepsValid(s, ws[0]); RunKeepsValid(Step(s, ws[0]), ws[1..]); }
  }

  lemma EmptyIsValid()
    ensures Valid(EMPTY)
  {
  }

  // ---- What every run guarantees ----

  /**
   * In every reachable database the context revisions of a task are numbered exactly 1..k with k the head's
   * number or one more, and the head names revision `number` with its exact id and state hash.
   */
  lemma ContextLedgerInEveryRun(ws: seq<Write>, h: Head, key: Key, n: int)
    requires h in Run(EMPTY, ws).contexts.heads && HeadOf(h, key)
    ensures var t := Run(EMPTY, ws).contexts;
      && (Holds(t, key, n) <==> 1 <= n <= LastNumber(t, h, key))
      && (h.number > 0 ==> Holds(t, key, h.number) && h.id.Some? && h.id == RevisionAt(t, key, h.number).id
                           && h.hash == Some(RevisionAt(t, key, h.number).hash))
  {
    var s := Run(EMPTY, ws);
    EmptyIsValid();
    RunKeepsValid(EMPTY, ws);
    NumbersExact(s.contexts, s.tasks, true, h, key, n);
    if h.number > 0 { HeadExact(s.contexts, s.tasks, true, h, key); }
  }

  /** In every reachable database a context revision records the id and state hash of its predecessor. */
  lemma ContextParentInEveryRun(ws: seq<Write>, r: Revision<Context>)
    requires r in Run(EMPTY, ws).contexts.revisions
    ensures r.number == 1 ==> r.parent.None? && r.parentHash.None?
    ensures var t := Run(EMPTY, ws).contexts;
      r.number > 1 ==> Holds(t, r.key, r.number - 1) && r.parent.Some?
                       && r.parent == RevisionAt(t, r.key, r.number - 1).id
                       && r.parentHash == Some(RevisionAt(t, r.key, r.number - 1).hash)
  {
    var s := Run(EMPTY, ws);
    EmptyIsValid();
    RunKeepsValid(EMPTY, ws);
    assert Linked(s.contexts, true, r);
    ParentExact(s.contexts, s.tasks, true, r);
  }

  /** The same numbering and head for reports, per task and scope. */
  lemma ReportLedgerInEveryRun(ws: seq<Write>, h: Head, key: Key, n: int)
    requires h in Run(EMPTY, ws).reports.heads && HeadOf(h, key)
    ensures var t := Run(EMPTY, ws).reports;
      && (Holds(t, key, n) <==> 1 <= n <= LastNumber(t, h, key))
      && (h.number > 0 ==> Holds(t, key, h.number) && h.id.Some? && h.id == RevisionAt(t, key, h.number).id
                           && h.hash == Some(RevisionAt(t, key, h.number).hash))
  {
    var s := Run(EMPTY, ws);
    EmptyIsValid();
    RunKeepsValid(EMPTY, ws);
    NumbersExact(s.reports, s.tasks, false, h, key, n);
    if h.number > 0 { HeadExact(s.reports, s.tasks, false, h, key); }
  }

  /** In every reachable database a report revision records the id of its predecessor. */
  lemma ReportParentInEveryRun(ws: seq<Write>, r: Revision<Outputs>)
    requires r in Run(EMPTY, ws).reports.revisions
    ensures r.number == 1 ==> r.parent.None?
    ensures var t := Run(EMPTY, ws).reports;
      r.number > 1 ==> Holds(t, r.key, r.number - 1) && r.parent.Some?
                       && r.parent == RevisionAt(t, r.key, r.number - 1).id
  {
    var s := Run(EMPTY, ws);
    EmptyIsValid();
    RunKeepsValid(EMPTY, ws);
    ParentExact(s.reports, s.tasks, false, r);
  }

  predicate Spares(ws: seq<Write>, task: string) {
    forall w | w in ws :: w != DeleteTask(task)
  }

  lemma SparesTail(ws: seq<Write>, task: string)
    requires Spares(ws, task) && ws != []
    ensures ws[0] != DeleteTask(task) && Spares(ws[1..], task)
  {
    assert ws[0] in ws;
    forall w | w in ws[1..] ensures w != DeleteTask(task) { assert w in ws; }
  }

  predicate Owned(s: State, key: Key) {
    HasHead(s.contexts, key) || HasHead(s.reports, key)
  }

  predicate HasHead<P(==)>(t: Table<P>, key: Key) {
    exists h | h in t.heads :: HeadOf(h, key)
  }

  /** A task with a head exists. */
  lemma OwnerExists<P>(t: Table<P>, tasks: set<string>, hashed: bool, key: Key)
    requires Sound(t, tasks, hashed) && HasHead(t, key)
    ensures key.task in tasks
  {
    var h :| h in t.heads && HeadOf(h, key);
    assert Anchored(t, h);
  }

  lemma StepExtends(s: State, w: Write, key: Key)
    requires key.task in s.tasks && w != DeleteTask(key.task)
    ensures var s' := Step(s, w); Extends(s.contexts, s'.contexts, key) && Extends(s.reports, s'.reports, key)
  {
    ExtendsItself(s.contexts, key);
    ExtendsItself(s.reports, key);
    if Apply(s, w).Some? {
      match w
      case DeleteTask(t) => CascadeExtends(s.contexts, t, key); CascadeExtends(s.reports, t, key);
      case OnContexts(c) => ExecuteExtends(s.contexts, s.tasks, true, c, key);
      case OnReports(c) => ExecuteExtends(s.reports, s.tasks, false, c, key);
      case _ =>
    }
  }

  lemma HeadStays<P>(t: Table<P>, t': Table<P>, key: Key)
    requires HasHead(t, key) && Extends(t, t', key)
    ensures HasHead(t', key)
  {
    var h :| h in t.heads && HeadOf(h, key);
    assert HeadReaches(t', key, h.number);
  }

  lemma StepKeepsOwner(s: State, w: Write, key: Key)
    requires Valid(s) && Owned(s, key) && w != DeleteTask(key.task)
    ensures var s' := Step(s, w); Owned(s', key) && Extends(s.contexts, s'.contexts, key) && Extends(s.reports, s'.reports, key)
  {
    if HasHead(s.contexts, key) { OwnerExists(s.contexts, s.tasks, true, key); }
    if HasHead(s.reports, key) { OwnerExists(s.reports, s.tasks, false, key); }
    StepExtends(s, w, key);
    if HasHead(s.contexts, key) { HeadStays(s.contexts, Step(s, w).contexts, key); }
    if HasHead(s.reports, key) { HeadStays(s.reports, Step(s, w).reports, key); }
  }

  lemma {:induction false} RunExtends(s: State, ws: seq<Write>, key: Key)
    requires Valid(s) && Spares(ws, key.task) && Owned(s, key)
    ensures var s' := Run(s, ws); Extends(s.contexts, s'.contexts, key) && Extends(s.reports, s'.reports, key)
    decreases |ws|
  {
    if ws == [] {
      ExtendsItself(s.contexts, key);
      ExtendsItself(s.reports, key);
    } else {
      var s' := Step(s, ws[0]);
      assert Spares(ws[1..], key.task) && ws[0] != DeleteTask(key.task) by { SparesTail(ws, key.task); }
      StepKeepsValid(s, ws[0]);
      StepKeepsOwner(s, ws[0], key);
      RunExtends(s', ws[1..], key);
      ExtendsTransitive(s.contexts, s'.contexts, Run(s', ws[1..]).contexts, key);
      ExtendsTransitive(s.reports, s'.reports, Run(s', ws[1..]).reports, key);
    }
  }

  /** As long as the task is not deleted, the context chain a later head shows extends the chain seen before. */
  lemma ContextChainOnlyGrows(s: State, ws: seq<Write>, h: Head, key: Key)
    requires Valid(s) && Spares(ws, key.task) && h in s.contexts.heads && HeadOf(h, key)
    ensures var t := Run(s, ws).contexts;
      exists h' :: h' in t.heads && HeadOf(h', key)
                   && Anchored(s.contexts, h) && Anchored(t, h') && Chain(s.contexts, h, key) <= Chain(t, h', key)
  {
    var s' := Run(s, ws);
    RunKeepsValid(s, ws);
    RunExtends(s, ws, key);
    assert HeadReaches(s'.contexts, key, h.number);
    var h' :| h' in s'.contexts.heads && HeadOf(h', key);
    assert Anchored(s.contexts, h) && Anchored(s'.contexts, h');
    ChainExtends(s.contexts, s'.contexts, h, h', key);
  }

  lemma ReportChainOnlyGrows(s: State, ws: seq<Write>, h: Head, key: Key)
    requires Valid(s) && Spares(ws, key.task) && h in s.reports.heads && HeadOf(h, key)
    ensures var t := Run(s, ws).reports;
      exists h' :: h' in t.heads && HeadOf(h', key)
                   && Anchored(s.reports, h) && Anchored(t, h') && Chain(s.reports, h, key) <= Chain(t, h', key)
  {
    var s' := Run(s, ws);
    RunKeepsValid(s, ws);
    RunExtends(s, ws, key);
    assert HeadReaches(s'.reports, key, h.number);
    var h' :| h' in s'.reports.heads && HeadOf(h', key);
    assert Anchored(s.reports, h) && Anchored(s'.reports, h');
    ChainExtends(s.reports, s'.reports, h, h', key);
  }

  lemma RevisionRemains<P>(t: Table<P>, t': Table<P>, r: Revision<P>)
    requires Extends(t, t', r.key) && r in t.revisions
    ensures r in t'.revisions
  {
  }

  lemma AcceptedContext(s: State, r: Revision<Context>)
    requires Apply(s, OnContexts(InsertRevision(r))).Some?
    ensures var s' := Step(s, OnContexts(InsertRevision(r))); r in s'.contexts.revisions && HasHead(s'.contexts, r.key)
  {
    assert HasBase(s.contexts, r, true);
  }

  lemma ContextSurvives(s: State, ws: seq<Write>, r: Revision<Context>)
    requires Valid(s) && Spares(ws, r.key.task) && r in s.contexts.revisions && HasHead(s.contexts, r.key)
    ensures Valid(Run(s, ws)) && r in Run(s, ws).contexts.revisions
  {
    RunKeepsValid(s, ws);
    RunExtends(s, ws, r.key);
    RevisionRemains(s.contexts, Run(s, ws).contexts, r);
  }

  /** Once one writer's context revision is in, no other revision on the same head is ever accepted. */
  lemma OneContextWriterWins(s: State, ws: seq<Write>, first: Revision<Context>, second: Revision<Context>)
    requires Valid(s) && Apply(s, OnContexts(InsertRevision(first))).Some? && Spares(ws, first.key.task)
    requires first.key == second.key && first.parent == second.parent
    ensures Apply(Run(Step(s, OnContexts(InsertRevision(first))), ws), OnContexts(InsertRevision(second))).None?
  {
    var s1 := Step(s, OnContexts(InsertRevision(first)));
    var s2 := Run(s1, ws);
    assert Execute(s2.contexts, s2.tasks, true, InsertRevision(second)).None? by {
      StepKeepsValid(s, OnContexts(InsertRevision(first)));
      AcceptedContext(s, first);
      ContextSurvives(s1, ws, first);
      SecondWriterAborts(s2.contexts, s2.tasks, true, first, second);
    }
  }

  lemma AcceptedReport(s: State, r: Revision<Outputs>)
    requires Apply(s, OnReports(InsertRevision(r))).Some?
    ensures var s' := Step(s, OnReports(InsertRevision(r))); r in s'.reports.revisions && HasHead(s'.reports, r.key)
  {
    assert HasBase(s.reports, r, false);
  }

  lemma ReportSurvives(s: State, ws: seq<Write>, r: Revision<Outputs>)
    requires Valid(s) && Spares(ws, r.key.task) && r in s.reports.revisions && HasHead(s.reports, r.key)
    ensures Valid(Run(s, ws)) && r in Run(s, ws).reports.revisions
  {
    RunKeepsValid(s, ws);
    RunExtends(s, ws, r.key);
    RevisionRemains(s.reports, Run(s, ws).reports, r);
  }

  lemma OneReportWriterWins(s: State, ws: seq<Write>, first: Revision<Outputs>, second: Revision<Outputs>)
    requires Valid(s) && Apply(s, OnReports(InsertRevision(first))).Some? && Spares(ws, first.key.task)
    requires first.key == second.key && first.parent == second.parent
    ensures Apply(Run(Step(s, OnReports(InsertRevision(first))), ws), OnReports(InsertRevision(second))).None?
  {
    var s1 := Step(s, OnReports(InsertRevision(first)));
    var s2 := Run(s1, ws);
    assert Execute(s2.reports, s2.tasks, false, InsertRevision(second)).None? by {
      StepKeepsValid(s, OnReports(InsertRevision(first)));
      AcceptedReport(s, first);
      ReportSurvives(s1, ws, first);
      SecondWriterAborts(s2.reports, s2.tasks, false, first, second);
    }
  }

  // ---- Published outputs ----

  ghost predicate GovernedSince(early: set<Revision<Outputs>>, s: State) {
    s.docxGoverned && forall r | r in s.reports.revisions && r !in early :: r.payload.docx.Some?
  }

  lemma {:induction false} RunStaysGoverned(early: set<Revision<Outputs>>, s: State, ws: seq<Write>)
    requires GovernedSince(early, s)
    ensures GovernedSince(early, Run(s, ws))
    decreases |ws|
  {
    if ws != [] { RunStaysGoverned(early, Step(s, ws[0]), ws[1..]); }
  }

  /** The registry has the artifact of a published output. */
  predicate RowThere(artifacts: set<Artifact>, id: string, task: string, kind: string, hash: string) {
    exists a | a in artifacts ::
      a.id == Some(id) && a.task == task && a.kind == kind && a.hash == hash && a.origin == "strategy.build_report_bundle_v2"
  }

  /** The JSON, Markdown and XLSX artifacts of a report are there, for its own task. */
  predicate TextRowsThere(artifacts: set<Artifact>, r: Revision<Outputs>) {
    var p, task := r.payload, r.key.task;
    && RowThere(artifacts, p.json.artifact, task, "strategy_report_bundle_json", p.json.hash)
    && RowThere(artifacts, p.markdown.artifact, task, "strategy_report_markdown", p.markdown.hash)
    && RowThere(artifacts, p.xlsx.artifact, task, "strategy_report_xlsx", p.xlsx.hash)
  }

  predicate DocxRowThere(artifacts: set<Artifact>, r: Revision<Outputs>) {
    && r.payload.docx.Some? && r.payload.docxHash.Some?
    && RowThere(artifacts, r.payload.docx.value, r.key.task, "strategy_report_docx", r.payload.docxHash.value)
  }

  /**
   * After migration 21, in every run: each report revision still has its JSON, Markdown and XLSX artifacts in the
   * registry, for its own task, with the recorded hash, kind and origin; each one inserted since also its DOCX.
   */
  lemma PublishedOutputsStay(s: State, ws: seq<Write>, r: Revision<Outputs>)
    requires Valid(s) && s.docxGoverned && r in Run(s, ws).reports.revisions
    ensures var s' := Run(s, ws);
      && r.key.task in s'.tasks && TextRowsThere(s'.artifacts, r)
      && (r !in s.reports.revisions ==> DocxRowThere(s'.artifacts, r))
  {
    var s' := Run(s, ws);
    RunKeepsValid(s, ws);
    RunStaysGoverned(s.reports.revisions, s, ws);
    assert Published(s'.artifacts, r) && Linked(s'.reports, false, r);
  }

  // ---- What gets in ----

  /** 64 lower-case hexadecimal digits. */
  predicate Digest(h: string) {
    |h| == 64 && forall c | c in h :: c in "0123456789abcdef"
  }

  lemma DigestIsHash(h: string)
    ensures Digest(h) <==> IsHash(h)
  {
    assert forall c: char :: IsHex(c) <==> c in "0123456789abcdef" by { HexDigits(); }
    if IsHash(h) {
      forall c | c in h ensures c in "0123456789abcdef" { var i :| 0 <= i < |h| && h[i] == c; }
    }
    if Digest(h) { assert forall i | 0 <= i < 64 :: h[i] in h; }
  }

  lemma HexDigits()
    ensures forall c: char :: IsHex(c) <==> c in "0123456789abcdef"
  {
    forall c: char ensures IsHex(c) <==> c in "0123456789abcdef" {
      var digits := "0123456789abcdef";
      assert digits[0] == '0' && digits[1] == '1' && digits[2] == '2' && digits[3] == '3' && digits[4] == '4';
      assert digits[5] == '5' && digits[6] == '6' && digits[7] == '7' && digits[8] == '8' && digits[9] == '9';
      assert digits[10] == 'a' && digits[11] == 'b' && digits[12] == 'c' && digits[13] == 'd' && digits[14] == 'e';
      assert digits[15] == 'f';
    }
  }

  /** The number follows a head of the key, the parent is what that head shows, and number and id are new. */
  ghost predicate Follows<P>(t: Table<P>, r: Revision<P>, hashed: bool) {
    && (exists h :: h in t.heads && h.task == Some(r.key.task) && h.scope == r.key.scope
                    && r.number == h.number + 1 && r.parent == h.id && (hashed ==> r.parentHash == h.hash))
    && (forall q | q in t.revisions :: !(q.key == r.key && q.number == r.number))
    && (forall q | q in t.revisions :: q.id.None? || q.id != r.id)
  }

  lemma AllowedFollows<P>(t: Table<P>, tasks: set<string>, hashed: bool, r: Revision<P>)
    requires RevisionAllowed(t, tasks, hashed, r)
    ensures IsHash(r.hash) && (hashed ==> NullOrHash(r.parentHash)) && Follows(t, r, hashed)
  {
    hide IsHash, HasParent;
    var h :| h in t.heads && BasedOn(h, r, hashed);
  }

  lemma ShapeFollows<P>(t: Table<P>, r: Revision<P>, hashed: bool, h: Head)
    requires Anchored(t, h) && h.task == Some(r.key.task) && h.scope == r.key.scope
    requires r.number == h.number + 1 && r.parent == h.id && (hashed ==> r.parentHash == h.hash && NullOrHash(r.parentHash))
    requires IsHash(r.hash)
    ensures RevisionShape(r, hashed) && BasedOn(h, r, hashed)
  {
    hide IsHash, Holds;
  }

  lemma FollowsExactly<P>(t: Table<P>, tasks: set<string>, hashed: bool, r: Revision<P>)
    requires Sound(t, tasks, hashed)
    ensures RevisionAllowed(t, tasks, hashed, r) <==>
            IsHash(r.hash) && (hashed ==> NullOrHash(r.parentHash)) && Follows(t, r, hashed)
  {
    hide RevisionAllowed, IsHash, NullOrHash, Sound, Anchored, RevisionShape;
    if RevisionAllowed(t, tasks, hashed, r) { AllowedFollows(t, tasks, hashed, r); }
    if IsHash(r.hash) && (hashed ==> NullOrHash(r.parentHash)) && Follows(t, r, hashed) {
      var h :| h in t.heads && h.task == Some(r.key.task) && h.scope == r.key.scope
               && r.number == h.number + 1 && r.parent == h.id && (hashed ==> r.parentHash == h.hash);
      HeadIsAnchored(t, tasks, hashed, h);
      ShapeFollows(t, r, hashed, h);
      assert HasBase(t, r, hashed) && !Holds(t, r.key, r.number);
      AppendExactlyWhenBased(t, tasks, hashed, r);
    }
  }

  lemma HeadIsAnchored<P>(t: Table<P>, tasks: set<string>, hashed: bool, h: Head)
    requires Sound(t, tasks, hashed) && h in t.heads
    ensures Anchored(t, h)
  {
  }

  /**
   * After migration 21 a report gets in exactly when it follows the head of its scope, its scope belongs to its
   * strategy, its hashes are digests, and its four outputs are registered for its task under their kinds.
   */
  lemma ReportAcceptedExactly(s: State, r: Revision<Outputs>)
    requires Valid(s) && s.docxGoverned
    ensures Apply(s, OnReports(InsertRevision(r))).Some? <==>
      && r.key.scope == (if r.payload.strategy.Some? then "strategy:" + r.payload.strategy.value else "task-draft")
      && (r.payload.strategy.Some? <==> r.payload.version.Some?)
      && Digest(r.hash) && Digest(r.payload.json.hash) && Digest(r.payload.markdown.hash) && Digest(r.payload.xlsx.hash)
      && TextRowsThere(s.artifacts, r) && DocxRowThere(s.artifacts, r) && Digest(r.payload.docxHash.value)
      && Follows(s.reports, r, false)
  {
    hide Sound, Follows, Digest, RevisionAllowed, IsHash;
    FollowsExactly(s.reports, s.tasks, false, r);
    DigestIsHash(r.hash);
    DigestIsHash(r.payload.json.hash);
    DigestIsHash(r.payload.markdown.hash);
    DigestIsHash(r.payload.xlsx.hash);
    if r.payload.docxHash.Some? { DigestIsHash(r.payload.docxHash.value); }
  }

  /** The head shows a revision of its key by number, id and hash. */
  ghost predicate ShowsRevision<P>(t: Table<P>, h: Head) {
    exists r :: r in t.revisions && h.task == Some(r.key.task) && h.scope == r.key.scope && h.number == r.number
                && r.id.Some? && h.id == r.id && h.hash == Some(r.hash)
  }

  /**
   * A report head is opened exactly for a scope of reports of a task that has none there yet, empty or showing a
   * revision that is there.
   */
  lemma ReportHeadOpensExactly(s: State, h: Head)
    requires Valid(s)
    ensures Apply(s, OnReports(InsertHead(h))).Some? <==>
      && h.task.Some? && h.task.value in s.tasks
      && (h.scope == "task-draft" || (|h.scope| >= 9 && h.scope[..9] == "strategy:"))
      && (forall g | g in s.reports.heads :: !(g.task == h.task && g.scope == h.scope))
      && (if h.number == 0 then h.id.None? && h.hash.None?
          else ShowsRevision(s.reports, h) && (h.hash.Some? ==> Digest(h.hash.value)))
  {
    hide Sound, Digest, AllPublished, Registry;
    assert STRATEGY_SCOPE <= h.scope <==> |h.scope| >= 9 && h.scope[..9] == "strategy:";
    if h.hash.Some? { DigestIsHash(h.hash.value); }
    TargetIsShown(s.reports, s.tasks, false, h);
  }

  lemma TargetIsShown<P>(t: Table<P>, tasks: set<string>, hashed: bool, h: Head)
    requires Sound(t, tasks, hashed)
    ensures (exists r | r in t.revisions :: IsTarget(r, h)) <==> ShowsRevision(t, h)
    ensures ShowsRevision(t, h) ==> h.number >= 1
  {
    if r :| r in t.revisions && IsTarget(r, h) { assert Linked(t, hashed, r); }
    if ShowsRevision(t, h) {
      var r :| r in t.revisions && h.task == Some(r.key.task) && h.scope == r.key.scope && h.number == r.number
               && r.id.Some? && h.id == r.id && h.hash == Some(r.hash);
      assert IsTarget(r, h) && Linked(t, hashed, r);
    }
  }

  /** A head moves exactly to the next number, to a revision that is there, and changes nothing else of itself. */
  lemma HeadAdvancesExactly<P>(t: Table<P>, tasks: set<string>, hashed: bool, was: Head, now: Head)
    requires Sound(t, tasks, hashed) && was in t.heads
    ensures Execute(t, tasks, hashed, UpdateHead(was, now)).Some? <==>
      && now.task == was.task && now.scope == was.scope && now.identity == was.identity && now.number == was.number + 1
      && ShowsRevision(t, now) && (now.hash.Some? ==> Digest(now.hash.value))
  {
    hide Sound, Digest;
    if now.hash.Some? { DigestIsHash(now.hash.value); }
    TargetIsShown(t, tasks, hashed, now);
  }

  /** Tasks are added under new ids, and renamed to a new id unless a row of the ledgers or the registry names them. */
  lemma TaskWritesExactly(s: State, t: string, t': string)
    ensures Apply(s, InsertTask(t)).Some? <==> t !in s.tasks
    ensures t in s.tasks && t != t' ==> (Apply(s, RenameTask(t, t')).Some? <==>
      && t' !in s.tasks && (forall a | a in s.artifacts :: a.task != t)
      && (forall r | r in s.contexts.revisions :: r.key.task != t) && (forall h | h in s.contexts.heads :: h.task != Some(t))
      && (forall r | r in s.reports.revisions :: r.key.task != t) && (forall h | h in s.reports.heads :: h.task != Some(t)))
  {
  }

  /** An artifact is registered exactly for a task that is there, with a digest, under a new id and at a new place. */
  lemma ArtifactAcceptedExactly(s: State, a: Artifact)
    ensures Apply(s, InsertArtifact(a)).Some? <==>
      && Digest(a.hash) && a.task in s.tasks
      && (forall b | b in s.artifacts :: a.id.None? || b.id != a.id)
      && forall b | b in s.artifacts :: (b.task, b.kind, b.path) != (a.task, a.kind, a.path)
  {
    hide Digest;
    DigestIsHash(a.hash);
  }

  /** It is removed exactly if no report names it as its JSON, Markdown, XLSX or DOCX output. */
  lemma ArtifactRemovedExactly(s: State, a: Artifact)
    requires a in s.artifacts
    ensures Apply(s, DeleteArtifact(a)).Some? <==>
      forall r | r in s.reports.revisions && a.id.Some? ::
        a.id.value != r.payload.json.artifact && a.id.value != r.payload.markdown.artifact
        && a.id.value != r.payload.xlsx.artifact && r.payload.docx != Some(a.id.value)
  {
  }

  /**
   * A project context gets in exactly when it follows the task's head, by id and hash, its hashes are digests, and no
   * revision with the same parent has the same operation.
   */
  lemma ContextAcceptedExactly(s: State, r: Revision<Context>)
    requires Valid(s)
    ensures Apply(s, OnContexts(InsertRevision(r))).Some? <==>
      && r.key.scope == "" && Digest(r.hash) && (r.parentHash.Some? ==> Digest(r.parentHash.value))
      && Digest(r.payload.operationHash) && Digest(r.payload.contentHash)
      && (forall q | q in s.contexts.revisions && q.key.task == r.key.task
                     && q.payload.operationHash == r.payload.operationHash ::
            (if q.parent.Some? then q.parent.value else "") != (if r.parent.Some? then r.parent.value else ""))
      && Follows(s.contexts, r, true)
  {
    hide Sound, Follows, Digest, RevisionAllowed, IsHash;
    FollowsExactly(s.contexts, s.tasks, true, r);
    DigestIsHash(r.hash);
    if r.parentHash.Some? { DigestIsHash(r.parentHash.value); }
    DigestIsHash(r.payload.operationHash);
    DigestIsHash(r.payload.contentHash);
  }

  lemma StepKeepsReport(s: State, w: Write, r: Revision<Outputs>)
    requires r.key.task in s.tasks && w != DeleteTask(r.key.task) && r in s.reports.revisions
    ensures r in Step(s, w).reports.revisions
  {
    StepExtends(s, w, r.key);
    RevisionRemains(s.reports, Step(s, w).reports, r);
  }

  lemma StepKeepsUsedArtifact(s: State, w: Write, r: Revision<Outputs>, a: Artifact)
    requires w != DeleteTask(a.task) && r in s.reports.revisions
    requires a in s.artifacts && a.id.Some? && Uses(r.payload, a.id.value)
    ensures a in Step(s, w).artifacts
  {
    assert Referenced(s, a);
  }

  /** The very row a report points to stays, unchanged, until the task is deleted. */
  lemma {:induction false} UsedArtifactStays(s: State, ws: seq<Write>, r: Revision<Outputs>, a: Artifact)
    requires Valid(s) && Spares(ws, a.task) && r in s.reports.revisions && r.key.task == a.task
    requires a in s.artifacts && a.id.Some? && Uses(r.payload, a.id.value)
    ensures a in Run(s, ws).artifacts && r in Run(s, ws).reports.revisions
    decreases |ws|
  {
    if ws != [] {
      SparesTail(ws, a.task);
      assert r.key.task in s.tasks by { assert Linked(s.reports, false, r); }
      StepKeepsReport(s, ws[0], r);
      StepKeepsUsedArtifact(s, ws[0], r, a);
      StepKeepsValid(s, ws[0]);
      UsedArtifactStays(Step(s, ws[0]), ws[1..], r, a);
    }
  }

  /** Deleting a task leaves no trace of it in any of the tables, and every row of the others. */
  lemma DeletedTaskIsGone(s: State, task: string)
    requires Valid(s)
    ensures var s' := Step(s, DeleteTask(task)); Valid(s') && task !in s'.tasks && !TaskMentioned(s', task)
    ensures var s' := Step(s, DeleteTask(task));
      && s'.tasks == s.tasks - {task}
      && (forall a :: a in s'.artifacts <==> a in s.artifacts && a.task != task)
      && (forall r :: r in s'.contexts.revisions <==> r in s.contexts.revisions && r.key.task != task)
      && (forall r :: r in s'.reports.revisions <==> r in s.reports.revisions && r.key.task != task)
      && (forall h :: h in s'.contexts.heads <==> h in s.contexts.heads && h.task != Some(task))
      && (forall h :: h in s'.reports.heads <==> h in s.reports.heads && h.task != Some(task))
  {
    DeleteTaskKeepsValid(s, task);
  }

  // ---- The database itself ----

  /** The tables as they are changed in place; each method is one Step, so StepKeepsValid speaks about it. */
  class Database {
    var tasks: set<string>
    var contexts: Table<Context>
    var reports: Table<Outputs>
    var artifacts: set<Artifact>
    var docxGoverned: bool

    ghost function Contents(): State
      reads this
    {
      State(tasks, contexts, reports, artifacts, docxGoverned)
    }

    constructor ()
      ensures Contents() == EMPTY && Valid(Contents())
    {
      tasks, artifacts, docxGoverned := {}, {}, false;
      contexts, reports := Table({}, {}), Table({}, {});
    }

    /** INSERT INTO strategy_project_context_revisions. */
    method InsertContext(r: Revision<Context>) returns (ok: bool)
      modifies this
      ensures Contents() == Step(old(Contents()), OnContexts(InsertRevision(r)))
      ensures ok == Apply(old(Contents()), OnContexts(InsertRevision(r))).Some?
    {
      if r.number > 1 && !HasParent(contexts, r, true) { return false; }
      if !HasBase(contexts, r, true) { return false; }
      if !RevisionShape(r, true) || r.key.task !in tasks { return false; }
      if !RevisionUnique(contexts, r) || !ContextGuard(contexts, InsertRevision(r)) { return false; }
      contexts := contexts.(revisions := contexts.revisions + {r});
      return true;
    }

    /** INSERT INTO strategy_report_revisions. */
    method InsertReport(r: Revision<Outputs>) returns (ok: bool)
      modifies this
      ensures Contents() == Step(old(Contents()), OnReports(InsertRevision(r)))
      ensures ok == Apply(old(Contents()), OnReports(InsertRevision(r))).Some?
    {
      if r.number > 1 && !HasParent(reports, r, false) { return false; }
      if !HasBase(reports, r, false) { return false; }
      var s := State(tasks, contexts, reports, artifacts, docxGoverned);
      if !ReportGuard(s, InsertRevision(r)) { return false; }
      if !RevisionShape(r, false) || r.key.task !in tasks || !RevisionUnique(reports, r) { return false; }
      reports := reports.(revisions := reports.revisions + {r});
      return true;
    }

    /** INSERT INTO strategy_project_context_heads. */
    method OpenContextHead(h: Head) returns (ok: bool)
      modifies this
      ensures Contents() == Step(old(Contents()), OnContexts(InsertHead(h)))
      ensures ok == Apply(old(Contents()), OnContexts(InsertHead(h))).Some?
    {
      if h.scope != "" || !HeadAllowed(contexts, tasks, h) { return false; }
      contexts := contexts.(heads := contexts.heads + {h});
      return true;
    }

    /** INSERT INTO strategy_report_heads. */
    method OpenReportHead(h: Head) returns (ok: bool)
      modifies this
      ensures Contents() == Step(old(Contents()), OnReports(InsertHead(h)))
      ensures ok == Apply(old(Contents()), OnReports(InsertHead(h))).Some?
    {
      if h.task.None? || !IsScope(h.scope) || !HeadAllowed(reports, tasks, h) { return false; }
      reports := reports.(heads := reports.heads + {h});
      return true;
    }

    /** UPDATE of one row of strategy_project_context_heads. */
    method AdvanceContextHead(was: Head, now: Head) returns (ok: bool)
      modifies this
      ensures Contents() == Step(old(Contents()), OnContexts(UpdateHead(was, now)))
      ensures ok == Apply(old(Contents()), OnContexts(UpdateHead(was, now))).Some?
    {
      if was !in contexts.heads { return true; }
      if !AdvanceAllowed(contexts, was, now) { return false; }
      contexts := contexts.(heads := contexts.heads - {was} + {now});
      return true;
    }

    /** UPDATE of one row of strategy_report_heads. */
    method AdvanceReportHead(was: Head, now: Head) returns (ok: bool)
      modifies this
      ensures Contents() == Step(old(Contents()), OnReports(UpdateHead(was, now)))
      ensures ok == Apply(old(Contents()), OnReports(UpdateHead(was, now))).Some?
    {
      if was !in reports.heads { return true; }
      if !AdvanceAllowed(reports, was, now) { return false; }
      reports := reports.(heads := reports.heads - {was} + {now});
      return true;
    }

    /** INSERT INTO task_artifacts. */
    method AddArtifact(a: Artifact) returns (ok: bool)
      modifies this
      ensures Contents() == Step(old(Contents()), InsertArtifact(a))
      ensures ok == Apply(old(Contents()), InsertArtifact(a)).Some?
    {
      if !ArtifactAllowed(State(tasks, contexts, reports, artifacts, docxGoverned), a) { return false; }
      artifacts := artifacts + {a};
      return true;
    }

    /** DELETE FROM task_artifacts: the trigger protects outputs of published reports. */
    method RemoveArtifact(a: Artifact) returns (ok: bool)
      modifies this
      ensures Contents() == Step(old(Contents()), DeleteArtifact(a))
      ensures ok == Apply(old(Contents()), DeleteArtifact(a)).Some?
    {
      if a !in artifacts { return true; }
      if Referenced(State(tasks, contexts, reports, artifacts, docxGoverned), a) { return false; }
      artifacts := artifacts - {a};
      return true;
    }

    /** DELETE FROM tasks, with its cascades. */
    method RemoveTask(task: string)
      modifies this
      ensures Contents() == Step(old(Contents()), DeleteTask(task))
    {
      tasks := tasks - {task};
      contexts := Cascade(contexts, task);
      reports := Cascade(reports, task);
      artifacts := set a | a in artifacts && a.task != task;
    }
  }
}
