# Verified models of MARVIS

This project models the parts of MARVIS that carry its safety promises and proves those promises in Dafny:
the checker for user-written draft tools, the handling of tool schemas sent to a language model, the append-only
revision ledgers in SQLite, the migration runner, workspace backup and restore, cooperative cancellation, the
dependency closure behind the validation input contract, the retry loop around LLM calls, business acceptance, byte
ranges, and the version key of static assets. `dafny verify dfyconfig.toml` checks everything.

| files | what they model |
|---|---|
| `Prelude.dfy`, `PythonText.dfy` | options, results, digests; the few Python text operations that are shared |
| `DraftSyntax.dfy`, `DraftRules.dfy`, `DraftValidator.dfy` | the draft language, its rules as functions, and the visiting validator object proved against them |
| `DraftSemantics.dfy`, `DraftInvariants.dfy`, `DraftSoundness.dfy`, `DraftFlow.dfy`, `DraftConsistency.dfy` | a big-step semantics with suspended generators, what holds while a draft runs, capability soundness of stretches and of whole drafts, a condition for it on the text |
| `DraftCoverage.dfy`, `DraftCompleteness.dfy`, `DraftLocals.dfy`, `DraftImports.dfy` | exactly which functions and sources are drafts, said of their text |
| `DraftLanguageV1.dfy`, `DraftLateGenerators.dfy` | version 1 of the tables, and the drafts that fail |
| `JsonSchema.dfy`, `JsonPointer.dfy`, `SchemaAnnotations.dfy`, `SchemaMeaning.dfy`, `SchemaMint.dfy`, `SchemaDataReferences.dfy`, `SchemaPercentEscapes.dfy`, `SchemaLimits.dfy` | schema evaluation with local references, pointer text, annotation removal, meaning preservation, minting, references through data and with percent-escapes, size limits |
| `Ledger.dfy`, `TaskLedgers.dfy` | the revision ledger in general, and the context, report and artifact tables |
| `SchemaMigrations.dfy` | the migration runner under failures and crashes |
| `WorkspaceBackup.dfy`, `WorkspaceRestore.dfy` | archive round trip; the rename-based swap with rollback |
| `JobCancellation.dfy` | the cancellation protocol, split at its lock boundaries, and its objects |
| `ProducibleFields.dfy`, `InputContract.dfy` | the worklist and its least fixpoint; contract assembly |
| `LlmResponse.dfy`, `LlmRetry.dfy` | reading a completion and its telemetry; attempts and the retry loop |
| `BusinessAcceptance.dfy` | acceptance of an adopted object, and subsumption of old thresholds |
| `ByteRanges.dfy`, `StaticAssets.dfy` | RFC 9110 single ranges and snapshot streaming; the asset digest input |

## Promises that do not hold as stated

* **Draft capability soundness.** A run of an accepted draft can read an attribute that its receiver lacks in three
  ways. A name is recorded with a capability on a way the run did not take, as the last record wins across branches
  (`DraftLanguageV1.SettlingNeeded`). The entrypoint has the name of an import, which its definition then replaces
  (`FreshNameNeeded`). Or a generator expression reads a name after it has been stored with another capability: in
  `r = random.Random(); g = (r.choice(inputs) for x in inputs); r = 1; return list(g)` the name `r` is read only inside
  `list` (`DraftLateGenerators.LastingNeeded`). Without these soundness holds in every world, whenever and in whatever
  order it runs the generators made so far (`DraftFlow.CapabilitySoundness`): each branch can be skipped, loops change
  no capability, comprehension variables do not reuse a name that has one, and the names that a generator expression
  reads later keep the capability they have where it stands. Straight-line code may otherwise store a name again
  (`RestoringIsSafe`), and reading `random.Random` without calling it is harmless, as the class has the members of its
  instances (`BareReadsMember`, `BareConstructorIsSafe`). On the text it is enough that each name which is ever assigned
  a name, attribute or call is assigned once and is no comprehension variable (`DraftConsistency.TextualSoundness`).
* **Jumps in drafts.** The else branch of a loop counts as inside it, so a `break` or `continue` there is accepted
  although Python does not compile it outside every loop (`DraftCompleteness.JumpInElseIsAccepted`).
* **Annotation removal.** Three kinds of references change what a schema means although every check passes. A schema
  may refer to one of its keyword maps, for example `"$ref": "#/properties"`: the map keeps its entries, but an entry
  called `properties`, read as a keyword, loses its `default` (`SchemaMint.MapReferenceChangesMeaning`, for each of the
  five keyword maps). It may refer to data that is copied unchanged and refers to such a map or an annotation in turn
  (`SchemaDataReferences.DataReferenceChangesMeaning`, an `enum` item). And the check does not undo percent-encoding,
  which section 6 of RFC 6901 asks of a validator: with `"$ref": "#/properties/a%2Fdefault"` the check finds the
  property of that name while the validator goes to the `default` of the property `a`
  (`SchemaPercentEscapes.EscapedReferenceChangesMeaning`). Meaning is preserved for every schema whose references have
  no `%` and lead to schemas, to data, or to keyword maps that stripping leaves as they are, if the references in such
  data and maps do so in turn (`SchemaMint.MintedSchemaKeepsMeaning`).
* **Streamed output.** A time-out after a chunk is retried, since that branch does not look at `delta_fired`, so the
  caller may hear the same text twice (`LlmRetry.TimeoutDuplicates`). The caller hears exactly the last attempt if
  and only if no earlier attempt timed out after a chunk (`HearsLastAttemptOnly`).
* **One record per call.** A call ends without a record and without a client error if and only if its last attempt
  escapes the handlers or an infinite token count is turned into an integer for the record (`LlmRetry.Complete`,
  `OneRecordExactly`). An attempt escapes exactly if opening or reading the response raises something the loop does not
  handle, such as the ValueError of a redirect to `http://[` or of an API key that is no header value, or if a line or
  the document that was read escapes (`AttemptEscapesExactly`, `CrashedOpeningLosesCall`). A stream event escapes
  exactly if the JSON reader raises something other than a `JSONDecodeError` (an integer of more than 4300 digits,
  nesting that is too deep), if its `choices` is a non-empty object, or if a value in it cannot be printed
  (`LlmResponse.EventEscapesExactly`, with an input of each kind in `EachKindEscapes`); a whole document likewise, apart
  from `choices` (`DocumentEscapesExactly`). A good response with `"reasoning_tokens": 1e999` is lost
  (`LlmRetry.InfiniteCountLosesCall`).
* **Backup round trip.** `create_backup` archives pipes and devices, which a restore refuses to unpack, and lists
  sockets, which no archive holds, so that a restore refuses the inventory. A file whose name is not UTF-8 makes the
  backup itself fail, because its manifest cannot be written (`WorkspaceBackup.GbkNameStopsBackup`). The round trip
  succeeds exactly when no link is in the way, all backed-up files are regular, can be opened and have UTF-8 names, and
  the database, if there is one, can be copied and its copy is intact (`RoundTrip`).
* **Byte ranges.** A list of ranges is refused with 416 even if it is valid and satisfiable, and even if it is a single
  range beside an empty list element (`ByteRanges.SatisfiableListIsRefused`). So is a range with a number of more than
  4300 digits (`LongNumberIsRefused`), and a suffix of an empty file, which section 14.1.2 of RFC 9110 calls satisfiable
  (`SuffixOfNothingIsRefused`). Section 14.2 leaves refusal open only for specifiers that are invalid, excessive or not
  satisfiable; reversed ranges are invalid, so refusing them is in order (`ReversedRangeIsRefused`). For specifiers in
  RFC form `AllowedExactlyWhen` says exactly when the answer is one the RFC leaves open.
* **Restore with `force`.** What is at the target at the first rename counts as the original, whoever put it there, and
  a restore that succeeds discards it. After that, when what is being replaced is a file or a link rather than a folder,
  rolling it back replaces a file that another process creates at the target between the last check and the rename, as
  in the run of `WorkspaceRestore.ForcedRestoreLosesFile`. No other content is lost: `RestoreBackup` and `Recover` say
  exactly when it happens, and on an error the original is kept.
* **Restore to an empty folder.** If the rename into place fails the folder is created again, unless that fails too; it
  stays removed when removing it raises after it has taken effect (`WorkspaceRestore.EmptyTargetComesBack`).
* **Old thresholds.** The comparison of maxima in `require_objective_covers_legacy` is never reached: an item with a
  maximum has always been refused before it. Items that Python finds equal are kept once, so `{"min": true}` is dropped
  behind `{"min": 1}` and accepted with it, while in front of it, or alone, it is refused
  (`BusinessAcceptance.TruthDependsOnOrder`).

## Model

| member | source | states |
|---|---|---|
| DraftFlow.CapabilitySoundness | marvis/draft_language.py:309-637 | in every world, a run of an accepted draft never reads an attribute its receiver lacks, generators run at any later time included, if each of its branches can be skipped, its loops change no capability, its generator expressions read only names that keep their capability, and it is not named like an import; straight-line code may change capabilities otherwise |
| DraftFlow.AcceptedSourcesAreSound | marvis/draft_language.py:181-247 | the same for the tree the worker executes, starting from any accepted source |
| DraftFlow.StmtFits | marvis/draft_language.py:354-411 | executing a visited statement in an environment that fits the records before it, with generators made earlier that can be run, never misses a member and leaves both as after it |
| DraftFlow.BranchFits | marvis/draft_language.py:373-376 | the same for a conditional whose two branches are recorded one after the other although a run takes one |
| DraftFlow.ConsistentBlock | marvis/draft_language.py:582-587 | where no name ever has two capabilities, all branches can be skipped, no loop changes one, and what generator expressions read keeps its own |
| DraftSoundness.AttributeConforms | marvis/draft_language.py:622-637 | whatever an attribute of a conforming receiver evaluates to conforms to the capability recorded for it, classes read without being called included |
| DraftConsistency.TextualSoundness | marvis/draft_language.py:309-637 | soundness for every accepted draft that stores each capability-carrying name once and is not named like an import, both visible in its text |
| DraftConsistency.StoredOnceIsConsistent | marvis/draft_language.py:582-587 | in such a draft no name is recorded with two capabilities |
| DraftConsistency.StmtCounts | marvis/draft_language.py:354-411 | visiting a statement records a name exactly as often as the statement stores it |
| DraftConsistency.VisitNames | marvis/draft_language.py:444-570 | visiting an expression records only comprehension variables |
| DraftSoundness.CapabilityConforms | marvis/draft_language.py:622-637 | what an expression evaluates to conforms to the capability the validator computes for it, whenever names conform to the records |
| DraftSoundness.ExprSafe | marvis/draft_language.py:444-570 | evaluating a visited expression with conforming names never misses a member, in its own code or in generators that are run meanwhile, and the generators made so far can still be run after it |
| DraftSoundness.ConsultSafe | marvis/draft_language.py:562-570 | before the world answers it may run any generators made so far, nested to any depth, with any items and surviving their exceptions or not, in the frame as it then is: no member is missed, and they can all still be run afterwards |
| DraftInvariants.MakeSuspended | marvis/draft_language.py:562-570 | a generator expression that passes is suspended with what running it needs: the names it reads later have values that conform to their records where it stands, and those records stay in force |
| DraftInvariants.StoreKeepsSuspended | marvis/draft_language.py:582-587 | storing a value to a name of the frame leaves a suspended generator that reads the name runnable, if the store is recorded later or in the same stretch |
| DraftSoundness.StmtSafe | marvis/draft_language.py:354-411 | executing a visited statement of a stretch that changes no capability never misses a member, generators run meanwhile included, and keeps every name in line with the stretch |
| DraftSoundness.LoopSafe | marvis/draft_language.py:378-387 | the same over any number of rounds of a loop, ended early or not, whose items may come from a generator |
| DraftLanguageV1.SettlingNeeded | marvis/draft_language.py:582-587 | an accepted draft meeting the other conditions fails because one branch records a capability that a run of the other does not have |
| DraftLateGenerators.LastingNeeded | marvis/draft_language.py:562-587 | an accepted draft meeting the other conditions fails because a generator reads a name after it has been stored with plain data |
| DraftLanguageV1.FreshNameNeeded | marvis/draft_language.py:181-247 | an accepted draft meeting the other conditions fails because its entrypoint replaces an import |
| DraftLanguageV1.BareConstructorIsSafe | marvis/plugins/subprocess_worker.py:729-747 | the accepted draft that reads `random.Random` without calling it misses no attribute in any world |
| DraftLanguageV1.RestoringIsSafe | marvis/draft_language.py:582-587 | an accepted draft that stores a name with two capabilities one after the other misses no attribute in any world |
| DraftLanguageV1.V1HasRandom | marvis/draft_language.py:101-107 | the failing and the safe drafts above are drafts of version 1 |
| DraftLateGenerators.V1HasList | marvis/draft_language.py:142-167 | so is the draft with the late generator, which calls `list` |
| DraftCoverage.AcceptedIsCovered | marvis/draft_language.py:309-620 | everywhere in an accepted body names are locals, imports, reserved names or allowed builtins, attribute names are public and in a member table, and no target rebinds a reserved or imported name |
| DraftCoverage.StmtCovers | marvis/draft_language.py:354-411 | everything occurring in a statement that passes is legal, by induction over all statement visitors |
| DraftCoverage.VisitCovers | marvis/draft_language.py:444-570 | the same for everything occurring in an expression, comprehension scopes included |
| DraftCoverage.TargetsAreLocal | marvis/draft_language.py:657-663 | names stored by an allowed target are locals |
| DraftCompleteness.AcceptedExactly | marvis/draft_language.py:309-663 | a function is accepted if and only if its signature is `(inputs, ctx)` and its locals are public and new names, each fragment and each statement of its body is legal by itself, every `break` and `continue` stands inside a `for`, else branches included, and every attribute and callee is a member of what its receiver stands for when its turn comes; all stated by recursion on the text with the listed operators written out |
| DraftCompleteness.StmtExact | marvis/draft_language.py:354-411 | the same for one statement at any loop depth, together with what each stored name stands for afterwards |
| DraftCompleteness.VisitExact | marvis/draft_language.py:444-570 | the same for an expression, which makes exactly its comprehension variables plain |
| DraftCompleteness.CalleeExact | marvis/draft_language.py:606-620 | a callee passes if and only if it is a builtin, an imported symbol that is there, or a member of a receiver that passes |
| DraftCompleteness.JumpInElseIsAccepted | marvis/draft_language.py:378-395 | a loop with a `break` in its else branch is accepted, outside every loop as Python counts |
| DraftLocals.LocalsAreStored | marvis/draft_language.py:657-662 | the locals of an accepted function are exactly the names that targets anywhere in it store to, and those stored in annotations |
| DraftImports.ImportsExactly | marvis/draft_language.py:250-282 | imports pass if and only if each names modules or members of the tables, or is the one future import, and they give exactly the bindings their aliases name |
| DraftImports.TableHoldsBindings | marvis/draft_language.py:310-311 | with different names, the table holds exactly the bindings |
| DraftImports.SourceAcceptedExactly | marvis/draft_language.py:181-247 | a source is accepted if and only if it is legal imports of different names and one definition, publicly named and as asked, whose function is acceptable with these bindings |
| DraftImports.DraftHolds | marvis/draft_language.py:237-306 | what is returned has the name, the bindings, and the definition with its body and nothing else that could run |
| DraftRules.Visit | marvis/draft_language.py:444-560 | visiting an expression only appends to the assignment records |
| DraftRules.VisitStmt | marvis/draft_language.py:354-411 | visiting a statement only appends to the assignment records |
| DraftValidator.FunctionValidator.VisitExpr | marvis/draft_language.py:444-560 | the visitor, which updates its capability table in place, accepts exactly the expressions the rules accept and leaves the table they give |
| DraftValidator.FunctionValidator.VisitComprehension | marvis/draft_language.py:562-570 | generators are checked in order, targets recorded before conditions |
| DraftValidator.FunctionValidator.RecordAssignment | marvis/draft_language.py:582-587 | a recorded target makes every name in it stand for the capability from then on |
| DraftValidator.FunctionValidator.MemberOfAttribute | marvis/draft_language.py:589-604 | an attribute is accepted exactly when its receiver's capability exposes a public member of that name, and that member is returned |
| DraftValidator.FunctionValidator.MemberOfCall | marvis/draft_language.py:607-619 | a callee is accepted exactly when it is the name of a builtin, shadowed or not, or a member of an imported symbol or of its receiver, which is returned whether it is callable or not |
| DraftValidator.FunctionValidator.CapabilityFor | marvis/draft_language.py:622-637 | the capability of an expression as the rules define it |
| DraftValidator.FunctionValidator.VisitStatement | marvis/draft_language.py:354-411 | statements are accepted exactly as the rules say; the loop depth is restored |
| DraftValidator.FunctionValidator.Validate | marvis/draft_language.py:316-349 | a function is accepted exactly when its signature and body pass, and the table left behind is the last record of each name |
| DraftValidator.SplitSource | marvis/draft_language.py:202-228 | the statement loop finds the imports and the one definition exactly when the source has that shape |
| DraftValidator.ValidateDraftSource | marvis/draft_language.py:181-306 | a source is accepted exactly when it is a draft of the language; the returned execution tree is its definition with the same body and no annotations |
| SchemaMeaning.StripPreservesMeaning | marvis/llm_outbound_catalog.py:164-196 | a document whose references land on schemas, or on data and keyword maps that stripping leaves alone and whose own references land, accepts after stripping exactly the instances it accepted before, at every depth of following references |
| SchemaMeaning.SameMap | marvis/llm_outbound_catalog.py:188-189 | keyword maps keep all their entries, so properties merely named `title` or `default` survive |
| SchemaMeaning.WalkImage | marvis/llm_outbound.py:720-729 | walking a reference path through the stripped document arrives at the image of what it reached before, unless it passed an annotation |
| SchemaMeaning.EvalAgrees | marvis/llm_outbound_catalog.py:164-196 | every schema in the document evaluates alike before and after, annotations it collects for `unevaluated` keywords included |
| SchemaMeaning.FollowAgrees | marvis/llm_outbound.py:717-731 | following a landing reference gives the same verdict in both documents |
| SchemaAnnotations.WithoutAnnotations | marvis/llm_outbound_catalog.py:164-196 | succeeds exactly on schemas all of whose keywords at schema positions are supported, and then returns the stripped schema |
| SchemaAnnotations.WithoutAnnotationsEntry | marvis/llm_outbound_catalog.py:169-195 | one keyword is refused, dropped or kept with its cleaned value |
| SchemaAnnotations.StrippedIsUnannotated | marvis/llm_outbound_catalog.py:164-196 | after stripping, no schema object at any schema position has one of the eight annotation keywords, and every other keyword of the original is there with the same value, schemas in it stripped likewise |
| SchemaAnnotations.AcceptedExactly | marvis/llm_outbound_catalog.py:164-211 | a schema is accepted if and only if at every schema position that is not under an annotation each keyword is one of the dialect other than `$vocabulary`, the meta-schema is the one known, formats are known and every text and key of literals and patterns may go out |
| SchemaMint.MintedSchemaKeepsMeaning | marvis/llm_outbound.py:524-532 | a schema that passes the check after stripping means what the original meant, if its references have no `%` and lead to schemas, or to data or unchanged keyword maps whose own references land |
| SchemaMint.MapReferenceChangesMeaning | marvis/llm_outbound_catalog.py:164-196 | for each keyword map, a schema that refers to it passes all checks and yet changes its verdict when stripped |
| SchemaDataReferences.DataReferenceChangesMeaning | marvis/llm_outbound_catalog.py:164-196 | for each keyword map, a schema that refers to an `enum` item which refers to the map passes all checks and yet changes its verdict when stripped |
| SchemaPercentEscapes.EscapedReferenceChangesMeaning | marvis/llm_outbound.py:720-729 | a schema whose only reference has a percent-encoded slash passes all checks and yet changes its verdict when stripped, for a validator that undoes the encoding |
| SchemaMint.MintedTarget | marvis/llm_outbound.py:717-731 | a reference without `%` that passes the check after stripping did not lead a validator into an annotation |
| SchemaMint.CheckOutputSchema | marvis/llm_outbound.py:676-731 | the explicit-stack check accepts exactly when no schema at any depth has an `$id` and each of their references is `#`, a pointer to an object or boolean as the code splits and unescapes it, or an anchor of the document |
| SchemaMint.CollectReferences | marvis/llm_outbound.py:690-716 | the stack visits every schema position, whatever the order: it finds every `$id`, reference and anchor, and terminates by the total size of the stack |
| SchemaMint.CheckReference | marvis/llm_outbound.py:717-731 | one reference against the anchors gathered: accepted exactly when it passes |
| SchemaMint.FollowPointer | marvis/llm_outbound.py:722-727 | following the names one after the other arrives where the whole pointer leads |
| SchemaMint.PassesExactly | marvis/llm_outbound.py:676-731 | a document passes if and only if no schema of it has an `$id` and every `$ref` and `$dynamicRef` of one passes |
| SchemaMint.ReferencesThatPass | marvis/llm_outbound.py:717-731 | the references that pass are `#`, pointers written for names that lead to an object or a boolean, and anchors that some schema declares; nothing without a number sign in front passes |
| JsonPointer.PointerIsRead | marvis/llm_outbound.py:722-725 | whatever the names on a path, slashes and tildes included, splitting and unescaping the pointer written for them gives them back |
| SchemaMint.PushSubschemas | marvis/llm_outbound.py:707-716 | popping one schema pushes exactly the schemas directly below it |
| SchemaLimits.CheckSchemaLimits | marvis/llm_outbound.py:628-673 | accepts exactly the trees whose recursively defined depth, node count, byte total, container and branch sizes and scalars are within the limits |
| SchemaLimits.Expand | marvis/llm_outbound.py:638-655 | one popped node contributes its own bytes and its children, and is refused exactly when it is not legal itself |
| SchemaLimits.BitLengthBounds | marvis/llm_outbound.py:669-673 | an integer has at most b bits exactly when its magnitude is below 2^b |
| SchemaLimits.WithinLimitsExactly | marvis/llm_outbound.py:628-673 | the limits, said of paths and nodes: no path of 65 steps, at most 100000 nodes and a million bytes, at most 10000 items in a node, 256 alternatives, 4096 bits, text keys and finite numbers |
| Ledger.ExecuteKeepsSound | marvis/db_schema.py:2840-2963 | whatever plain INSERT, UPDATE or DELETE the constraints let through, the chains stay linked, distinct and anchored at their heads |
| Ledger.CascadeKeepsSound | marvis/db_schema.py:2787-2787 | deleting a task removes its rows from the ledger and leaves every other chain sound |
| Ledger.NumbersExact | marvis/db_schema.py:2753-2963 | a key's revision numbers are exactly 1..k, with k its head's number or one more |
| Ledger.ParentExact | marvis/db_schema.py:2840-2862 | a revision's recorded parent id, and hash where recorded, are those of its predecessor |
| Ledger.HeadExact | marvis/db_schema.py:2882-2916 | a head names the revision of its number with its exact id and hash |
| Ledger.ChainExtends | marvis/db_schema.py:2753-2963 | the chain a later head shows extends the chain an earlier head showed |
| Ledger.AppendExactlyWhenBased | marvis/db_schema.py:2840-2880 | a well-formed revision with a new id is accepted if and only if it builds on the head and its number is free |
| Ledger.AppendedCanBePublished | marvis/db_schema.py:2900-2931 | the head can be moved to a revision appended to it |
| Ledger.SecondWriterAborts | marvis/db_schema.py:2755-2880 | a second revision on the same parent is always refused |
| TaskLedgers.StepKeepsValid | marvis/db_schema.py:1417-1447 | every statement on tasks, contexts, reports or artifacts keeps both ledgers sound and every published report's artifacts present |
| TaskLedgers.RunKeepsValid | marvis/db_schema.py:2753-3354 | so does every run of statements |
| TaskLedgers.ContextLedgerInEveryRun | marvis/db_schema.py:2753-2963 | in every reachable database context revisions are numbered exactly 1..head or 1..head+1 and the head names its revision's exact id and state hash |
| TaskLedgers.ContextParentInEveryRun | marvis/db_schema.py:2840-2862 | in every reachable database a context revision records its predecessor's id and state hash, the first one none |
| TaskLedgers.ReportLedgerInEveryRun | marvis/db_schema.py:2966-3228 | in every reachable database report revisions of a task and scope are numbered exactly 1..head or 1..head+1 and the head names its revision, also when there is no revision yet |
| TaskLedgers.ReportParentInEveryRun | marvis/db_schema.py:3076-3113 | in every reachable database a report revision records its predecessor's id, the first one none |
| TaskLedgers.ContextChainOnlyGrows | marvis/db_schema.py:2753-2963 | over any run that does not delete the task, a context head persists and its chain is only extended |
| TaskLedgers.ReportChainOnlyGrows | marvis/db_schema.py:2966-3228 | the same for report heads |
| TaskLedgers.OneContextWriterWins | marvis/db_schema.py:2840-2880 | after one writer's revision is in, no run without deletion of the task makes another revision on the same head acceptable |
| TaskLedgers.OneReportWriterWins | marvis/db_schema.py:3076-3113 | the same for reports |
| TaskLedgers.PublishedOutputsStay | marvis/db_schema.py:3249-3354 | after migration 21, in every run: for the JSON, Markdown and XLSX output of every report revision there is a row with the recorded id and hash, of its task, of the kind the output is, from the reporting tool; for those inserted since also for DOCX |
| TaskLedgers.UsedArtifactStays | marvis/db_schema.py:3337-3354 | the very artifact row a report points to stays unchanged until the task is deleted |
| TaskLedgers.DeletedTaskIsGone | marvis/db_schema.py:1420-1433 | deleting a task leaves no row of it in any table, and exactly the rows of the others |
| TaskLedgers.ReportAcceptedExactly | marvis/db_schema.py:3076-3148 | after migration 21 a report gets in if and only if it follows the head of its scope, the scope is its strategy's or the draft's, the hashes are digests, and its four outputs are registered for its task under their kinds |
| TaskLedgers.ContextAcceptedExactly | marvis/db_schema.py:2753-2880 | a context gets in if and only if it follows the head by id and hash, its hashes are digests, and no sibling has its operation |
| TaskLedgers.ReportHeadOpensExactly | marvis/db_schema.py:3038-3167 | a report head is opened if and only if the scope is one of reports, the task is there and has none, and it is empty or shows a revision that is there |
| TaskLedgers.HeadAdvancesExactly | marvis/db_schema.py:2900-2931 | a head moves if and only if to the next number, showing a revision of its key by id and hash, with everything else of it unchanged |
| TaskLedgers.ArtifactAcceptedExactly | marvis/db_schema.py:1417-1433 | an artifact is registered if and only if its task is there, its hash a digest and its id and place are new |
| TaskLedgers.ArtifactRemovedExactly | marvis/db_schema.py:3337-3354 | it is removed if and only if no report names it as any of its four outputs |
| TaskLedgers.TaskWritesExactly | marvis/db_schema.py:1420-1433 | a task is renamed if and only if the new id is free and no row of these tables names the old one |
| TaskLedgers.Database.InsertContext | marvis/db_schema.py:2840-2880 | the triggers and constraints, checked one after the other, accept exactly the allowed context revisions and add just that row |
| TaskLedgers.Database.InsertReport | marvis/db_schema.py:3076-3148 | the same for report revisions |
| TaskLedgers.Database.OpenContextHead | marvis/db_schema.py:2813-2900 | a head is added exactly when its task has none and it names an existing revision, if any |
| TaskLedgers.Database.OpenReportHead | marvis/db_schema.py:3038-3167 | the same for report heads, which need a task and a scope |
| TaskLedgers.Database.AdvanceContextHead | marvis/db_schema.py:2900-2931 | a head row moves exactly one step to an existing revision, or the statement aborts |
| TaskLedgers.Database.AdvanceReportHead | marvis/db_schema.py:3167-3199 | the same for report heads |
| TaskLedgers.Database.AddArtifact | marvis/db_schema.py:1417-1433 | an artifact row is added exactly when its task exists and its id and place are new |
| TaskLedgers.Database.RemoveArtifact | marvis/db_schema.py:3337-3354 | an artifact is removed exactly when no report revision uses it |
| TaskLedgers.Database.RemoveTask | marvis/db_schema.py:2787-2833 | a task is removed together with everything that refers to it |
| SchemaMigrations.DatabaseFile.InitDb | marvis/db_schema.py:4760-4786 | whatever fails or crashes, the durable schema is the result of exactly migrations 1 to its version; a run that returns ends at version 46, a newer database is refused untouched, and a run without failures returns |
| SchemaMigrations.DatabaseFile.Migrate | marvis/db_schema.py:4773-4786 | one migration and its stamp become durable together or not at all, and no transaction is left open |
| SchemaMigrations.DatabaseFile.Restart | marvis/db_schema.py:4760-4786 | the same over any number of restarts; committed versions form an ever longer list 1, 2, 3, ... |
| SchemaMigrations.BuiltDownward | marvis/db_schema.py:4701-4747 | if all migrations up to one can be applied in order, so can those up to any earlier one |
| WorkspaceRestore.Disk.RestoreBackup | marvis/backup.py:268-366 | on return the target is the validated workspace; on any error the original is at the target or in the preserved scratch directory; content of other processes is replaced exactly when the rollback replaces it, never on success, without `force` or for a folder; without `force` nothing is taken away; undisturbed, it succeeds exactly when forced or the target has no contents |
| WorkspaceRestore.Disk.Swap | marvis/backup.py:313-335 | the swap ends with the workspace in place, or fails with the original in scratch or untouched, whichever call failed before or after its effect |
| WorkspaceRestore.Disk.Recover | marvis/backup.py:336-361 | the handler leaves what was taken at the target or in a preserved scratch directory, and replaces content of others if and only if it renames no folder onto a file created since its check |
| WorkspaceRestore.ForcedRestoreLosesFile | marvis/backup.py:336-361 | a run with `force` in which the rollback replaces a file another process has just created |
| WorkspaceRestore.EmptyTargetComesBack | marvis/backup.py:320-361 | restoring to an empty folder undisturbed, for every fate of its `rmdir`, its rename and its `mkdir`: what is at the target afterwards and whether the restore raises |
| WorkspaceRestore.Disk.Prepare | marvis/backup.py:268-312 | the checks before the swap neither move nor lose anything; undisturbed they pass exactly for a valid archive and, without `force`, a target without contents |
| WorkspaceRestore.Disk.TakeTarget | marvis/backup.py:316-318 | the target is moved away whole or not at all |
| WorkspaceRestore.Disk.RemoveEmptyTarget | marvis/backup.py:328-334 | only an empty folder is ever removed |
| WorkspaceRestore.Disk.PutStaged | marvis/backup.py:335-335 | the workspace arrives only where no content is lost |
| WorkspaceRestore.Disk.TargetHasContents | marvis/backup.py:258-265 | an answer of no contents is right at the last moment it looked; undisturbed the answer is exact, links and files included |
| WorkspaceRestore.Disk.TargetThere | marvis/backup.py:289-289 | undisturbed, exactly the paths where something is, dangling links included |
| WorkspaceBackup.RoundTrip | marvis/backup.py:65-166 | what is backed up unpacks, validates and comes back as the database snapshot and exactly the files under included directories with no excluded part, if and only if a backup can be made, these files are regular and the snapshot is intact |
| WorkspaceBackup.BackedUpExactly | marvis/backup.py:83-150 | a backup holds the database's snapshot and every file below tasks, plugins, report_templates, branding and settings, and below datasets if and only if asked for, but nothing temporary |
| WorkspaceBackup.RoundTripExactly | marvis/backup.py:65-166 | the round trip succeeds if and only if there are no links in those directories, all names are UTF-8 and all that is there are folders and readable files, and the database can be copied with an intact copy |
| WorkspaceBackup.CreateBackup | marvis/backup.py:110-166 | an archive is made exactly when neither an included directory nor anything in one nor the database is a link (a dangling database link counts as none), the database can be copied, and all included files can be opened and have UTF-8 names; it holds each included file but sockets once, under its path, and its manifest lists all of them |
| WorkspaceBackup.GbkNameStopsBackup | marvis/backup.py:147-157 | a workspace of regular files without links whose backup fails because of a name that is not UTF-8 |
| WorkspaceBackup.AddDirectory | marvis/backup.py:132-150 | one directory adds exactly its non-excluded files to the inventory and, sockets apart, to the archive, in any listing order, or is refused because of a link or a file that cannot be opened |
| WorkspaceBackup.VisitDirectory | marvis/backup.py:126-150 | a missing directory is skipped; a link, or a file in it that cannot be opened, is refused |
| WorkspaceBackup.ValidateStagedWorkspace | marvis/backup.py:215-254 | accepts exactly when the staged manifest is the expected one, its inventory is well formed and equals the staged files, and the database is intact |
| WorkspaceBackup.DeviationsAreRefused | marvis/backup.py:215-254 | a staged workspace with a missing, added, repeated or miscounted file, or a database that fails its check, is refused |
| WorkspaceBackup.Extract | marvis/backup.py:308-309 | unpacking succeeds exactly when no member is a special file |
| WorkspaceBackup.UnpackedBackup | marvis/backup.py:110-166 | a backup unpacks to the backed-up part without sockets and its manifest, nothing lost and nothing added |
| WorkspaceBackup.BackupStages | marvis/backup.py:215-254 | a backup unpacks and passes validation exactly when its files are regular and the database snapshot is intact |
| WorkspaceBackup.MembersHaveContent | marvis/backup.py:110-166 | everything archived can be unpacked if and only if no pipe or device is among the backed-up files |
| WorkspaceBackup.BackupIsAccepted | marvis/backup.py:215-254 | what was unpacked passes validation if and only if no socket was listed and the database snapshot is intact |
| JobCancellation.NeverRegisteredAndPending | marvis/job_cancellation.py:40-68 | in every interleaving no job is both registered and pending |
| JobCancellation.UnregisterKeepsPending | marvis/job_cancellation.py:50-54 | unregistering never drops a pending request, although its code discards one |
| JobCancellation.UnregisterRemovesCurrent | marvis/job_cancellation.py:50-54 | unregistering the current token leaves the job neither registered nor pending, and every other entry as it was |
| JobCancellation.StepLeavesOthers | marvis/job_cancellation.py:40-68 | no call about one job changes the token or the mark of another |
| JobCancellation.UnregisteredIsNeverHit | marvis/job_cancellation.py:50-64 | a token unregistered before any request is cancelled by none that follow |
| JobCancellation.StaleNeverUnregisters | marvis/job_cancellation.py:50-54 | a token that was replaced or removed never again changes the registry, under any job id and after any events |
| JobCancellation.RequestFate | marvis/job_cancellation.py:56-64 | unless cleared, an accepted request ends in a cancelled or about-to-be-cancelled token of its job that was current then or registered later, or is still pending |
| JobCancellation.RequestHitsCurrent | marvis/job_cancellation.py:56-64 | a request for a registered job hits the token registered at that moment |
| JobCancellation.EarlyRequestHitsNext | marvis/job_cancellation.py:40-48 | a request that comes first hits the very next token registered for the job |
| JobCancellation.NoUncalledCancellation | marvis/job_cancellation.py:40-68 | the registry cancels no token whose job nobody asked to cancel |
| JobCancellation.MarkIsSpent | marvis/job_cancellation.py:40-48 | a mark cancels one registration only: later tokens of the job need a request of their own |
| JobCancellation.ClearedMarkHitsNothing | marvis/job_cancellation.py:40-68 | a mark that is cleared hits no token of the next registration unless somebody asks again |
| JobCancellation.JobCancellationRegistry.Register | marvis/job_cancellation.py:40-48 | the new token is current, the mark is used up, and the token is cancelled exactly when there was one |
| JobCancellation.JobCancellationRegistry.Unregister | marvis/job_cancellation.py:50-54 | with the current token the job is gone from both tables, with another nothing changes; no other entry does |
| JobCancellation.JobCancellationRegistry.RequestCancel | marvis/job_cancellation.py:56-64 | true exactly for registered jobs, whose token is then cancelled; otherwise the job is marked when that is allowed |
| JobCancellation.JobCancellationRegistry.ClearPending | marvis/job_cancellation.py:66-68 | only the mark is removed |
| JobCancellation.JobCancellationToken.RaiseIfCancelled | marvis/job_cancellation.py:22-24 | raises exactly when the token was cancelled |
| ProducibleFields.CandidateProducibleFields | marvis/api_scan_helpers.py:530-565 | terminates with exactly the least set that contains the columns and is closed under the transformations, after at most one strike per distinct dependency |
| ProducibleFields.Closure | marvis/api_scan_helpers.py:530-538 | that set is closed and contained in every closed set |
| ProducibleFields.ClosureUnique | marvis/api_scan_helpers.py:554-565 | whatever order fields are found in, a least closed set is this one |
| ProducibleFields.OrderIrrelevant | marvis/api_scan_helpers.py:530-565 | order and repetition of transformations do not change the result |
| ProducibleFields.CyclicOnlyExcluded | marvis/api_scan_helpers.py:535-538 | fields that can only be made from one another are not producible |
| ProducibleFields.ProducibleHasReason | marvis/api_scan_helpers.py:535-538 | every producible field beyond the columns has a transformation whose inputs are producible without it |
| ProducibleFields.Prepare | marvis/api_scan_helpers.py:540-553 | the first pass records what each transformation misses, who waits for each field, and queues what is ready |
| ProducibleFields.Release | marvis/api_scan_helpers.py:559-563 | finding a field strikes it off exactly the waiting transformations and queues those that became ready |
| InputContract.BuildContract | marvis/api_scan_helpers.py:310-396 | the contract awaits confirmation if and only if its conflict list is empty, which is if and only if all files were read without conflict and every required PMML input is derivable from the sample columns and admitted aliases |
| InputContract.AssembleContract | marvis/api_scan_helpers.py:418-502 | the same for given parts |
| InputContract.CheckManifest | marvis/api_scan_helpers.py:431-472 | a manifest raises no conflict exactly when algorithm, output and derivations are usable and all required inputs are derivable; its algorithm and outputs join the candidates |
| InputContract.ManifestKeepsCandidates | marvis/api_scan_helpers.py:428-451 | the candidates found in the notebook stay at the beginning of their lists, and lists other than the two of the manifest are unchanged |
| InputContract.ManifestCandidatesExactly | marvis/api_scan_helpers.py:431-451 | behind them the stripped algorithm, unless blank, ends the list for the algorithm, and the outputs that are not blank end the one for the output field |
| InputContract.NonBlankInOrder | marvis/api_scan_helpers.py:443-445 | the outputs that are not blank, in order |
| InputContract.SelectionsExactly | marvis/api_scan_helpers.py:473-502 | the metadata selections become a list of their own, in order, and change no other |
| InputContract.ReadMetadata | marvis/api_scan_helpers.py:361-380 | no conflict exactly when the metadata could be inspected and, if unambiguous, normalized |
| InputContract.AliasesEnlargeColumns | marvis/api_scan_helpers.py:399-415 | adding the admitted copies gives exactly the closure of the columns enlarged by the alias names |
| InputContract.BoundedConflicts | marvis/api_scan_helpers.py:568-575 | the first 64 conflicts, cut to 500 characters, each once in order of first occurrence; empty only if there was none |
| InputContract.FirstConflictsExactly | marvis/api_scan_helpers.py:568-575 | at most 64 conflicts, a longer text than 500 characters cut to 497 and three dots |
| InputContract.DistinctKeepsValues | marvis/api_scan_helpers.py:568-575 | removing repetitions keeps all values and leaves none twice |
| LlmRetry.Complete | marvis/llm_client.py:410-600 | for every sequence of openings and responses: between 1 and `max_retries`+1 attempts, one per response; another follows if and only if retries are left and the response is a server error that is not a context-length error, a failing connection, a time-out, or interrupted, malformed or blank before anything was heard; the last one ends the call by its own kind of error or its content, in exactly one record unless the call is lost |
| LlmRetry.Settle | marvis/llm_client.py:428-600 | an attempt is repeated exactly when its failure is transient, nothing was shown (time-outs and connection failures excepted) and retries are left |
| LlmRetry.RepeatsExactly | marvis/llm_client.py:427-570 | which responses are worth another attempt, said of status, lines and stop |
| LlmRetry.EndsExactly | marvis/llm_client.py:428-600 | how the call ends with each response: the error kind by status, opening or stop, or the cleaned content |
| LlmRetry.OneRecordExactly | marvis/llm_client.py:602-668 | a call that records leaves exactly one record, and none exactly when it is lost |
| LlmRetry.HearsLastAttemptOnly | marvis/llm_client.py:410-600 | the caller hears exactly the last attempt's chunks if and only if no earlier attempt timed out after a chunk |
| LlmRetry.CallHearsLastAttemptOnly | marvis/llm_client.py:410-600 | the same for the attempts of any call, whatever the responses |
| LlmRetry.ReturnsWhatWasHeard | marvis/llm_client.py:562-600 | streamed content that is returned is the clean-up of exactly what the caller heard |
| LlmRetry.StreamedAttempt | marvis/llm_client.py:815-845 | an attempt that reads a stream to its end gives as content exactly what the listening caller heard of it |
| LlmRetry.TimeoutDuplicates | marvis/llm_client.py:521-525 | a time-out after a chunk is repeated and the caller hears the text twice |
| LlmRetry.AttemptEscapesExactly | marvis/llm_client.py:427-531 | an attempt ends in an exception the loop does not handle if and only if opening or reading raises one, or a line or document that was read escapes |
| LlmRetry.CrashedOpeningLosesCall | marvis/llm_client.py:427-531 | after any attempts, a call whose opening raises such an exception ends there without a record |
| LlmRetry.InfiniteCountLosesCall | marvis/llm_client.py:602-668 | a good response with an infinite token count ends the call with an exception: nothing is returned, repeated or recorded |
| LlmResponse.EventEscapesExactly | marvis/llm_client.py:854-874 | a stream event raises an exception outside the handled ones if and only if the reader breaks, `choices` is a non-empty object, or a value cannot be printed |
| LlmResponse.DocumentEscapesExactly | marvis/llm_client.py:877-888 | a whole-document response does so if and only if the reader breaks, or there is content and a value cannot be printed |
| LlmResponse.EachKindEscapes | marvis/llm_client.py:854-888 | an input of each kind |
| LlmResponse.ReadCompletionContent | marvis/llm_client.py:815-851 | reading stops at `[DONE]`, at a bad event or with the stream; the chunks forwarded are the non-empty parts read so far |
| LlmResponse.HeardIsContent | marvis/llm_client.py:815-845 | for a stream read to its end the forwarded chunks add up to the content |
| LlmResponse.EventContentExactly | marvis/llm_client.py:854-874 | the content of an event is the delta's of its first choice, else the message's, else none |
| LlmResponse.DocumentContentExactly | marvis/llm_client.py:877-888 | a document is read for the message of its first choice, and malformed without one |
| LlmResponse.CountsAreLatest | marvis/llm_client.py:891-900 | each token count is the last one sent |
| LlmResponse.FinishExactly | marvis/llm_client.py:903-925 | finish reasons are lowered and trimmed, unknown ones become `other` |
| LlmResponse.ReasoningExactly | marvis/llm_client.py:920-925 | the reasoning text is the delta's, if there is a delta, else the message's |
| LlmRetry.TransportMaxRetries | marvis/llm_client.py:768-775 | one retry unless a number is configured, and never fewer than none |
| BusinessAcceptance.EvaluateBusinessAcceptance | marvis/business_acceptance.py:218-366 | passed if and only if the objective applies, the evidence is bound to it and every criterion is measured within its thresholds; failed if and only if all are measured and some is not |
| BusinessAcceptance.CheckBinding | marvis/business_acceptance.py:265-304 | no reason is given exactly when the evidence is authenticated, of the adopted object, in context and strong enough |
| BusinessAcceptance.BoundExactly | marvis/business_acceptance.py:265-304 | what binds evidence to the objective, field by field |
| BusinessAcceptance.MeetsExactly | marvis/business_acceptance.py:305-366 | a criterion is met if and only if the metric, measured in its unit and denominator, lies within the thresholds, which for a delta count from a baseline of the same kind: at least baseline plus minimum |
| BusinessAcceptance.ItemExactly | marvis/business_acceptance.py:305-366 | the row of a criterion shows whether it is met, missed or not measured |
| BusinessAcceptance.RequireObjectiveCoversLegacy | marvis/business_acceptance.py:405-460 | accepts exactly lists whose old thresholds are all minima on known ratios that the objective demands at least as strictly |
| BusinessAcceptance.CoveredExactly | marvis/business_acceptance.py:405-460 | a threshold is covered if and only if it is a bare minimum on one of nine ratio metrics and the last criterion of the metric asks for at least as much |
| BusinessAcceptance.BindBusinessCriteria | marvis/business_acceptance.py:463-471 | keeps each old threshold that equals, as Python compares, none kept before, and binds exactly when the objective covers all those kept |
| BusinessAcceptance.KeptRepresents | marvis/business_acceptance.py:463-467 | nothing but old thresholds is kept, no two of them equal, and every one of the list is kept or equals a kept one |
| BusinessAcceptance.TruthDependsOnOrder | marvis/business_acceptance.py:463-471 | a minimum written `true` is accepted behind an equal minimum 1 and refused in front of it |
| BusinessAcceptance.BindAndEvaluate | marvis/business_acceptance.py:218-471 | if old thresholds are bound to an objective and the adopted object then passes, its value meets every threshold kept, and so does the maximum over any candidates that include it; every other threshold equals a kept one |
| BusinessAcceptance.MaximumIsNeverCovered | marvis/business_acceptance.py:431-438 | no accepted old threshold carries a maximum |
| ByteRanges.SingleByteRange | marvis/download_snapshot.py:158-191 | a returned pair lies within the content, first not after last |
| ByteRanges.WholeExactly | marvis/download_snapshot.py:164-168 | everything is served if and only if there is no header, or it names another unit than `bytes` |
| ByteRanges.AgreesWithRfc | marvis/download_snapshot.py:158-191 | for every valid int-range and suffix-range in RFC form with readable numbers and every length, suffixes of empty content apart, the answer is the selection of RFC 9110 section 14.1.2 |
| ByteRanges.AllowedExactlyWhen | marvis/download_snapshot.py:158-191 | for every list of range-specs in RFC form, empty elements and white space included, the answer is one that section 14.2 leaves open if and only if it is a lone spec with numbers of at most 4300 digits and no suffix of empty content, or the specifier is invalid, excessive or not satisfiable |
| ByteRanges.CommaIsRefused | marvis/download_snapshot.py:168-170 | every bytes header with a comma in its value is answered with 416, whatever the white space |
| ByteRanges.SatisfiableListIsRefused | marvis/download_snapshot.py:168-170 | a valid list with a satisfiable range, or such a range beside an empty element, gets an answer section 14.2 does not leave open |
| ByteRanges.LongNumberIsRefused | marvis/download_snapshot.py:174-188 | so does a suffix of more than 4300 digits, whatever the length |
| ByteRanges.SuffixOfNothingIsRefused | marvis/download_snapshot.py:168-169 | so does every suffix of non-zero length when the content is empty |
| ByteRanges.ServedPartWasAsked | marvis/download_snapshot.py:158-191 | whenever a part is served, the header names a valid range-spec that selects exactly that part |
| ByteRanges.PrintedRangeIsRead | marvis/download_snapshot.py:158-191 | printing `bytes=a-b` and reading it gives a and the smaller of b and the last position |
| ByteRanges.ReversedRangeIsRefused | marvis/download_snapshot.py:188-190 | a reversed range is invalid and answered with 416, which section 14.2 leaves open |
| ByteRanges.LongNumbersAreRefused | marvis/download_snapshot.py:174-188 | a range with a number of more than 4300 digits is answered with 416 |
| ByteRanges.Snapshot.Chunks | marvis/download_snapshot.py:136-155 | for every schedule of short reads the chunks are exactly the requested bytes, none empty or over 64 KiB |
| ByteRanges.AttachmentResponse | marvis/download_snapshot.py:80-133 | for a stated content length, status, Content-Length and Content-Range (with 416 the length alone) follow the range, and the body is that stretch of the snapshot; without a request for bytes it is 200 and the whole |
| ByteRanges.AnswersDescribeBody | marvis/download_snapshot.py:80-133 | when the stated length is the snapshot's own, Content-Length counts the bytes sent and a part is bytes s to e |
| ByteRanges.VerifiedFileSnapshot | marvis/download_snapshot.py:27-77 | the copy is the whole file, and is kept exactly when size and hash are the required ones |
| StaticAssets.DecodeInvertsEncode | marvis/app.py:356-360 | decoding the length-prefixed stream returns the list of paths and contents |
| StaticAssets.SameInputSameAssets | marvis/app.py:349-364 | two lists of files feed the digest the same bytes if and only if their readable assets are the same |
| StaticAssets.DigestInput | marvis/app.py:349-361 | the loop feeds exactly the encoding of the readable files and counts them |
| StaticAssets.ReadableExactly | marvis/app.py:349-361 | what is hashed are path and content of each file that can be read, in order |
| StaticAssets.StaticAssetVersion | marvis/app.py:335-364 | the plain version without readable assets, otherwise the version with the digest of their encoding |

## Left out

- Python's parser, `jsonschema`, SQLite, tarfile, HTTP and SHA-256 themselves: drafts start from a syntax tree,
  schemas from JSON values, hashes are parameters.
- Draft runs: calls, operators, iteration and truth are answered by an arbitrary world, which also decides when which
  generators are run; while loops, functions and classes inside drafts are refused and not modelled further.
- Wording of error messages, and the reasons given to users in Chinese, except where a list of them decides a status.
- CheckOutputSchema: the check against the meta-schema and the envelope's name and strictness are not modelled.
- Validators: where a reference leads a validator is a parameter. It has to read pointers without `%` by their names and
  to find anchors at objects; `$dynamicRef` is followed like `$ref`, since a document is one resource.
- Schemas: the text policies, and the reading of a pointer segment as a list index, which is a parameter.
- CheckSchemaLimits: the printed length of a float is data of the value, and texts hold no lone surrogates, which
  have no UTF-8 encoding.
- Ledger tables: checks that compare a column with one constant, `json_valid`, `created_at`/`updated_at` values, and
  SQLite's storing of text in INTEGER columns, with which numbering and the single writer fail (a revision `'2abc'` is
  let in beside 2, as `'2abc' - 1` is 1); statements that change several rows are runs of single-row statements,
  `INSERT OR REPLACE` is excluded, other tables that refer to tasks would only abort more statements.
- Two processes running `init_db` at once; what the 46 migrations do, apart from migrations 10, 19, 20 and 21, whose
  tables are modelled as guards.
- Restore: interrupts inside the error handler itself, faults of the checks (as opposed to renames, `rmdir` and
  `mkdir`), and clean-up of the scratch directory that fails.
- Backup: folders that cannot be listed or searched, the path checks on the output file, the atomic replacement of the
  output, the order of the listing, the layout of the manifest, and changes to the workspace while it is being archived.
- Cancellation: fairness of threads; a cancellation decided under the lock is carried out eventually, not by a deadline.
- Contract assembly: evidence attached to candidates, hashes of the files, and the sorting of aliases (any order is
  allowed, none changes the result).
- LLM calls: everything before the loop (profile checks, token budget), latency and the token counts that records show,
  traces, the wait between attempts, and callbacks that raise.
- Business acceptance: rounding and overflow of differences (values are reals), trimming of texts and parsing of dates
  in the constructors, and the projection of results for display.
- Byte ranges: header values are Latin-1, as the server decodes them; disposition and media type headers are not modelled.
- Static assets: UTF-8 encoding of paths and the file listing; lengths of 2^64 and more.
- Branding, routes, command line, prompt builders and the pydantic request models: they would only add easy members.
