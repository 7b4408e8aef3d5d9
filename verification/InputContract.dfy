/** Assembling the validation input contract, and when it may be confirmed. */
module InputContract {
  import opened Prelude
  import opened ProducibleFields
  import opened PythonText

  /** What a reader of a selected file gives: its content, or the message of its ValueError. */
  datatype Reading<T> = Read(value: T) | Unreadable(message: string)

  datatype Selection = Selection(sheet: string, feature: string, category: string, importance: string)

  datatype Candidate = Text(text: string) | Columns(selection: Selection)

  datatype Fields = Fields(candidates: map<string, seq<Candidate>>, transformations: seq<Transformation>, conflicts: seq<string>)

  datatype Manifest = Manifest(algorithm: string, outputs: seq<string>, unsupported: seq<string>, required: seq<string>)

  datatype Inspection = Inspection(selections: seq<Selection>, blocking: seq<string>)

  datatype Status = Blocked | PendingConfirmation

  datatype Contract = Contract(
    status: Status, candidates: map<string, seq<Candidate>>, columns: Option<seq<string>>, manifest: Option<Manifest>,
    metadata: Option<string>, transformations: seq<Transformation>, conflicts: seq<string>)

  function Range(s: seq<string>): set<string> {
    set x | x in s
  }

  // ---- Text ----

  function Join(parts: seq<string>): string {
    if parts == [] then "" else if |parts| == 1 then parts[0] else parts[0] + ", " + Join(parts[1..])
  }

  // ---- Conflict lists ----

  const MAX_CONFLICTS := 64
  const MAX_TEXT := 500

  function Bounded(text: string): (r: string)
    ensures |r| <= MAX_TEXT && (|text| <= MAX_TEXT ==> r == text)
  {
    if |text| <= MAX_TEXT then text else text[..MAX_TEXT - 3] + "..."
  }

  function FirstConflicts(values: seq<string>): (r: seq<string>)
    ensures |r| <= MAX_CONFLICTS && forall x | x in r :: |x| <= MAX_TEXT
    ensures r == [] <==> values == []
  {
    var n := if |values| < MAX_CONFLICTS then |values| else MAX_CONFLICTS;
    seq(n, i requires 0 <= i < n => Bounded(values[i]))
  }

  /** At most 64 of them, each with at most 500 characters, the last three of a longer one being dots. */
  lemma FirstConflictsExactly(values: seq<string>)
    ensures |FirstConflicts(values)| == if |values| < 64 then |values| else 64
    ensures forall i | 0 <= i < |FirstConflicts(values)| ::
      FirstConflicts(values)[i] == if |values[i]| <= 500 then values[i] else values[i][..497] + "..."
  {
  }

  /** Each value once, where it first occurs. */
  function Distinct(s: seq<string>): (r: seq<string>)
    ensures |r| <= |s|
  {
    if s == [] then []
    else
      var r := Distinct(s[..|s| - 1]);
      if s[|s| - 1] in r then r else r + [s[|s| - 1]]
  }

  /** The same values, none of them twice. */
  lemma {:induction false} DistinctKeepsValues(s: seq<string>)
    ensures forall x :: x in Distinct(s) <==> x in s
    ensures forall i, j | 0 <= i < j < |Distinct(s)| :: Distinct(s)[i] != Distinct(s)[j]
  {
    if s != [] {
      DistinctKeepsValues(s[..|s| - 1]);
      assert s == s[..|s| - 1] + [s[|s| - 1]];
    }
  }

  lemma DistinctAppends(s: seq<string>, x: string)
    ensures Distinct(s + [x]) == if x in Distinct(s) then Distinct(s) else Distinct(s) + [x]
  {
    assert (s + [x])[..|s|] == s;
  }

  lemma PrefixGrows(all: seq<string>, i: nat)
    requires i < |all|
    ensures all[..i + 1] == all[..i] + [all[i]]
  {
  }

  /** The loop over the first conflicts; `all` is what they are cut down to. */
  method KeepDistinct(some: seq<string>, ghost all: seq<string>) returns (r: seq<string>)
    requires |all| == |some| && forall i | 0 <= i < |some| :: all[i] == Bounded(some[i])
    ensures r == Distinct(all)
  {
    r := [];
    ghost var done: seq<string> := [];
    for i := 0 to |some|
      invariant done == all[..i] && r == Distinct(done)
    {
      var bounded := Bounded(some[i]);
      DistinctAppends(done, bounded);
      PrefixGrows(all, i);
      done := done + [bounded];
      r := if bounded in r then r else r + [bounded];
    }
    assert done == all;
  }

  lemma DistinctEmpty(s: seq<string>)
    ensures Distinct(s) == [] <==> s == []
  {
    DistinctKeepsValues(s);
    if s != [] { assert s[0] in s; }
  }

  method BoundedConflicts(values: seq<string>) returns (r: seq<string>)
    ensures r == Distinct(FirstConflicts(values))
    ensures r == [] <==> values == []
  {
    DistinctEmpty(FirstConflicts(values));
    r := KeepDistinct(if |values| < MAX_CONFLICTS then values else values[..MAX_CONFLICTS], FirstConflicts(values));
  }

  // ---- Aliases ----

  /** Aliases that become copies: the column is in the sample and the field is not there or made already. */
  function Admitted(aliases: map<string, string>, columns: set<string>, ts: seq<Transformation>): set<string> {
    set name | name in aliases && name !in columns && aliases[name] in columns && name !in Outputs(ts)
  }

  lemma AdmittedExactly(aliases: map<string, string>, columns: set<string>, ts: seq<Transformation>)
    ensures Admitted(aliases, columns, ts) ==
      set name | name in aliases && name !in columns && aliases[name] in columns && !exists t | t in ts :: t.output == name
  {
  }

  /** The copies, in the order in which the aliases are listed. */
  function Copies(names: seq<string>, aliases: map<string, string>, admitted: set<string>): (r: seq<Transformation>)
    requires admitted <= aliases.Keys
    ensures forall t :: t in r <==> t.output in names && t.output in admitted && t.inputs == [aliases[t.output]]
  {
    if names == [] then []
    else (if names[0] in admitted then [Transformation(names[0], [aliases[names[0]]])] else [])
         + Copies(names[1..], aliases, admitted)
  }

  /** `names` lists the aliases; the source sorts them, but no result depends on the order. */
  function WithAliasTransformations(fields: Fields, names: seq<string>, aliases: map<string, string>,
                                    columns: set<string>): Fields {
    fields.(transformations :=
      fields.transformations + Copies(names, aliases, Admitted(aliases, columns, fields.transformations)))
  }

  lemma CopiesClosed(names: seq<string>, aliases: map<string, string>, columns: set<string>, ts: seq<Transformation>,
                     s: set<string>)
    requires Range(names) == aliases.Keys
    ensures Closed(columns, ts + Copies(names, aliases, Admitted(aliases, columns, ts)), s)
        <==> Closed(columns + Admitted(aliases, columns, ts), ts, s)
  {
    var admitted := Admitted(aliases, columns, ts);
    var copies := Copies(names, aliases, admitted);
    if Closed(columns, ts + copies, s) {
      forall name | name in admitted ensures name in s {
        assert name in Range(names);
        var t := Transformation(name, [aliases[name]]);
        assert t in ts + copies && Needs(t) <= s;
      }
      forall t | t in ts && Needs(t) <= s ensures t.output in s { assert t in ts + copies; }
    }
  }

  /** Adding the admitted copies gives exactly the closure of the columns enlarged by the alias names. */
  lemma AliasesEnlargeColumns(names: seq<string>, aliases: map<string, string>, columns: set<string>,
                              ts: seq<Transformation>)
    requires Range(names) == aliases.Keys
    ensures Closure(columns, ts + Copies(names, aliases, Admitted(aliases, columns, ts)))
         == Closure(columns + Admitted(aliases, columns, ts), ts)
  {
    var more := ts + Copies(names, aliases, Admitted(aliases, columns, ts));
    forall s ensures Closed(columns, more, s) <==> Closed(columns + Admitted(aliases, columns, ts), ts, s) {
      CopiesClosed(names, aliases, columns, ts, s);
    }
  }

  // ---- The contract ----

  /** Every required input can be derived from the sample. */
  ghost predicate Derivable(required: seq<string>, columns: set<string>, ts: seq<Transformation>) {
    forall name | name in required :: name in Closure(columns, ts)
  }

  /** What a contract needs to be put up for confirmation. */
  ghost predicate Acceptable(columns: Option<seq<string>>, fields: Fields, manifest: Option<Manifest>,
                             selections: seq<Selection>, conflicts: seq<string>) {
    && fields.conflicts == [] && conflicts == [] && selections != []
    && (manifest.Some? ==>
          && !Blank(manifest.value.algorithm)
          && (exists o | o in manifest.value.outputs :: !Blank(o))
          && manifest.value.unsupported == []
          && (columns.Some? ==> Derivable(manifest.value.required, Range(columns.value), fields.transformations)))
  }

  function Lookup(candidates: map<string, seq<Candidate>>, name: string): seq<Candidate> {
    if name in candidates then candidates[name] else []
  }

  /** The values that are not blank. */
  function NonBlank(values: seq<string>): (r: seq<string>)
    ensures forall x :: x in r <==> x in values && !Blank(x)
  {
    if values == [] then []
    else
      StripEmptyExactlyWhenBlank(values[0]);
      (if Strip(values[0]) != "" then [values[0]] else []) + NonBlank(values[1..])
  }

  function Texts(values: seq<string>): seq<Candidate> {
    seq(|values|, i requires 0 <= i < |values| => Text(values[i]))
  }

  /** Required names that are not producible, in order. */
  function Missing(required: seq<string>, producible: set<string>): (r: seq<string>)
    ensures r == [] <==> forall name | name in required :: name in producible
    ensures forall name :: name in r <==> name in required && name !in producible
  {
    if required == [] then []
    else (if required[0] !in producible then [required[0]] else []) + Missing(required[1..], producible)
  }

  /** One more value at the end of a candidate list. */
  function Added(candidates: map<string, seq<Candidate>>, name: string, more: seq<Candidate>): map<string,
                 seq<Candidate>> {
    if more == [] then candidates else candidates[name := Lookup(candidates, name) + more]
  }

  /** The manifest's algorithm and outputs join the candidates found in the notebook. */
  function WithManifest(candidates: map<string, seq<Candidate>>, m: Manifest): map<string, seq<Candidate>> {
    Added(Added(candidates, "algorithm", Texts(NonBlank([Strip(m.algorithm)]))), "pmml_output_field", Texts(NonBlank(m.outputs)))
  }

  /** No candidate is lost or reordered: the lists of the notebook are beginnings of the new ones. */
  lemma ManifestKeepsCandidates(candidates: map<string, seq<Candidate>>, m: Manifest, name: string)
    ensures Lookup(candidates, name) <= Lookup(WithManifest(candidates, m), name)
    ensures name != "algorithm" && name != "pmml_output_field" ==> Lookup(WithManifest(candidates, m), name) == Lookup(candidates, name)
  {
  }

  lemma NonBlankAlone(v: string)
    ensures NonBlank([]) == [] && NonBlank([v]) == if Blank(v) then [] else [v]
  {
    StripEmptyExactlyWhenBlank(v);
    assert [v][1..] == [];
  }

  function IfNotBlank(v: string): seq<string> {
    if Strip(v) != "" then [v] else []
  }

  lemma NonBlankFirst(values: seq<string>)
    requires values != []
    ensures NonBlank(values) == IfNotBlank(values[0]) + NonBlank(values[1..])
  {
    hide Strip, Blank;
  }

  /** The values that are not blank, in order. */
  lemma {:induction false} NonBlankInOrder(values: seq<string>, more: seq<string>)
    ensures NonBlank(values + more) == NonBlank(values) + NonBlank(more)
  {
    hide NonBlank;
    if values == [] {
      NonBlankAlone("");
      assert values + more == more;
    } else {
      NonBlankInOrder(values[1..], more);
      assert (values + more)[1..] == values[1..] + more && (values + more)[0] == values[0];
      NonBlankFirst(values + more);
      NonBlankFirst(values);
    }
  }

  /**
   * Behind what the notebook gave, the stripped algorithm is the last candidate for the algorithm if it is not blank, and
   * the outputs that are not blank end the list for the output field, in order and as they are.
   */
  lemma ManifestCandidatesExactly(candidates: map<string, seq<Candidate>>, m: Manifest)
    ensures var all := WithManifest(candidates, m);
      && Lookup(all, "algorithm")
         == Lookup(candidates, "algorithm") + (if Blank(m.algorithm) then [] else [Text(Strip(m.algorithm))])
      && |Lookup(all, "pmml_output_field")| == |Lookup(candidates, "pmml_output_field")| + |NonBlank(m.outputs)|
      && forall i | 0 <= i < |NonBlank(m.outputs)| ::
           Lookup(all, "pmml_output_field")[|Lookup(candidates, "pmml_output_field")| + i] == Text(NonBlank(m.outputs)[i])
  {
    hide NonBlank, Strip, Blank, Lookup;
    assert "algorithm"[0] != "pmml_output_field"[0];
    AlgorithmCandidate(m.algorithm);
    var first := Texts(NonBlank([Strip(m.algorithm)]));
    AddedExactly(candidates, "algorithm", first, "pmml_output_field");
    AddedExactly(Added(candidates, "algorithm", first), "pmml_output_field", Texts(NonBlank(m.outputs)), "algorithm");
  }

  lemma AddedExactly(candidates: map<string, seq<Candidate>>, name: string, more: seq<Candidate>, other: string)
    requires other != name
    ensures Lookup(Added(candidates, name, more), name) == Lookup(candidates, name) + more
    ensures Lookup(Added(candidates, name, more), other) == Lookup(candidates, other)
  {
  }

  function Selected(candidates: map<string, seq<Candidate>>, selections: seq<Selection>): map<string, seq<Candidate>> {
    if selections == [] then candidates
    else candidates["feature_metadata_selection" := seq(|selections|, i requires 0 <= i < |selections| => Columns(selections[i]))]
  }

  /** The selections become the candidates of their own list, in order, and no other list changes. */
  lemma SelectionsExactly(candidates: map<string, seq<Candidate>>, selections: seq<Selection>, name: string)
    ensures var list := Lookup(Selected(candidates, selections), "feature_metadata_selection");
      selections != [] ==> |list| == |selections| && forall i | 0 <= i < |list| :: list[i] == Columns(selections[i])
    ensures name != "feature_metadata_selection" || selections == [] ==>
      Lookup(Selected(candidates, selections), name) == Lookup(candidates, name)
  {
  }

  /** Stripping twice is stripping once, so a non-empty stripped text is not blank. */
  lemma {:induction false} StrippedIsNotBlank(s: string)
    ensures Strip(s) != "" ==> !Blank(Strip(s))
    decreases |s|
  {
    if s == "" {
    } else if IsSpace(s[0]) {
      StrippedIsNotBlank(s[1..]);
    } else if IsSpace(s[|s| - 1]) {
      StrippedIsNotBlank(s[..|s| - 1]);
    } else {
      assert s[0] in s;
    }
  }

  /** The stripped algorithm is a candidate exactly when it is not blank. */
  lemma AlgorithmCandidate(algorithm: string)
    ensures Texts(NonBlank([Strip(algorithm)])) == if Blank(algorithm) then [] else [Text(Strip(algorithm))]
  {
    var stripped := Strip(algorithm);
    StripEmptyExactlyWhenBlank(algorithm);
    StrippedIsNotBlank(algorithm);
    StripEmptyExactlyWhenBlank(stripped);
    assert NonBlank([stripped]) == (if Strip(stripped) != "" then [stripped] else []) + NonBlank([stripped][1..]);
  }

  /** Algorithm and outputs of the manifest. */
  method ReadManifest(fields: Fields, m: Manifest) returns (candidates: map<string, seq<Candidate>>, hard: seq<string>)
    ensures hard == [] <==> !Blank(m.algorithm) && exists o | o in m.outputs :: !Blank(o)
    ensures candidates == WithManifest(fields.candidates, m)
  {
    candidates, hard := fields.candidates, [];
    var algorithm := Strip(m.algorithm);
    StripEmptyExactlyWhenBlank(m.algorithm);
    AlgorithmCandidate(m.algorithm);
    if algorithm != "" {
      candidates := candidates["algorithm" := Lookup(candidates, "algorithm") + [Text(algorithm)]];
    } else {
      hard := hard + ["PMML algorithm is unavailable"];
    }
    var outputs := NonBlank(m.outputs);
    if outputs != [] {
      assert outputs[0] in outputs;
      candidates := candidates["pmml_output_field" := Lookup(candidates, "pmml_output_field") + Texts(outputs)];
    } else {
      hard := hard + ["PMML output field is unavailable"];
    }
  }

  /** Conflicts and candidates that come from the PMML manifest. */
  method CheckManifest(columns: Option<seq<string>>, fields: Fields, m: Manifest)
    returns (candidates: map<string, seq<Candidate>>, hard: seq<string>)
    ensures hard == [] <==>
      && !Blank(m.algorithm) && (exists o | o in m.outputs :: !Blank(o)) && m.unsupported == []
      && (columns.Some? ==> Derivable(m.required, Range(columns.value), fields.transformations))
    ensures candidates == WithManifest(fields.candidates, m)
  {
    candidates, hard := ReadManifest(fields, m);
    if m.unsupported != [] {
      hard := hard + ["unsupported PMML stress dependencies: " + Join(m.unsupported)];
    }
    if columns.Some? {
      var producible, _ := CandidateProducibleFields(Range(columns.value), fields.transformations);
      var missing := Missing(m.required, producible);
      if missing != [] {
        hard := hard + ["sample missing required PMML inputs: " + Join(missing)];
      }
    }
  }

  /**
   * A contract is put up for confirmation exactly when its conflict list is empty, and exactly when
   * everything it needs is there.
   */
  method AssembleContract(columns: Option<seq<string>>, fields: Fields, manifest: Option<Manifest>,
                          metadata: Option<string>,
                          selections: seq<Selection>, conflicts: seq<string>)
    returns (c: Contract)
    ensures c.status == PendingConfirmation <==> c.conflicts == []
    ensures c.status == PendingConfirmation <==> Acceptable(columns, fields, manifest, selections, conflicts)
    ensures c.columns == columns && c.manifest == manifest && c.metadata == metadata && c.transformations == fields.transformations
    ensures c.candidates == Selected(if manifest.Some? then WithManifest(fields.candidates, manifest.value) else fields.candidates, selections)
    ensures |c.conflicts| <= MAX_CONFLICTS
  {
    hide Blank, NonBlank, WithManifest, Derivable, Distinct, FirstConflicts;
    var candidates, hard := fields.candidates, fields.conflicts + conflicts;
    if manifest.Some? {
      var more;
      candidates, more := CheckManifest(columns, fields, manifest.value);
      hard := hard + more;
    }
    if selections != [] {
      candidates := candidates["feature_metadata_selection" :=
        seq(|selections|, i requires 0 <= i < |selections| => Columns(selections[i]))];
    } else {
      hard := hard + ["feature metadata selection is unavailable"];
    }
    var bounded := BoundedConflicts(hard);
    c := Contract(if hard != [] then Blocked else PendingConfirmation, candidates, columns, manifest, metadata,
                  fields.transformations, bounded);
  }

  function Prefixed(prefix: string, messages: seq<string>): seq<string> {
    seq(|messages|, i requires 0 <= i < |messages| => prefix + messages[i])
  }

  /** The metadata file could be inspected, raised no blocking error, and its only selection could be normalized. */
  predicate MetadataClean(inspection: Reading<Inspection>, normalized: Reading<string>) {
    && inspection.Read? && inspection.value.blocking == []
    && (|inspection.value.selections| == 1 ==> normalized.Read?)
  }

  /** The feature metadata, if the manifest could be read. */
  method ReadMetadata(pmml: Reading<Manifest>, inspection: Reading<Inspection>, normalized: Reading<string>)
    returns (selections: seq<Selection>, metadata: Option<string>, conflicts: seq<string>)
    ensures conflicts == [] <==> pmml.Read? && MetadataClean(inspection, normalized)
    ensures pmml.Read? && inspection.Read? ==> selections == inspection.value.selections
    ensures metadata.Some? ==> normalized == Read(metadata.value) && |selections| == 1
  {
    selections, metadata, conflicts := [], None, [];
    if pmml.Unreadable? {
      conflicts := ["feature metadata: PMML manifest is unavailable"];
    } else if inspection.Unreadable? {
      conflicts := ["feature metadata: " + inspection.message];
    } else {
      selections := inspection.value.selections;
      conflicts := Prefixed("feature metadata: ", inspection.value.blocking);
      if |selections| == 1 {
        match normalized
        case Read(m) => metadata := Some(m);
        case Unreadable(message) => conflicts := conflicts + ["feature metadata: " + message];
      }
    }
  }

  /**
   * The contract built from the four selected files.  It can be confirmed exactly when all of them were read
   * without a conflict and every required PMML input is derivable from the sample columns and the admitted alias names.
   */
  method BuildContract(sample: Reading<seq<string>>, notebook: Reading<Fields>, pmml: Reading<Manifest>,
                       inspection: Reading<Inspection>, normalized: Reading<string>, names: seq<string>, aliases: map<string, string>)
    returns (c: Contract)
    requires Range(names) == aliases.Keys
    ensures c.status == PendingConfirmation <==> c.conflicts == []
    ensures c.status == PendingConfirmation <==>
      && sample.Read? && notebook.Read? && pmml.Read? && MetadataClean(inspection, normalized)
      && notebook.value.conflicts == [] && inspection.value.selections != []
      && !Blank(pmml.value.algorithm) && (exists o | o in pmml.value.outputs :: !Blank(o)) && pmml.value.unsupported == []
      && var columns, ts := Range(sample.value), notebook.value.transformations;
         var more := set name | name in aliases && name !in columns && aliases[name] in columns
                                && !exists t | t in ts :: t.output == name;
         Derivable(pmml.value.required, columns + more, ts)
  {
    var conflicts := [];
    var columns := None;
    match sample {
      case Read(names) => columns := Some(names);
      case Unreadable(message) => conflicts := ["sample: " + message];
    }
    var fields := match notebook
      case Read(f) => f
      case Unreadable(message) => Fields(map[], [], ["Notebook: " + message]);
    ghost var recognized := fields;
    if columns.Some? {
      fields := WithAliasTransformations(fields, names, aliases, Range(columns.value));
      AliasesEnlargeColumns(names, aliases, Range(columns.value), recognized.transformations);
      AdmittedExactly(aliases, Range(columns.value), recognized.transformations);
    }
    var manifest := None;
    match pmml {
      case Read(m) => manifest := Some(m);
      case Unreadable(message) => conflicts := conflicts + ["PMML: " + message];
    }
    var selections, metadata, more := ReadMetadata(pmml, inspection, normalized);
    c := AssembleContract(columns, fields, manifest, metadata, selections, conflicts + more);
  }
}
