/** Judging an adopted object against a business objective, and when an objective may replace old thresholds. */
module BusinessAcceptance {
  import opened Prelude

  /**
   * A value of Python's JSON reader.  A NaN is the object it is, since containers compare identities first; `NotFinite`
   * is an infinite number or an integer beyond the range of a float, as it is printed.
   */
  datatype Datum =
    | Null
    | Truth(b: bool)
    | Number(value: real)
    | NotANumber(object: nat)
    | NotFinite(shown: string)
    | Text(text: string)
    | List(items: seq<Datum>)
    | Object(fields: map<string, Datum>)

  datatype Comparison = Absolute | Delta

  datatype Criterion = Criterion(
    metric: string, unit: string, denominator: string,
    minimum: Option<real>, maximum: Option<real>, comparison: Comparison, baselineRef: Option<string>)

  datatype Objective = Objective(
    businessLine: string, decisionNode: string, population: string, periodStart: string, periodEnd: string,
    targetKind: string, criteria: seq<Criterion>, targetId: Option<string>, targetVersion: Option<string>,
    currency: Option<string>, minimumStage: nat, requireMatureLabels: bool, causal: bool,
    applicable: bool, allowNotApplicable: bool, reason: Option<string>)

  /** What a baseline was measured on. */
  datatype Context = Context(
    businessLine: Option<string>, decisionNode: Option<string>, population: Option<string>,
    periodStart: Option<string>, periodEnd: Option<string>, currency: Option<string>)

  datatype Evidence = Evidence(
    targetKind: string, targetId: string, targetVersion: string, sourceRef: string, sourceHash: string,
    metrics: map<string, Datum>, units: map<string, string>, denominators: map<string, string>,
    context: Context, stage: Option<nat>, labelsMature: bool, labelOrigin: Option<string>,
    baselineRef: Option<string>, baselineMetrics: map<string, Datum>, baselineHash: string,
    baselineContext: Context, baselineUnits: map<string, string>, baselineDenominators: map<string, string>,
    causalRef: Option<string>)

  /** estimated, backtested, oot_validated, post_launch_observed. */
  const LAST_STAGE := 3

  // ---- Contracts ----

  /** The checks of a criterion's constructor. */
  predicate CriterionOk(c: Criterion) {
    && c.metric != "" && c.unit != "" && c.denominator != ""
    && (c.minimum.Some? || c.maximum.Some?)
    && (c.minimum.Some? && c.maximum.Some? ==> c.minimum.value <= c.maximum.value)
    && (c.comparison.Delta? <==> c.baselineRef.Some?) && c.baselineRef != Some("")
  }

  predicate DistinctMetrics(criteria: seq<Criterion>) {
    forall i, j | 0 <= i < j < |criteria| :: criteria[i].metric != criteria[j].metric
  }

  predicate IsCurrency(unit: string) {
    unit == "currency" || "currency_" <= unit
  }

  /** The checks of an objective's constructor. */
  predicate ObjectiveOk(o: Objective) {
    && (!o.applicable ==> o.allowNotApplicable && o.reason.Some?)
    && (o.applicable ==> o.criteria != [])
    && (forall c | c in o.criteria :: CriterionOk(c)) && DistinctMetrics(o.criteria)
    && ((exists c | c in o.criteria :: IsCurrency(c.unit)) ==> o.currency.Some?)
    && o.minimumStage <= LAST_STAGE
  }

  // ---- Evaluation ----

  predicate IsSourceHash(s: string) {
    |s| == 71 && s[..7] == "sha256:" && IsHash(s[7..])
  }

  function Get<V>(m: map<string, V>, key: string): Option<V> {
    if key in m then Some(m[key]) else None
  }

  /** `_finite` of an entry that may be absent. */
  function Finite(m: map<string, Datum>, key: string): Option<real> {
    if key in m && m[key].Number? then Some(m[key].value) else None
  }

  function ObjectiveContext(o: Objective): Context {
    Context(Some(o.businessLine), Some(o.decisionNode), Some(o.population), Some(o.periodStart), Some(o.periodEnd), o.currency)
  }

  /** The evidence is about the adopted object, authenticated, in context and strong enough. */
  predicate Bound(o: Objective, e: Evidence) {
    && e.targetKind == o.targetKind && e.targetId != "" && e.targetVersion != ""
    && (o.targetId.Some? ==> o.targetId.value == e.targetId)
    && (o.targetVersion.Some? ==> o.targetVersion.value == e.targetVersion)
    && e.sourceRef != "" && IsSourceHash(e.sourceHash)
    && e.context == ObjectiveContext(o)
    && e.stage.Some? && o.minimumStage <= e.stage.value <= LAST_STAGE
    && (o.requireMatureLabels ==> e.labelsMature && e.labelOrigin == Some("observed"))
    && (o.causal ==> e.stage == Some(LAST_STAGE) && e.causalRef.Some? && e.causalRef.value != "")
  }

  /** The same field by field, with the digest and the ranks of the stages written out. */
  lemma BoundExactly(o: Objective, e: Evidence)
    ensures Bound(o, e) <==>
      && e.targetKind == o.targetKind && |e.targetId| > 0 && |e.targetVersion| > 0 && |e.sourceRef| > 0
      && (o.targetId == None || o.targetId == Some(e.targetId))
      && (o.targetVersion == None || o.targetVersion == Some(e.targetVersion))
      && |e.sourceHash| == 71 && e.sourceHash[..7] == "sha256:"
      && (forall i | 7 <= i < 71 :: '0' <= e.sourceHash[i] <= '9' || 'a' <= e.sourceHash[i] <= 'f')
      && e.context.businessLine == Some(o.businessLine) && e.context.decisionNode == Some(o.decisionNode)
      && e.context.population == Some(o.population) && e.context.currency == o.currency
      && e.context.periodStart == Some(o.periodStart) && e.context.periodEnd == Some(o.periodEnd)
      && e.stage.Some? && o.minimumStage <= e.stage.value <= 3
      && (!o.requireMatureLabels || (e.labelsMature && e.labelOrigin == Some("observed")))
      && (!o.causal || (e.stage == Some(3) && e.causalRef.Some? && |e.causalRef.value| > 0))
  {
    if IsSourceHash(e.sourceHash) {
      forall i | 7 <= i < 71 ensures '0' <= e.sourceHash[i] <= '9' || 'a' <= e.sourceHash[i] <= 'f' {
        assert e.sourceHash[i] == e.sourceHash[7..][i - 7] && IsHex(e.sourceHash[7..][i - 7]);
      }
    }
  }

  /** The value a criterion is judged by: measured in its unit, and for a delta against a matching baseline. */
  function Measured(c: Criterion, e: Evidence): Option<real> {
    var value := Finite(e.metrics, c.metric);
    if value.None? || Get(e.units, c.metric) != Some(c.unit) || Get(e.denominators, c.metric) != Some(c.denominator) then None
    else if c.comparison.Absolute? then value
    else
      var baseline := Finite(e.baselineMetrics, c.metric);
      if e.baselineRef != c.baselineRef || !IsSourceHash(e.baselineHash) || e.baselineContext != e.context
         || Get(e.baselineUnits, c.metric) != Some(c.unit) || Get(e.baselineDenominators, c.metric) != Some(c.denominator)
         || baseline.None? then None
      else Some(value.value - baseline.value)
  }

  predicate Within(c: Criterion, value: real) {
    (c.minimum.Some? ==> value >= c.minimum.value) && (c.maximum.Some? ==> value <= c.maximum.value)
  }

  predicate Meets(c: Criterion, e: Evidence) {
    Measured(c, e).Some? && Within(c, Measured(c, e).value)
  }

  /**
   * A criterion is met exactly when the metric is measured in its unit and denominator and lies within the thresholds;
   * for a delta these count from the baseline, which has to be the criterion's, authenticated, from the same context and
   * measured alike.
   */
  lemma MeetsExactly(c: Criterion, e: Evidence)
    ensures Meets(c, e) <==>
      && c.metric in e.metrics && e.metrics[c.metric].Number?
      && c.metric in e.units && e.units[c.metric] == c.unit
      && c.metric in e.denominators && e.denominators[c.metric] == c.denominator
      && var value := e.metrics[c.metric].value;
         if c.comparison == Absolute then
           (c.minimum.Some? ==> value >= c.minimum.value) && (c.maximum.Some? ==> value <= c.maximum.value)
         else
           && e.baselineRef == c.baselineRef && IsSourceHash(e.baselineHash) && e.baselineContext == e.context
           && c.metric in e.baselineMetrics && e.baselineMetrics[c.metric].Number?
           && c.metric in e.baselineUnits && e.baselineUnits[c.metric] == c.unit
           && c.metric in e.baselineDenominators && e.baselineDenominators[c.metric] == c.denominator
           && var baseline := e.baselineMetrics[c.metric].value;
              && (c.minimum.Some? ==> value >= baseline + c.minimum.value)
              && (c.maximum.Some? ==> value <= baseline + c.maximum.value)
  {
  }

  datatype Status = Passed | Failed | InsufficientEvidence | NotConfigured | NotApplicable

  datatype Item = Item(metric: string, value: Option<real>, status: Status)

  datatype Reason =
    | NoObjective | Stated(text: string) | NoEvidence | TargetUnbound | WrongTarget | WrongVersion | NoSource
    | WrongContext | StageTooLow | LabelsImmature | NotCausal | NotMeasured(metric: string) | Missed(metric: string)

  datatype Acceptance = Acceptance(status: Status, criteria: seq<Item>, reasons: seq<Reason>)

  /** The context fields one by one: each that differs is a reason. */
  method CheckContext(given: Context, wanted: Context) returns (missing: seq<Reason>)
    ensures missing == [] <==> given == wanted
  {
    var pairs := [
      (given.businessLine, wanted.businessLine), (given.decisionNode, wanted.decisionNode),
      (given.population, wanted.population), (given.periodStart, wanted.periodStart),
      (given.periodEnd, wanted.periodEnd), (given.currency, wanted.currency)];
    missing := [];
    for i := 0 to |pairs|
      invariant missing == [] <==> forall j | 0 <= j < i :: pairs[j].0 == pairs[j].1
    {
      if pairs[i].0 != pairs[i].1 { missing := missing + [WrongContext]; }
    }
    if missing == [] { assert forall j | 0 <= j < 6 :: pairs[j].0 == pairs[j].1; }
    assert (forall j | 0 <= j < 6 :: pairs[j].0 == pairs[j].1) ==>
             pairs[0].0 == pairs[0].1 && pairs[1].0 == pairs[1].1 && pairs[2].0 == pairs[2].1
             && pairs[3].0 == pairs[3].1 && pairs[4].0 == pairs[4].1 && pairs[5].0 == pairs[5].1;
  }

  /** What keeps the evidence from counting at all. */
  method CheckBinding(o: Objective, e: Evidence) returns (missing: seq<Reason>)
    ensures missing == [] <==> Bound(o, e)
  {
    missing := [];
    if e.targetKind != o.targetKind || e.targetId == "" || e.targetVersion == "" { missing := missing + [TargetUnbound]; }
    if o.targetId.Some? && o.targetId.value != e.targetId { missing := missing + [WrongTarget]; }
    if o.targetVersion.Some? && o.targetVersion.value != e.targetVersion { missing := missing + [WrongVersion]; }
    if e.sourceRef == "" || !IsSourceHash(e.sourceHash) { missing := missing + [NoSource]; }
    var contextMissing := CheckContext(e.context, ObjectiveContext(o));
    missing := missing + contextMissing;
    if e.stage.None? || e.stage.value > LAST_STAGE || e.stage.value < o.minimumStage { missing := missing + [StageTooLow]; }
    if o.requireMatureLabels && (!e.labelsMature || e.labelOrigin != Some("observed")) { missing := missing + [LabelsImmature]; }
    if o.causal && (e.stage != Some(LAST_STAGE) || e.causalRef.None? || e.causalRef.value == "") { missing := missing + [NotCausal]; }
  }

  /** The row of one criterion. */
  function ItemOf(c: Criterion, e: Evidence): Item {
    match Measured(c, e)
    case None => Item(c.metric, None, InsufficientEvidence)
    case Some(v) => Item(c.metric, Some(v), if Within(c, v) then Passed else Failed)
  }

  /** A row shows the measured value, if there is one, and whether the criterion is met. */
  lemma ItemExactly(c: Criterion, e: Evidence)
    ensures ItemOf(c, e).metric == c.metric && ItemOf(c, e).value == Measured(c, e)
    ensures ItemOf(c, e).status == Passed <==> Meets(c, e)
    ensures ItemOf(c, e).status == InsufficientEvidence <==> Measured(c, e).None?
    ensures ItemOf(c, e).status == Failed <==> Measured(c, e).Some? && !Meets(c, e)
  {
  }

  lemma CriteriaByIndex(criteria: seq<Criterion>, e: Evidence)
    ensures (forall c | c in criteria :: Meets(c, e)) <==> forall j | 0 <= j < |criteria| :: Meets(criteria[j], e)
    ensures (forall c | c in criteria :: Measured(c, e).Some?) <==> forall j | 0 <= j < |criteria| :: Measured(criteria[j], e).Some?
  {
    assert forall j | 0 <= j < |criteria| :: criteria[j] in criteria;
  }

  /** One verdict for the adopted object: passed exactly when the evidence counts and every criterion is met. */
  method EvaluateBusinessAcceptance(objective: Option<Objective>, evidence: Option<Evidence>) returns (r: Acceptance)
    requires objective.Some? ==> ObjectiveOk(objective.value)
    ensures r.status == NotConfigured <==> objective.None?
    ensures r.status == NotApplicable <==> objective.Some? && !objective.value.applicable
    ensures r.status == Passed <==>
      && objective.Some? && objective.value.applicable && evidence.Some? && Bound(objective.value, evidence.value)
      && forall c | c in objective.value.criteria :: Meets(c, evidence.value)
    ensures r.status == Failed <==>
      && objective.Some? && objective.value.applicable && evidence.Some? && Bound(objective.value, evidence.value)
      && (forall c | c in objective.value.criteria :: Measured(c, evidence.value).Some?)
      && exists c | c in objective.value.criteria :: !Meets(c, evidence.value)
    ensures objective.Some? && objective.value.applicable && evidence.Some? ==>
      && |r.criteria| == |objective.value.criteria|
      && forall i | 0 <= i < |r.criteria| :: r.criteria[i] == ItemOf(objective.value.criteria[i], evidence.value)
    ensures r.status == Passed <==> r.reasons == []
  {
    if objective.None? { return Acceptance(NotConfigured, [], [NoObjective]); }
    var o := objective.value;
    if !o.applicable { return Acceptance(NotApplicable, [], [Stated(o.reason.value)]); }
    if evidence.None? { return Acceptance(InsufficientEvidence, [], [NoEvidence]); }
    var e := evidence.value;
    var missing := CheckBinding(o, e);
    var items: seq<Item>, failures: seq<Reason> := [], [];
    for i := 0 to |o.criteria|
      invariant |items| == i && forall j | 0 <= j < i :: items[j] == ItemOf(o.criteria[j], e)
      invariant missing == [] <==> Bound(o, e) && forall j | 0 <= j < i :: Measured(o.criteria[j], e).Some?
      invariant failures == [] <==> forall j | 0 <= j < i :: Measured(o.criteria[j], e).Some? ==> Meets(o.criteria[j], e)
    {
      var c := o.criteria[i];
      match Measured(c, e) {
        case None =>
          items := items + [Item(c.metric, None, InsufficientEvidence)];
          missing := missing + [NotMeasured(c.metric)];
        case Some(value) =>
          items := items + [Item(c.metric, Some(value), if Within(c, value) then Passed else Failed)];
          if !Within(c, value) { failures := failures + [Missed(c.metric)]; }
      }
    }
    CriteriaByIndex(o.criteria, e);
    r := Acceptance(if missing != [] then InsufficientEvidence else if failures != [] then Failed else Passed, items, missing + failures);
  }

  // ---- Old thresholds ----

  const OBJECTIVE_VERSION := "business-objective.v1"

  /** An entry of a plan's criteria: an objective, or else a historic threshold. */
  type Entry = map<string, Datum>

  /** `dict.get`: null for an absent key. */
  function Lookup(m: Entry, key: string): Datum {
    if key in m then m[key] else Null
  }

  predicate IsObjective(l: Entry) {
    Lookup(l, "schema_version") == Text(OBJECTIVE_VERSION)
  }

  /** An omitted aggregate is the candidate maximum. */
  predicate IsMaximum(l: Entry) {
    Lookup(l, "aggregate") == Null || Lookup(l, "aggregate") == Text("max")
  }

  const KNOWN_KEYS := {"metric", "min", "max", "aggregate", "label", "target_type"}

  const RATIO_METRICS := {
    "oot_ks", "test_ks", "train_ks", "oot_auc", "test_auc", "train_auc",
    "approved_bad_rate", "rejected_bad_rate", "approval_rate"}

  /** The last criterion of a metric. */
  function CriterionFor(criteria: seq<Criterion>, metric: string): (r: Option<Criterion>)
    ensures r.Some? ==> r.value in criteria && r.value.metric == metric
    ensures r.None? ==> forall c | c in criteria :: c.metric != metric
  {
    if criteria == [] then None
    else if criteria[|criteria| - 1].metric == metric then Some(criteria[|criteria| - 1])
    else CriterionFor(criteria[..|criteria| - 1], metric)
  }

  /** An old minimum on a ratio that the objective demands at least as strictly, and nothing else. */
  predicate Covered(o: Objective, l: Entry) {
    && l.Keys <= KNOWN_KEYS && "max" !in l && IsMaximum(l)
    && Lookup(l, "metric").Text? && l["metric"].text in RATIO_METRICS && o.applicable
    && var c := CriterionFor(o.criteria, l["metric"].text);
       && c.Some? && c.value.unit == "ratio" && c.value.comparison.Absolute?
       && "min" in l && l["min"].Number? && c.value.minimum.Some? && l["min"].value <= c.value.minimum.value
  }

  /** The same with the keys and metrics written out: the last criterion of the metric counts. */
  lemma CoveredExactly(o: Objective, l: Entry)
    ensures Covered(o, l) <==>
      && (forall k | k in l :: k == "metric" || k == "min" || k == "aggregate" || k == "label" || k == "target_type")
      && ("aggregate" in l ==> l["aggregate"] == Null || l["aggregate"] == Text("max"))
      && "min" in l && l["min"].Number? && "metric" in l && l["metric"].Text?
      && l["metric"].text in {"oot_ks", "test_ks", "train_ks", "oot_auc", "test_auc", "train_auc", "approved_bad_rate",
                              "rejected_bad_rate", "approval_rate"}
      && o.applicable
      && exists i | IsLast(o.criteria, l["metric"].text, i) ::
           && o.criteria[i].unit == "ratio" && o.criteria[i].comparison == Absolute
           && o.criteria[i].minimum.Some? && l["min"].value <= o.criteria[i].minimum.value
  {
    if "metric" in l && l["metric"].Text? {
      var metric := l["metric"].text;
      if CriterionFor(o.criteria, metric).Some? { var i := LastExists(o.criteria, metric); }
      forall i | IsLast(o.criteria, metric, i) ensures CriterionFor(o.criteria, metric) == Some(o.criteria[i]) {
        LastCounts(o.criteria, metric, i);
      }
    }
  }

  /** The i-th criterion is the last one of the metric. */
  predicate IsLast(criteria: seq<Criterion>, metric: string, i: int) {
    0 <= i < |criteria| && criteria[i].metric == metric && forall j | i < j < |criteria| :: criteria[j].metric != metric
  }

  lemma {:induction false} LastCounts(criteria: seq<Criterion>, metric: string, i: int)
    requires IsLast(criteria, metric, i)
    ensures CriterionFor(criteria, metric) == Some(criteria[i])
  {
    if i < |criteria| - 1 {
      assert criteria[|criteria| - 1].metric != metric;
      LastCounts(criteria[..|criteria| - 1], metric, i);
    }
  }

  lemma {:induction false} LastExists(criteria: seq<Criterion>, metric: string) returns (i: int)
    requires CriterionFor(criteria, metric).Some?
    ensures IsLast(criteria, metric, i) && CriterionFor(criteria, metric) == Some(criteria[i])
  {
    if criteria[|criteria| - 1].metric == metric {
      i := |criteria| - 1;
    } else {
      i := LastExists(criteria[..|criteria| - 1], metric);
    }
  }

  /** One old threshold against the contract; false if it raises: a metric or aggregate that is a list is a TypeError. */
  method RequireCovered(o: Objective, l: Entry) returns (ok: bool)
    ensures ok <==> Covered(o, l)
  {
    if IsMaximum(l) && "max" in l { return false; }
    var metric := Lookup(l, "metric");
    if !metric.Text? { return false; }
    var c := CriterionFor(o.criteria, metric.text);
    if !(l.Keys <= KNOWN_KEYS) || metric.text !in RATIO_METRICS || c.None? || !o.applicable || c.value.unit != "ratio"
       || c.value.comparison != Absolute || !IsMaximum(l) || ("min" !in l && "max" !in l) {
      return false;
    }
    if "min" in l {
      if !l["min"].Number? { return false; }
      if c.value.minimum.None? || l["min"].value > c.value.minimum.value { return false; }
    }
    // The source's comparison of maxima is never reached: an item with one has been refused by now.
    assert "max" !in l;
    return true;
  }

  /** `require_objective_covers_legacy`: false if it raises. */
  method RequireObjectiveCoversLegacy(o: Objective, items: seq<Entry>) returns (ok: bool)
    ensures ok <==> forall l | l in items :: IsObjective(l) || Covered(o, l)
  {
    for i := 0 to |items|
      invariant forall l | l in items[..i] :: IsObjective(l) || Covered(o, l)
    {
      assert items[..i + 1] == items[..i] + [items[i]];
      if IsObjective(items[i]) { continue; }
      var covered := RequireCovered(o, items[i]);
      if !covered { return false; }
    }
    assert items[..|items|] == items;
    return true;
  }

  // ---- Binding them ----

  /** How containers compare their members: a truth value equals the number 0 or 1, and a NaN only itself. */
  predicate SameDatum(a: Datum, b: Datum) {
    match (a, b)
    case (Truth(x), Number(v)) => v == if x then 1.0 else 0.0
    case (Number(v), Truth(x)) => v == if x then 1.0 else 0.0
    case (List(xs), List(ys)) => |xs| == |ys| && forall i | 0 <= i < |xs| :: SameDatum(xs[i], ys[i])
    case (Object(m), Object(n)) => m.Keys == n.Keys && forall k | k in m :: SameDatum(m[k], n[k])
    case _ => a == b
  }

  /** Python's `==` on the entries. */
  predicate Same(a: Entry, b: Entry) {
    a.Keys == b.Keys && forall k | k in a :: SameDatum(a[k], b[k])
  }

  /** The old thresholds in order, without those equal to one before. */
  function Kept(items: seq<Entry>): seq<Entry> {
    if items == [] then []
    else
      var before, last := Kept(items[..|items| - 1]), items[|items| - 1];
      if IsObjective(last) || exists k | k in before :: Same(k, last) then before else before + [last]
  }

  /** Nothing is kept but old thresholds of the list, no two of them equal, and every one is kept or equals a kept one. */
  lemma {:induction false} KeptRepresents(items: seq<Entry>)
    ensures forall l | l in Kept(items) :: l in items && !IsObjective(l)
    ensures forall i, j | 0 <= i < j < |Kept(items)| :: !Same(Kept(items)[i], Kept(items)[j])
    ensures forall l | l in items && !IsObjective(l) :: l in Kept(items) || exists k | k in Kept(items) :: Same(k, l)
  {
    if items != [] {
      var init, last := items[..|items| - 1], items[|items| - 1];
      KeptRepresents(init);
      assert items == init + [last];
      var before, kept := Kept(init), Kept(items);
      assert forall k | k in before :: k in kept;
      if kept != before { assert last in kept; }
    }
  }

  /** The old thresholds without repetitions; None if the objective does not cover those kept. */
  method BindBusinessCriteria(objective: Option<Objective>, items: seq<Entry>) returns (legacy: Option<seq<Entry>>)
    ensures legacy.Some? <==> objective.None? || forall l | l in Kept(items) :: Covered(objective.value, l)
    ensures legacy.Some? ==> legacy.value == Kept(items)
  {
    var kept: seq<Entry> := [];
    for i := 0 to |items|
      invariant kept == Kept(items[..i])
    {
      assert items[..i + 1][..i] == items[..i];
      if !IsObjective(items[i]) && !exists k | k in kept :: Same(k, items[i]) { kept := kept + [items[i]]; }
    }
    assert items[..|items|] == items;
    KeptRepresents(items);
    if objective.None? { return Some(kept); }
    var ok := RequireObjectiveCoversLegacy(objective.value, kept);
    return if ok then Some(kept) else None;
  }

  lemma KeptOfTwo(a: Entry, b: Entry)
    requires !IsObjective(a) && !IsObjective(b) && Same(a, b)
    ensures Kept([a, b]) == [a]
  {
    assert [a, b][..1] == [a] && [a][..0] == [];
    assert Kept([a]) == [] + [a];
  }

  lemma {:induction false} SameAsItself(d: Datum)
    ensures SameDatum(d, d)
    decreases d
  {
    match d
    case List(items) => forall i | 0 <= i < |items| ensures SameDatum(items[i], items[i]) { SameAsItself(items[i]); }
    case Object(fields) => forall k | k in fields ensures SameDatum(fields[k], fields[k]) { SameAsItself(fields[k]); }
    case _ =>
  }

  /** An entry whose minimum is replaced by an equal one is an equal entry. */
  lemma SameMinimum(l: Entry, low: Datum)
    requires "min" in l && SameDatum(l["min"], low) && SameDatum(low, l["min"])
    ensures Same(l, l["min" := low]) && Same(l["min" := low], l)
  {
    forall k | k in l ensures SameDatum(l[k], l["min" := low][k]) && SameDatum(l["min" := low][k], l[k]) {
      SameAsItself(l[k]);
    }
  }

  /**
   * A minimum that is written `true` equals one that is 1: it is dropped behind such a one and the binding succeeds,
   * while in front of it, or alone, it makes the binding fail.
   */
  lemma TruthDependsOnOrder(o: Objective, l: Entry)
    requires !IsObjective(l) && Lookup(l, "min") == Number(1.0) && Covered(o, l)
    ensures var t := l["min" := Truth(true)];
      && (forall k | k in Kept([l, t]) :: Covered(o, k)) && !(forall k | k in Kept([t, l]) :: Covered(o, k))
  {
    var t := l["min" := Truth(true)];
    SameMinimum(l, Truth(true));
    KeptOfTwo(l, t);
    KeptOfTwo(t, l);
    assert t in Kept([t, l]) && !Covered(o, t);
  }

  // ---- Subsumption ----

  /** The historic reading of a threshold over the candidates' values: their maximum reaches the minimum. */
  predicate LegacyHolds(l: Entry, candidates: seq<real>) {
    && ("min" in l ==> l["min"].Number? && exists v | v in candidates :: v >= l["min"].value)
    && ("max" in l ==> l["max"].Number? && forall v | v in candidates :: v <= l["max"].value)
  }

  /** The candidates' values of a metric include the adopted object's, if it has one. */
  predicate IncludesAdopted(candidates: string -> seq<real>, e: Evidence) {
    forall metric | metric in e.metrics && e.metrics[metric].Number? :: e.metrics[metric].value in candidates(metric)
  }

  /** A threshold without maximum whose minimum the adopted value reaches, and the candidates' maximum with it. */
  predicate AdoptedMeets(e: Evidence, l: Entry, candidates: string -> seq<real>) {
    && "max" !in l && "min" in l && l["min"].Number? && Lookup(l, "metric").Text?
    && var value := Finite(e.metrics, l["metric"].text);
       value.Some? && value.value >= l["min"].value && LegacyHolds(l, candidates(l["metric"].text))
  }

  /** A covered threshold holds for the value of an object that meets the objective. */
  lemma PassedMeetsLegacy(o: Objective, e: Evidence, l: Entry, candidates: string -> seq<real>)
    requires Covered(o, l) && (forall c | c in o.criteria :: Meets(c, e)) && IncludesAdopted(candidates, e)
    ensures AdoptedMeets(e, l, candidates)
  {
    var c := CriterionFor(o.criteria, l["metric"].text).value;
    assert Meets(c, e);
    assert Measured(c, e) == Finite(e.metrics, c.metric);
  }

  /**
   * Binding old thresholds to an objective and then judging the adopted object: if the first accepts them and the
   * second passes, the adopted value meets every threshold that was kept, and so does the maximum of any candidates
   * that include it; every other threshold of the list equals a kept one.
   */
  method BindAndEvaluate(objective: Objective, items: seq<Entry>, evidence: Option<Evidence>,
                         candidates: string -> seq<real>)
    returns (legacy: Option<seq<Entry>>, r: Acceptance)
    requires ObjectiveOk(objective) && (evidence.Some? ==> IncludesAdopted(candidates, evidence.value))
    ensures legacy.Some? ==>
      forall l | l in items && !IsObjective(l) :: l in legacy.value || exists k | k in legacy.value :: Same(k, l)
    ensures legacy.Some? && r.status == Passed ==>
      evidence.Some? && forall l | l in legacy.value :: AdoptedMeets(evidence.value, l, candidates)
  {
    legacy := BindBusinessCriteria(Some(objective), items);
    KeptRepresents(items);
    r := EvaluateBusinessAcceptance(Some(objective), evidence);
    if legacy.Some? && r.status == Passed {
      forall l | l in legacy.value ensures AdoptedMeets(evidence.value, l, candidates) {
        assert Covered(objective, l);
        PassedMeetsLegacy(objective, evidence.value, l, candidates);
      }
    }
  }

  /** An old upper bound is never taken over, however strict the objective is. */
  lemma MaximumIsNeverCovered(o: Objective, l: Entry)
    requires "max" in l
    ensures !Covered(o, l)
  {
  }
}
