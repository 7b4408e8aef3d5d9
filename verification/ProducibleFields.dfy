/** Which fields a chain of transformations can produce from the sample columns. */
module ProducibleFields {

  datatype Transformation = Transformation(output: string, inputs: seq<string>)

  function Needs(t: Transformation): set<string> {
    set x | x in t.inputs
  }

  /** A set of fields that contains the columns and is closed under the transformations. */
  predicate Closed(columns: set<string>, ts: seq<Transformation>, fields: set<string>) {
    columns <= fields && forall t | t in ts :: Needs(t) <= fields ==> t.output in fields
  }

  function Outputs(ts: seq<Transformation>): set<string> {
    set t | t in ts :: t.output
  }

  /** The least closed set, by adding one applicable output at a time. */
  ghost function Closure(columns: set<string>, ts: seq<Transformation>): (r: set<string>)
    ensures Closed(columns, ts, r)
    ensures forall s :: Closed(columns, ts, s) ==> r <= s
    decreases |Outputs(ts) - columns|
  {
    if exists t :: t in ts && Needs(t) <= columns && t.output !in columns then
      var t :| t in ts && Needs(t) <= columns && t.output !in columns;
      assert t.output in Outputs(ts) - columns;
      assert Outputs(ts) - (columns + {t.output}) < Outputs(ts) - columns;
      SmallerSet(Outputs(ts) - (columns + {t.output}), Outputs(ts) - columns);
      Closure(columns + {t.output}, ts)
    else columns
  }

  lemma SmallerSet<T>(a: set<T>, b: set<T>)
    requires a < b
    ensures |a| < |b|
  {
    assert b == a + (b - a) && |b - a| > 0 && |b| == |a| + |b - a|;
  }

  // ---- What the closure means ----

  /** Whatever order fields are found in, the result is the same: two least closed sets are equal. */
  lemma ClosureUnique(columns: set<string>, ts: seq<Transformation>, r: set<string>)
    requires Closed(columns, ts, r) && forall s :: Closed(columns, ts, s) ==> r <= s
    ensures r == Closure(columns, ts)
  {
  }

  /** Order and repetition of the transformations do not matter. */
  lemma OrderIrrelevant(columns: set<string>, ts: seq<Transformation>, us: seq<Transformation>)
    requires forall t :: t in ts <==> t in us
    ensures Closure(columns, ts) == Closure(columns, us)
  {
    assert Closed(columns, us, Closure(columns, ts)) && Closed(columns, ts, Closure(columns, us));
  }

  /** Fields that can only be made from one another are never producible. */
  lemma CyclicOnlyExcluded(columns: set<string>, ts: seq<Transformation>, cycle: set<string>)
    requires cycle !! columns
    requires forall t | t in ts && t.output in cycle :: Needs(t) * cycle != {}
    ensures Closure(columns, ts) !! cycle
  {
    var r := Closure(columns, ts) - cycle;
    forall t | t in ts && Needs(t) <= r ensures t.output in r {
      assert Needs(t) * cycle == {};
    }
    assert Closed(columns, ts, r);
  }

  /** A producible field is a column or the output of a transformation whose inputs are all producible. */
  lemma ProducibleHasReason(columns: set<string>, ts: seq<Transformation>, field: string)
    requires field in Closure(columns, ts) && field !in columns
    ensures exists t :: t in ts && t.output == field && Needs(t) <= Closure(columns, ts) - {field}
  {
    var rest := Closure(columns, ts) - {field};
    assert !Closed(columns, ts, rest);
    var t :| t in ts && Needs(t) <= rest && t.output !in rest;
    assert t.output in Closure(columns, ts);
  }

  // ---- The worklist ----

  ghost function Lookup(waiting: map<string, seq<nat>>, field: string): seq<nat> {
    if field in waiting then waiting[field] else []
  }

  ghost function TotalSize(sets: seq<set<string>>): nat {
    if sets == [] then 0 else |sets[0]| + TotalSize(sets[1..])
  }

  /** Distinct dependencies over all transformations. */
  ghost function TotalDependencies(ts: seq<Transformation>): nat {
    if ts == [] then 0 else |Needs(ts[0])| + TotalDependencies(ts[1..])
  }

  lemma {:induction false} TotalSizeDrops(sets: seq<set<string>>, i: nat, x: string)
    requires i < |sets| && x in sets[i]
    ensures TotalSize(sets[i := sets[i] - {x}]) == TotalSize(sets) - 1
  {
    var after := sets[i := sets[i] - {x}];
    if i > 0 {
      assert after[1..] == sets[1..][i - 1 := sets[1..][i - 1] - {x}];
      TotalSizeDrops(sets[1..], i - 1, x);
    } else {
      assert after[1..] == sets[1..];
    }
  }

  lemma SubsetSize<T>(a: set<T>, b: set<T>)
    requires a <= b
    ensures |a| <= |b|
  {
    if a != b { SmallerSet(a, b); }
  }

  lemma {:induction false} TotalSizeBounded(sets: seq<set<string>>, ts: seq<Transformation>)
    requires |sets| == |ts| && forall i | 0 <= i < |ts| :: sets[i] <= Needs(ts[i])
    ensures TotalSize(sets) <= TotalDependencies(ts)
  {
    if sets != [] {
      SubsetSize(sets[0], Needs(ts[0]));
      TotalSizeBounded(sets[1..], ts[1..]);
    }
  }

  /** Indices below `n` whose dependencies contain `field`, in order. */
  ghost function Waiters(sets: seq<set<string>>, field: string, n: nat): (r: seq<nat>)
    requires n <= |sets|
    ensures forall j :: j in r <==> 0 <= j < n && field in sets[j]
    ensures forall i, j | 0 <= i < j < |r| :: r[i] != r[j]
  {
    if n == 0 then []
    else Waiters(sets, field, n - 1) + if field in sets[n - 1] then [n - 1] else []
  }

  lemma {:induction false} WaitersExtend(sets: seq<set<string>>, more: seq<set<string>>, field: string, n: nat)
    requires n <= |sets|
    ensures Waiters(sets + more, field, n) == Waiters(sets, field, n)
  {
    if n > 0 { WaitersExtend(sets, more, field, n - 1); }
  }

  /** setdefault(dependency, []).append(index) for each dependency of one transformation. */
  method Enlist(waiting: map<string, seq<nat>>, dependencies: set<string>, index: nat)
    returns (r: map<string, seq<nat>>)
    ensures forall x :: Lookup(r, x) == Lookup(waiting, x) + if x in dependencies then [index] else []
  {
    r := waiting;
    var rest := dependencies;
    while rest != {}
      invariant rest <= dependencies
      invariant forall x :: Lookup(r, x) == Lookup(waiting, x) + if x in dependencies - rest then [index] else []
    {
      var d :| d in rest;
      r := r[d := (if d in r then r[d] else []) + [index]];
      rest := rest - {d};
    }
  }

  /** Every transformation whose missing inputs are all found is in the queue or done. */
  ghost predicate Queued(pending: seq<set<string>>, ts: seq<Transformation>, ready: seq<string>, done: set<string>)
    requires |pending| <= |ts|
  {
    forall j | 0 <= j < |pending| :: pending[j] == {} ==> ts[j].output in ready || ts[j].output in done
  }

  ghost predicate Within(ready: seq<string>, limit: set<string>) {
    forall x | x in ready :: x in limit
  }

  ghost predicate Indexed(waiting: map<string, seq<nat>>, pending: seq<set<string>>, n: nat)
    requires n <= |pending|
  {
    forall x :: IndexedAt(waiting, pending, n, x)
  }

  ghost predicate IndexedAt(waiting: map<string, seq<nat>>, pending: seq<set<string>>, n: nat, field: string)
    requires n <= |pending|
  {
    Lookup(waiting, field) == Waiters(pending, field, n)
  }

  lemma OneMoreWaiter(pending: seq<set<string>>, dependencies: set<string>, field: string)
    ensures Waiters(pending + [dependencies], field, |pending| + 1)
         == Waiters(pending, field, |pending|) + if field in dependencies then [|pending|] else []
  {
    WaitersExtend(pending, [dependencies], field, |pending|);
  }

  lemma IndexedExtend(waiting: map<string, seq<nat>>, more: map<string, seq<nat>>, pending: seq<set<string>>,
                      dependencies: set<string>)
    requires Indexed(waiting, pending, |pending|)
    requires forall x :: Lookup(more, x) == Lookup(waiting, x) + if x in dependencies then [|pending|] else []
    ensures Indexed(more, pending + [dependencies], |pending| + 1)
  {
    var longer, n := pending + [dependencies], |pending| + 1;
    forall x ensures IndexedAt(more, longer, n, x) {
      OneMoreWaiter(pending, dependencies, x);
      assert IndexedAt(waiting, pending, |pending|, x);
    }
  }

  /** The dependency sets and outputs recorded for the first transformations. */
  ghost predicate Recorded(columns: set<string>, ts: seq<Transformation>, pending: seq<set<string>>,
                           outputs: seq<string>) {
    |pending| == |outputs| <= |ts|
    && forall j | 0 <= j < |pending| :: pending[j] == Needs(ts[j]) - columns && outputs[j] == ts[j].output
  }

  /** One more transformation in the tables. */
  lemma PrepareOne(columns: set<string>, ts: seq<Transformation>, limit: set<string>,
                   pending: seq<set<string>>, outputs: seq<string>, ready: seq<string>)
    requires |pending| < |ts| && Closed(columns, ts, limit) && Recorded(columns, ts, pending, outputs)
    requires Queued(pending, ts, ready, columns) && Within(ready, limit)
    ensures var t := ts[|pending|]; var left := Needs(t) - columns;
      var ready' := if left == {} then ready + [t.output] else ready;
      && Recorded(columns, ts, pending + [left], outputs + [t.output])
      && Queued(pending + [left], ts, ready', columns) && Within(ready', limit)
  {
    var t := ts[|pending|];
    if Needs(t) - columns == {} { assert Needs(t) <= columns + (Needs(t) - columns); }
  }

  /** Taking the last field off the queue, having it is as good as having it queued. */
  lemma PopOne(pending: seq<set<string>>, ts: seq<Transformation>, ready: seq<string>, done: set<string>)
    requires |pending| <= |ts| && ready != [] && Queued(pending, ts, ready, done)
    ensures Queued(pending, ts, ready[..|ready| - 1], done + {ready[|ready| - 1]})
  {
    assert ready == ready[..|ready| - 1] + [ready[|ready| - 1]];
  }

  lemma WithinPrefix(ready: seq<string>, limit: set<string>)
    requires ready != [] && Within(ready, limit)
    ensures Within(ready[..|ready| - 1], limit) && ready[|ready| - 1] in limit
  {
  }

  /** The first pass: dependencies missing from the columns, and who waits for what. */
  method Prepare(columns: set<string>, ts: seq<Transformation>, ghost limit: set<string>)
    returns (pending: seq<set<string>>, outputs: seq<string>, waiting: map<string, seq<nat>>, ready: seq<string>)
    requires Closed(columns, ts, limit)
    ensures |pending| == |ts| && Recorded(columns, ts, pending, outputs) && Indexed(waiting, pending, |ts|)
    ensures Queued(pending, ts, ready, columns) && Within(ready, limit)
  {
    pending, outputs, waiting, ready := [], [], map[], [];
    for i := 0 to |ts|
      invariant |pending| == i && Recorded(columns, ts, pending, outputs) && Indexed(waiting, pending, i)
      invariant Queued(pending, ts, ready, columns) && Within(ready, limit)
    {
      var dependencies := Needs(ts[i]) - columns;
      ghost var before, known := pending, waiting;
      PrepareOne(columns, ts, limit, pending, outputs, ready);
      pending := pending + [dependencies];
      outputs := outputs + [ts[i].output];
      if dependencies == {} { ready := ready + [ts[i].output]; }
      waiting := Enlist(waiting, dependencies, i);
      IndexedExtend(known, waiting, before, dependencies);
    }
  }

  /** What remains to be found for each transformation while `field` is struck off for the waiters still `left`. */
  ghost predicate Struck(pending: seq<set<string>>, need: seq<set<string>>, done: set<string>, field: string,
                         left: seq<nat>) {
    |pending| == |need| && forall j | 0 <= j < |need| :: pending[j] == need[j] - if j in left then done - {field} else done
  }

  /** One strike: the waiter's dependency set loses the field. */
  lemma StrikeOne(pending: seq<set<string>>, need: seq<set<string>>, done: set<string>, field: string,
                  waiters: seq<nat>, k: nat)
    requires k < |waiters| && field in done && Struck(pending, need, done, field, waiters[k..])
    requires waiters[k] < |need| && field in need[waiters[k]] && forall i, j | 0 <= i < j < |waiters| :: waiters[i] != waiters[j]
    ensures field in pending[waiters[k]]
    ensures pending[waiters[k]] - {field} == need[waiters[k]] - done
    ensures Struck(pending[waiters[k] := pending[waiters[k]] - {field}], need, done, field, waiters[k + 1..])
  {
    assert waiters[k] in waiters[k..];
    forall j | 0 <= j < |need| && j != waiters[k] ensures j in waiters[k..] <==> j in waiters[k + 1..] {
      assert waiters[k..] == [waiters[k]] + waiters[k + 1..];
    }
  }

  /** With all inputs found, the output is as producible as they are. */
  lemma OutputWithin(columns: set<string>, ts: seq<Transformation>, j: nat, done: set<string>, limit: set<string>)
    requires Closed(columns, ts, limit) && j < |ts| && done <= limit && Needs(ts[j]) - columns - done == {}
    ensures ts[j].output in limit
  {
    assert Needs(ts[j]) <= columns + done + (Needs(ts[j]) - columns - done);
  }

  lemma QueuedAfterStrike(pending: seq<set<string>>, ts: seq<Transformation>, ready: seq<string>, done: set<string>,
                          j: nat, left: set<string>)
    requires |pending| <= |ts| && j < |pending| && Queued(pending, ts, ready, done)
    ensures Queued(pending[j := left], ts, if left == {} then ready + [ts[j].output] else ready, done)
  {
  }

  /** Strikes a newly found field off everything that waits for it. */
  method Release(field: string, waiters: seq<nat>, pending0: seq<set<string>>, outputs: seq<string>,
                 ready0: seq<string>,
                 ghost columns: set<string>, ghost ts: seq<Transformation>, ghost limit: set<string>,
                 ghost need: seq<set<string>>, ghost done: set<string>)
    returns (pending: seq<set<string>>, ready: seq<string>)
    requires Closed(columns, ts, limit) && |need| == |ts| && Recorded(columns, ts, need, outputs)
    requires waiters == Waiters(need, field, |need|) && field in done && done <= limit
    requires Struck(pending0, need, done, field, waiters) && Queued(pending0, ts, ready0, done) && Within(ready0, limit)
    ensures Struck(pending, need, done, field, []) && Queued(pending, ts, ready, done) && Within(ready, limit)
    ensures TotalSize(pending) + |waiters| == TotalSize(pending0)
  {
    pending, ready := pending0, ready0;
    assert waiters[0..] == waiters;
    for k := 0 to |waiters|
      invariant Struck(pending, need, done, field, waiters[k..])
      invariant Queued(pending, ts, ready, done) && Within(ready, limit)
      invariant TotalSize(pending) + k == TotalSize(pending0)
    {
      var index := waiters[k];
      assert index in waiters;
      StrikeOne(pending, need, done, field, waiters, k);
      TotalSizeDrops(pending, index, field);
      QueuedAfterStrike(pending, ts, ready, done, index, pending[index] - {field});
      pending := pending[index := pending[index] - {field}];
      if pending[index] == {} {
        OutputWithin(columns, ts, index, done, limit);
        ready := ready + [outputs[index]];
      }
    }
  }

  /** Exactly the fields not found yet are outstanding. */
  ghost predicate Outstanding(pending: seq<set<string>>, need: seq<set<string>>, found: set<string>) {
    |pending| == |need| && forall j | 0 <= j < |need| :: pending[j] == need[j] - found
  }

  lemma RecordedAreOutstanding(columns: set<string>, ts: seq<Transformation>, need: seq<set<string>>, outputs: seq<string>)
    requires Recorded(columns, ts, need, outputs)
    ensures Outstanding(need, need, columns)
  {
    assert forall j | 0 <= j < |need| :: need[j] - columns == need[j];
  }

  lemma AllStruck(pending: seq<set<string>>, need: seq<set<string>>, done: set<string>, field: string)
    requires Struck(pending, need, done, field, [])
    ensures Outstanding(pending, need, done)
  {
  }

  /** Finding a field puts all its waiters, and only them, out of date. */
  lemma FoundMakesStale(pending: seq<set<string>>, need: seq<set<string>>, before: set<string>, field: string)
    requires Outstanding(pending, need, before) && field !in before
    ensures Struck(pending, need, before + {field}, field, Waiters(need, field, |need|))
  {
    assert before + {field} - {field} == before;
    forall j | 0 <= j < |need| && j !in Waiters(need, field, |need|) ensures need[j] - before == need[j] - (before + {field}) {
    }
  }

  /** When the queue is empty, nothing more can be produced. */
  lemma QueueEmptyIsClosed(columns: set<string>, ts: seq<Transformation>, pending: seq<set<string>>,
                           need: seq<set<string>>, outputs: seq<string>, done: set<string>)
    requires |need| == |ts| && columns <= done && Outstanding(pending, need, done) && Queued(pending, ts, [], done)
    requires Recorded(columns, ts, need, outputs)
    ensures Closed(columns, ts, done)
  {
    forall t | t in ts && Needs(t) <= done ensures t.output in done {
      var j :| 0 <= j < |ts| && ts[j] == t;
      assert need[j] == Needs(t) - columns;
      assert pending[j] == {};
    }
  }

  /** The search finds a closed set inside every closed set. */
  method Search(columns: set<string>, ts: seq<Transformation>, ghost limit: set<string>)
    returns (producible: set<string>, ghost work: nat)
    requires Closed(columns, ts, limit)
    ensures producible <= limit && Closed(columns, ts, producible)
    ensures work <= TotalDependencies(ts)
  {
    assert columns <= limit;
    hide Closed, Queued, Within, Recorded, Outstanding, Struck, Waiters, TotalSize, TotalDependencies;
    producible, work := columns, 0;
    var pending, outputs, waiting, ready := Prepare(columns, ts, limit);
    ghost var need := pending;
    RecordedAreOutstanding(columns, ts, need, outputs);
    while ready != []
      invariant columns <= producible <= limit
      invariant |pending| == |need| && Outstanding(pending, need, producible)
      invariant Queued(pending, ts, ready, producible) && Within(ready, limit)
      invariant work + TotalSize(pending) == TotalSize(need)
      decreases |limit - producible|, |ready|
    {
      var field := ready[|ready| - 1];
      PopOne(pending, ts, ready, producible);
      WithinPrefix(ready, limit);
      ready := ready[..|ready| - 1];
      if field in producible {
        assert producible + {field} == producible;
        continue;
      }
      FoundMakesStale(pending, need, producible, field);
      SmallerSet(limit - (producible + {field}), limit - producible);
      producible := producible + {field};
      var waiters := if field in waiting then waiting[field] else [];
      assert waiters == Lookup(waiting, field) && IndexedAt(waiting, need, |ts|, field);
      pending, ready := Release(field, waiters, pending, outputs, ready, columns, ts, limit, need, producible);
      AllStruck(pending, need, producible, field);
      work := work + |waiters|;
    }
    QueueEmptyIsClosed(columns, ts, pending, need, outputs, producible);
    TotalSizeBounded(need, ts);
  }

  /**
   * The fields producible from the columns: exactly the least closed set, found with at most one
   * strike (`work`) per distinct dependency.
   */
  method CandidateProducibleFields(columns: set<string>, ts: seq<Transformation>)
    returns (producible: set<string>, ghost work: nat)
    ensures producible == Closure(columns, ts)
    ensures work <= TotalDependencies(ts)
  {
    producible, work := Search(columns, ts, Closure(columns, ts));
  }
}
