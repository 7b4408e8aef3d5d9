/** The migration runner: each migration and its version stamp are one transaction, whatever fails or crashes. */
module SchemaMigrations {
  import opened Prelude

  const SCHEMA_VERSION := 46

  /** A schema together with `user_version`. */
  datatype Store<S> = Store(schema: S, version: int)

  /**
   * What befalls one step: an exception (a migration body may have done part of its work), or the end of the
   * process, for a commit before or after it has become durable.
   */
  datatype Fault<S> = Fine | Raise(partial: S) | Crash | CrashAfter

  datatype Ending = Returned | Raised | Refused | Died

  /** The migration bodies in order: the body of version `i + 1` at position `i`; None is an exception. */
  type Bodies<!S> = seq<S -> Option<S>>

  /** Migrations 1 to `k` in order on a legacy schema. */
  function Built<S>(bodies: Bodies<S>, legacy: S, k: nat): Option<S>
    requires k <= |bodies|
  {
    if k == 0 then Some(legacy)
    else match Built(bodies, legacy, k - 1)
      case None => None
      case Some(schema) => bodies[k - 1](schema)
  }

  /** The versions 1 to `k`. */
  function Versions(k: nat): (r: seq<int>)
    ensures |r| == k && forall i | 0 <= i < k :: r[i] == i + 1
  {
    if k == 0 then [] else Versions(k - 1) + [k]
  }

  /** A store is the result of exactly the migrations up to its version. */
  ghost predicate Exact<S>(bodies: Bodies<S>, legacy: S, store: Store<S>) {
    0 <= store.version <= |bodies| && Built(bodies, legacy, store.version) == Some(store.schema)
  }

  class DatabaseFile<S> {
    /** What is durable. */
    var committed: Store<S>
    /** The open transaction's view, lost on rollback, close and crash. */
    var pending: Option<Store<S>>
    /** Versions stamped by commits, in order. */
    ghost var commits: seq<int>

    constructor (legacy: S)
      ensures committed == Store(legacy, 0) && pending.None? && commits == []
    {
      committed, pending, commits := Store(legacy, 0), None, [];
    }

    /** Between runs: no open transaction, and the durable schema is exactly what its version says. */
    ghost predicate Valid(bodies: Bodies<S>, legacy: S)
      reads this
    {
      pending.None? && Exact(bodies, legacy, committed) && commits == Versions(committed.version)
    }

    method Begin() returns (ok: bool)
      modifies this`pending
      ensures ok <==> old(pending).None?
      ensures pending == Some(if ok then committed else old(pending).value)
    {
      ok := pending.None?;
      if ok { pending := Some(committed); }
    }

    method Rollback()
      modifies this`pending
      ensures pending.None?
    {
      pending := None;
    }

    method Commit()
      modifies this
      ensures pending.None? && committed == old(if pending.Some? then pending.value else committed)
      ensures commits == old(if pending.Some? then commits + [pending.value.version] else commits)
    {
      if pending.Some? {
        commits := commits + [pending.value.version];
        committed := pending.value;
      }
      pending := None;
    }

    /** One migration in its transaction; `faults` gives the fate of BEGIN, the body, the stamp and COMMIT. */
    method Migrate(bodies: Bodies<S>, version: nat, faults: nat -> Fault<S>, clock: nat, ghost legacy: S)
      returns (end: Ending)
      requires Valid(bodies, legacy) && 1 <= version <= |bodies| && committed.version == version - 1
      modifies this
      ensures Valid(bodies, legacy)
      ensures committed.version == version || (committed == old(committed) && commits == old(commits))
      ensures end != Refused && (end == Returned ==> committed.version == version)
      ensures (forall i :: faults(i).Fine?) && Built(bodies, legacy, version).Some? ==> end == Returned
    {
      end := Raised;
      var begin, body, stamp, commit := faults(clock), faults(clock + 1), faults(clock + 2), faults(clock + 3);
      if begin.Crash? || begin.CrashAfter? { return Died; }
      if begin.Raise? { Rollback(); return; }
      var ok := Begin();
      assert ok;
      if body.Crash? || body.CrashAfter? { Rollback(); return Died; }
      var schema := bodies[version - 1](pending.value.schema);
      if body.Raise? || schema.None? {
        if body.Raise? { pending := Some(pending.value.(schema := body.partial)); }
        Rollback();
        return;
      }
      pending := Some(pending.value.(schema := schema.value));
      if stamp.Crash? || stamp.CrashAfter? { Rollback(); return Died; }
      if stamp.Raise? { Rollback(); return; }
      pending := Some(pending.value.(version := version));
      if commit.Crash? { Rollback(); return Died; }
      if commit.Raise? { Rollback(); return; }
      Commit();
      return if commit.CrashAfter? then Died else Returned;
    }

    /** `init_db`: every migration above the stored version, in order; a newer database is refused. */
    method InitDb(bodies: Bodies<S>, faults: nat -> Fault<S>, ghost legacy: S) returns (end: Ending)
      requires |bodies| == SCHEMA_VERSION && pending.None?
      requires committed.version <= SCHEMA_VERSION ==> Valid(bodies, legacy)
      modifies this
      ensures old(committed.version) > 46 <==> end == Refused
      ensures end == Refused ==> committed == old(committed) && commits == old(commits) && pending.None?
      ensures end != Refused ==> Valid(bodies, legacy) && old(committed.version) <= committed.version && old(commits) <= commits
      ensures end == Returned ==> committed.version == 46
      ensures (forall i :: faults(i).Fine?) && old(committed.version) <= SCHEMA_VERSION && Built(bodies, legacy, SCHEMA_VERSION).Some?
          ==> end == Returned
    {
      var current := committed.version;
      if current > SCHEMA_VERSION { return Refused; }
      for version := 1 to SCHEMA_VERSION + 1
        invariant Valid(bodies, legacy) && current == committed.version
        invariant old(committed.version) <= current && version - 1 <= current
        invariant old(committed.version) <= version - 1 ==> current == version - 1
        invariant version - 1 <= old(committed.version) ==> current == old(committed.version)
      {
        if version <= current { continue; }
        if Built(bodies, legacy, SCHEMA_VERSION).Some? { BuiltDownward(bodies, legacy, version, SCHEMA_VERSION); }
        end := Migrate(bodies, version, faults, 4 * version, legacy);
        if end != Returned {
          VersionsGrow(old(committed.version), committed.version);
          return;
        }
        current := version;
      }
      VersionsGrow(old(committed.version), committed.version);
      return Returned;
    }

    /**
     * Any number of starts of the program, each with its own faults: the durable schema is always the result of
     * exactly migrations 1 to its version, each committed once, in order.
     */
    method Restart(bodies: Bodies<S>, runs: seq<nat -> Fault<S>>, ghost legacy: S)
      requires |bodies| == SCHEMA_VERSION && Valid(bodies, legacy)
      modifies this
      ensures Valid(bodies, legacy) && old(committed.version) <= committed.version
      ensures old(commits) <= commits
    {
      for i := 0 to |runs|
        invariant Valid(bodies, legacy) && old(committed.version) <= committed.version && old(commits) <= commits
      {
        var end := InitDb(bodies, runs[i], legacy);
      }
    }
  }

  lemma {:induction false} VersionsGrow(j: nat, k: nat)
    requires j <= k
    ensures Versions(j) <= Versions(k)
  {
    if j < k { VersionsGrow(j, k - 1); }
  }

  /** If the last migration can be reached at all, so can every earlier one. */
  lemma {:induction false} BuiltDownward<S>(bodies: Bodies<S>, legacy: S, k: nat, n: nat)
    requires k <= n <= |bodies| && Built(bodies, legacy, n).Some?
    ensures Built(bodies, legacy, k).Some?
  {
    if k < n { BuiltDownward(bodies, legacy, k, n - 1); }
  }
}
