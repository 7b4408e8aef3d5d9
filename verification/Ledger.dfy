/**
 * An append-only revision ledger with a compare-and-set head per key, guarded only by SQL constraints.
 * The same design serves project contexts (key: task) and report bundles (key: task and scope).
 * Equality of nullable columns is SQL equality: NULL equals nothing.
 */
module Ledger {
  import opened Prelude

  datatype Key = Key(task: string, scope: string)

  /** A revision row; `parentHash` is recorded only in hashed ledgers, `payload` holds the other columns. */
  datatype Revision<P> = Revision(
    key: Key, number: int, id: Option<string>, parent: Option<string>, parentHash: Option<string>,
    hash: string, payload: P)

  /** A head row; `identity` stands for the columns that may never change. */
  datatype Head = Head(task: Option<string>, scope: string, identity: string, number: int, id: Option<string>, hash: Option<string>)

  datatype Table<P(==)> = Table(revisions: set<Revision<P>>, heads: set<Head>)

  datatype Statement<P> =
    | InsertHead(head: Head)
    | UpdateHead(was: Head, now: Head)
    | DeleteHead(head: Head)
    | InsertRevision(revision: Revision<P>)
    | UpdateRevision(replaced: Revision<P>, replacement: Revision<P>)
    | DeleteRevision(revision: Revision<P>)

  /** A CHECK on a nullable column rejects only what is definitely wrong: NULL passes. */
  predicate NullOrHash(h: Option<string>) {
    h.Some? ==> IsHash(h.value)
  }

  predicate SameText(a: Option<string>, b: Option<string>) {
    a.Some? && b.Some? && a.value == b.value
  }

  predicate HeadOf(h: Head, key: Key) {
    h.task == Some(key.task) && h.scope == key.scope
  }

  // ---- Guards: column checks, unique indexes and triggers ----

  predicate RevisionShape<P>(r: Revision<P>, hashed: bool) {
    && r.number >= 1 && IsHash(r.hash)
    && if r.number == 1 then r.parent.None? && (hashed ==> r.parentHash.None?)
       else r.parent.Some? && (hashed ==> NullOrHash(r.parentHash))
  }

  predicate RevisionUnique<P(==)>(t: Table<P>, r: Revision<P>) {
    forall q | q in t.revisions :: !(q.key == r.key && q.number == r.number) && !SameText(q.id, r.id)
  }

  predicate IsParent<P>(q: Revision<P>, r: Revision<P>, hashed: bool) {
    && SameText(q.id, r.parent) && q.key == r.key && q.number == r.number - 1
    && (hashed ==> SameText(Some(q.hash), r.parentHash))
  }

  predicate BasedOn<P>(h: Head, r: Revision<P>, hashed: bool) {
    && HeadOf(h, r.key) && h.number == r.number - 1 && h.id == r.parent
    && (hashed ==> h.hash == r.parentHash)
  }

  predicate HasParent<P>(t: Table<P>, r: Revision<P>, hashed: bool) {
    exists q | q in t.revisions :: IsParent(q, r, hashed)
  }

  predicate HasBase<P>(t: Table<P>, r: Revision<P>, hashed: bool) {
    exists h | h in t.heads :: BasedOn(h, r, hashed)
  }

  predicate RevisionAllowed<P(==)>(t: Table<P>, tasks: set<string>, hashed: bool, r: Revision<P>) {
    && RevisionShape(r, hashed) && r.key.task in tasks && RevisionUnique(t, r)
    && (r.number > 1 ==> HasParent(t, r, hashed)) && HasBase(t, r, hashed)
  }

  predicate HeadShape(h: Head) {
    if h.number == 0 then h.id.None? && h.hash.None?
    else h.number >= 1 && h.id.Some? && NullOrHash(h.hash)
  }

  predicate IsTarget<P>(r: Revision<P>, h: Head) {
    SameText(r.id, h.id) && HeadOf(h, r.key) && r.number == h.number && SameText(Some(r.hash), h.hash)
  }

  predicate HeadAllowed<P(==)>(t: Table<P>, tasks: set<string>, h: Head) {
    && HeadShape(h) && (h.task.Some? ==> h.task.value in tasks)
    && (forall g | g in t.heads :: !(SameText(g.task, h.task) && g.scope == h.scope))
    && (h.number > 0 ==> exists r | r in t.revisions :: IsTarget(r, h))
  }

  predicate AdvanceAllowed<P(==)>(t: Table<P>, was: Head, now: Head) {
    && HeadShape(now)
    && (exists r | r in t.revisions :: IsTarget(r, now))
    && now.task == was.task && now.scope == was.scope && now.identity == was.identity && now.number == was.number + 1
  }

  /** The table after a statement, or None if SQLite aborts it.  Statements on absent rows change nothing. */
  function Execute<P(==)>(t: Table<P>, tasks: set<string>, hashed: bool, s: Statement<P>): Option<Table<P>> {
    match s
    case InsertHead(h) => if HeadAllowed(t, tasks, h) then Some(t.(heads := t.heads + {h})) else None
    case UpdateHead(was, now) =>
      if was !in t.heads then Some(t)
      else if AdvanceAllowed(t, was, now) then Some(t.(heads := t.heads - {was} + {now}))
      else None
    case DeleteHead(h) =>
      if h !in t.heads then Some(t)
      else if h.task.Some? && h.task.value in tasks then None
      else Some(t.(heads := t.heads - {h}))
    case InsertRevision(r) =>
      if RevisionAllowed(t, tasks, hashed, r) then Some(t.(revisions := t.revisions + {r})) else None
    case UpdateRevision(r, _) => if r in t.revisions then None else Some(t)
    case DeleteRevision(r) =>
      if r !in t.revisions then Some(t)
      else if r.key.task in tasks then None
      else Some(t.(revisions := t.revisions - {r}))
  }

  /** ON DELETE CASCADE of one task. */
  function Cascade<P(==)>(t: Table<P>, task: string): Table<P> {
    Table(set r | r in t.revisions && r.key.task != task, set h | h in t.heads && h.task != Some(task))
  }

  predicate Mentions<P(==)>(t: Table<P>, task: string) {
    (exists r | r in t.revisions :: r.key.task == task) || (exists h | h in t.heads :: h.task == Some(task))
  }

  // ---- The invariant ----

  ghost predicate Holds<P>(t: Table<P>, key: Key, n: int) {
    exists r :: r in t.revisions && r.key == key && r.number == n
  }

  ghost predicate Linked<P>(t: Table<P>, hashed: bool, r: Revision<P>) {
    && r.number >= 1
    && if r.number == 1 then r.parent.None? && (hashed ==> r.parentHash.None?)
       else exists q :: q in t.revisions && IsParent(q, r, hashed)
  }

  /** The head names revision `number` exactly, and every revision up to it exists. */
  ghost predicate Anchored<P>(t: Table<P>, h: Head) {
    && h.number >= 0
    && (h.number == 0 ==> h.id.None? && h.hash.None?)
    && (h.number > 0 ==> exists r :: r in t.revisions && IsTarget(r, h))
    && (forall key, n: nat :: HeadOf(h, key) && 1 <= n <= h.number ==> Holds(t, key, n))
  }

  ghost predicate RevisionsLinked<P>(t: Table<P>, tasks: set<string>, hashed: bool) {
    forall r | r in t.revisions :: r.key.task in tasks && Linked(t, hashed, r)
  }

  ghost predicate RevisionsDistinct<P>(t: Table<P>) {
    forall r, q | r in t.revisions && q in t.revisions && r != q ::
      !(r.key == q.key && r.number == q.number) && !SameText(r.id, q.id)
  }

  ghost predicate HeadsAnchored<P>(t: Table<P>, tasks: set<string>) {
    forall h | h in t.heads :: (h.task.Some? ==> h.task.value in tasks) && Anchored(t, h)
  }

  ghost predicate HeadsDistinct<P>(t: Table<P>) {
    forall h, g | h in t.heads && g in t.heads && h != g :: !(SameText(h.task, g.task) && h.scope == g.scope)
  }

  /** Some head of its key is at most one behind. */
  ghost predicate Followed<P>(t: Table<P>, r: Revision<P>) {
    exists h :: h in t.heads && HeadOf(h, r.key) && r.number <= h.number + 1
  }

  ghost predicate Sound<P>(t: Table<P>, tasks: set<string>, hashed: bool) {
    && RevisionsLinked(t, tasks, hashed) && RevisionsDistinct(t)
    && HeadsAnchored(t, tasks) && HeadsDistinct(t)
    && forall r | r in t.revisions :: Followed(t, r)
  }

  lemma HoldsGrows<P>(t: Table<P>, t': Table<P>, h: Head)
    requires Anchored(t, h) && t.revisions <= t'.revisions
    ensures Anchored(t', h)
  {
    forall key, n: nat | HeadOf(h, key) && 1 <= n <= h.number ensures Holds(t', key, n) {
      assert Holds(t, key, n);
    }
  }

  lemma LinkedGrows<P>(t: Table<P>, t': Table<P>, hashed: bool, r: Revision<P>)
    requires Linked(t, hashed, r) && t.revisions <= t'.revisions
    ensures Linked(t', hashed, r)
  {
  }

  lemma LinkedStays<P>(t: Table<P>, t': Table<P>, tasks: set<string>, hashed: bool)
    requires RevisionsLinked(t, tasks, hashed) && t'.revisions == t.revisions
    ensures RevisionsLinked(t', tasks, hashed)
  {
    forall r | r in t'.revisions ensures Linked(t', hashed, r) { LinkedGrows(t, t', hashed, r); }
  }

  lemma InsertLinks<P>(t: Table<P>, tasks: set<string>, hashed: bool, r: Revision<P>)
    requires Sound(t, tasks, hashed) && RevisionAllowed(t, tasks, hashed, r)
    ensures RevisionsLinked(t.(revisions := t.revisions + {r}), tasks, hashed)
  {
    var t' := t.(revisions := t.revisions + {r});
    assert Linked(t, hashed, r);
    forall q | q in t'.revisions ensures Linked(t', hashed, q) { LinkedGrows(t, t', hashed, q); }
  }

  lemma InsertStaysDistinct<P>(t: Table<P>, r: Revision<P>)
    requires RevisionsDistinct(t) && RevisionUnique(t, r)
    ensures RevisionsDistinct(t.(revisions := t.revisions + {r}))
  {
  }

  lemma InsertIsFollowed<P>(t: Table<P>, tasks: set<string>, hashed: bool, r: Revision<P>)
    requires RevisionAllowed(t, tasks, hashed, r) && forall q | q in t.revisions :: Followed(t, q)
    ensures var t' := t.(revisions := t.revisions + {r}); forall q | q in t'.revisions :: Followed(t', q)
  {
    var t' := t.(revisions := t.revisions + {r});
    var g :| g in t.heads && BasedOn(g, r, hashed);
    assert Followed(t', r);
    forall q | q in t.revisions ensures Followed(t', q) {
      assert Followed(t, q);
      var h :| h in t.heads && HeadOf(h, q.key) && q.number <= h.number + 1;
      assert h in t'.heads;
    }
  }

  lemma InsertKeepsSound<P>(t: Table<P>, tasks: set<string>, hashed: bool, r: Revision<P>)
    requires Sound(t, tasks, hashed) && RevisionAllowed(t, tasks, hashed, r)
    ensures Sound(t.(revisions := t.revisions + {r}), tasks, hashed)
  {
    var t' := t.(revisions := t.revisions + {r});
    assert RevisionsLinked(t', tasks, hashed) by { InsertLinks(t, tasks, hashed, r); }
    assert RevisionsDistinct(t') by { InsertStaysDistinct(t, r); }
    assert HeadsAnchored(t', tasks) by { forall h | h in t'.heads ensures Anchored(t', h) { HoldsGrows(t, t', h); } }
    InsertIsFollowed(t, tasks, hashed, r);
  }

  lemma AdvanceAnchors<P>(t: Table<P>, tasks: set<string>, was: Head, now: Head)
    requires HeadsAnchored(t, tasks) && was in t.heads && AdvanceAllowed(t, was, now)
    ensures HeadsAnchored(t.(heads := t.heads - {was} + {now}), tasks)
  {
    var t' := t.(heads := t.heads - {was} + {now});
    var target :| target in t.revisions && IsTarget(target, now);
    forall h | h in t'.heads ensures Anchored(t', h) {
      if h == now {
        assert Anchored(t, was);
        forall key, n: nat | HeadOf(now, key) && 1 <= n <= now.number ensures Holds(t', key, n) {
          if n <= was.number {
            assert HeadOf(was, key) && Holds(t, key, n);
          } else {
            assert target.key == key;
          }
        }
      } else {
        HoldsGrows(t, t', h);
      }
    }
  }

  lemma AdvanceKeepsSound<P>(t: Table<P>, tasks: set<string>, hashed: bool, was: Head, now: Head)
    requires Sound(t, tasks, hashed) && was in t.heads && AdvanceAllowed(t, was, now)
    ensures Sound(t.(heads := t.heads - {was} + {now}), tasks, hashed)
  {
    var t' := t.(heads := t.heads - {was} + {now});
    AdvanceAnchors(t, tasks, was, now);
    LinkedStays(t, t', tasks, hashed);
    assert HeadsDistinct(t');
    forall r | r in t'.revisions ensures Followed(t', r) {
      assert Followed(t, r);
      var h :| h in t.heads && HeadOf(h, r.key) && r.number <= h.number + 1;
      if h == was { assert now in t'.heads && HeadOf(now, r.key); } else { assert h in t'.heads; }
    }
  }

  /** A task whose head is only now created has no revisions. */
  lemma NewHeadIsZero<P>(t: Table<P>, tasks: set<string>, hashed: bool, h: Head)
    requires Sound(t, tasks, hashed) && HeadAllowed(t, tasks, h)
    ensures h.number == 0
  {
  }

  lemma NewHeadKeepsSound<P>(t: Table<P>, tasks: set<string>, hashed: bool, h: Head)
    requires Sound(t, tasks, hashed) && HeadAllowed(t, tasks, h)
    ensures Sound(t.(heads := t.heads + {h}), tasks, hashed)
  {
    var t' := t.(heads := t.heads + {h});
    NewHeadIsZero(t, tasks, hashed, h);
    LinkedStays(t, t', tasks, hashed);
    assert HeadsDistinct(t');
    forall g | g in t'.heads ensures Anchored(t', g) { if g != h { HoldsGrows(t, t', g); } }
    forall r | r in t'.revisions ensures Followed(t', r) {
      assert Followed(t, r);
      var g :| g in t.heads && HeadOf(g, r.key) && r.number <= g.number + 1;
      assert g in t'.heads;
    }
  }

  /** Only heads of no task can be deleted. */
  lemma DeleteHeadKeepsSound<P>(t: Table<P>, tasks: set<string>, hashed: bool, h: Head)
    requires Sound(t, tasks, hashed) && h in t.heads && !(h.task.Some? && h.task.value in tasks)
    ensures Sound(t.(heads := t.heads - {h}), tasks, hashed)
  {
    var t' := t.(heads := t.heads - {h});
    LinkedStays(t, t', tasks, hashed);
    forall r | r in t'.revisions ensures Followed(t', r) {
      assert Followed(t, r);
      var g :| g in t.heads && HeadOf(g, r.key) && r.number <= g.number + 1;
      assert g in t'.heads;
    }
    forall g | g in t'.heads ensures Anchored(t', g) { HoldsGrows(t, t', g); }
  }

  lemma ExecuteKeepsSound<P>(t: Table<P>, tasks: set<string>, hashed: bool, s: Statement<P>)
    requires Sound(t, tasks, hashed) && Execute(t, tasks, hashed, s).Some?
    ensures Sound(Execute(t, tasks, hashed, s).value, tasks, hashed)
  {
    match s
    case InsertHead(h) => NewHeadKeepsSound(t, tasks, hashed, h);
    case UpdateHead(was, now) => if was in t.heads { AdvanceKeepsSound(t, tasks, hashed, was, now); }
    case DeleteHead(h) => if h in t.heads { DeleteHeadKeepsSound(t, tasks, hashed, h); }
    case InsertRevision(r) => InsertKeepsSound(t, tasks, hashed, r);
    case _ =>
  }

  lemma CascadeKeepsSound<P>(t: Table<P>, tasks: set<string>, hashed: bool, task: string)
    requires Sound(t, tasks, hashed)
    ensures Sound(Cascade(t, task), tasks - {task}, hashed) && !Mentions(Cascade(t, task), task)
  {
    var t' := Cascade(t, task);
    forall r | r in t'.revisions ensures Linked(t', hashed, r) {
      if r.number > 1 {
        var q :| q in t.revisions && IsParent(q, r, hashed);
        assert q in t'.revisions;
      }
    }
    forall h | h in t'.heads ensures Anchored(t', h) {
      if h.number > 0 {
        var r :| r in t.revisions && IsTarget(r, h);
        assert r in t'.revisions;
      }
      forall key, n: nat | HeadOf(h, key) && 1 <= n <= h.number ensures Holds(t', key, n) {
        assert Holds(t, key, n);
        var r :| r in t.revisions && r.key == key && r.number == n;
        assert r in t'.revisions;
      }
    }
    forall r | r in t'.revisions ensures Followed(t', r) {
      assert Followed(t, r);
      var h :| h in t.heads && HeadOf(h, r.key) && r.number <= h.number + 1;
      assert h in t'.heads;
    }
  }

  // ---- What soundness means for one key ----

  /** The last revision number of a key: its head's, or one more if a revision is waiting to be published. */
  ghost function LastNumber<P>(t: Table<P>, h: Head, key: Key): int {
    if Holds(t, key, h.number + 1) then h.number + 1 else h.number
  }

  lemma OneHead<P>(t: Table<P>, g: Head, h: Head, key: Key)
    requires HeadsDistinct(t) && g in t.heads && h in t.heads && HeadOf(g, key) && HeadOf(h, key)
    ensures g == h
  {
    assert SameText(g.task, h.task);
  }

  lemma NumberBounded<P>(t: Table<P>, tasks: set<string>, hashed: bool, h: Head, r: Revision<P>)
    requires Sound(t, tasks, hashed) && h in t.heads && HeadOf(h, r.key) && r in t.revisions
    ensures 1 <= r.number <= h.number + 1
  {
    assert Linked(t, hashed, r) && Followed(t, r);
    var g :| g in t.heads && HeadOf(g, r.key) && r.number <= g.number + 1;
    OneHead(t, g, h, r.key);
  }

  /** Revision numbers are exactly 1..k, where k is the head's number or one more. */
  lemma NumbersExact<P>(t: Table<P>, tasks: set<string>, hashed: bool, h: Head, key: Key, n: int)
    requires Sound(t, tasks, hashed) && h in t.heads && HeadOf(h, key)
    ensures Holds(t, key, n) <==> 1 <= n <= LastNumber(t, h, key)
  {
    assert Anchored(t, h);
    if Holds(t, key, n) {
      var r :| r in t.revisions && r.key == key && r.number == n;
      NumberBounded(t, tasks, hashed, h, r);
    }
  }

  /** The revision of a given number. */
  ghost function RevisionAt<P>(t: Table<P>, key: Key, n: int): (r: Revision<P>)
    requires Holds(t, key, n)
    ensures r in t.revisions && r.key == key && r.number == n
  {
    var r :| r in t.revisions && r.key == key && r.number == n;
    r
  }

  lemma OneRevision<P>(t: Table<P>, r: Revision<P>)
    requires RevisionsDistinct(t) && r in t.revisions
    ensures Holds(t, r.key, r.number) && RevisionAt(t, r.key, r.number) == r
  {
    assert Holds(t, r.key, r.number);
  }

  /** Each revision's recorded parent is its predecessor: the same id and, where recorded, the same hash. */
  lemma ParentExact<P>(t: Table<P>, tasks: set<string>, hashed: bool, r: Revision<P>)
    requires Sound(t, tasks, hashed) && r in t.revisions
    ensures r.number == 1 ==> r.parent.None?
    ensures r.number > 1 ==> Holds(t, r.key, r.number - 1)
                             && r.parent == RevisionAt(t, r.key, r.number - 1).id && r.parent.Some?
                             && (hashed ==> r.parentHash == Some(RevisionAt(t, r.key, r.number - 1).hash))
  {
    assert Linked(t, hashed, r);
    if r.number > 1 {
      var q :| q in t.revisions && IsParent(q, r, hashed);
      OneRevision(t, q);
    }
  }

  /** The head names its revision with its exact id and hash. */
  lemma HeadExact<P>(t: Table<P>, tasks: set<string>, hashed: bool, h: Head, key: Key)
    requires Sound(t, tasks, hashed) && h in t.heads && HeadOf(h, key) && h.number > 0
    ensures Holds(t, key, h.number)
    ensures h.id.Some? && h.id == RevisionAt(t, key, h.number).id && h.hash == Some(RevisionAt(t, key, h.number).hash)
  {
    assert Anchored(t, h);
    var r :| r in t.revisions && IsTarget(r, h);
    assert r.key == key;
    OneRevision(t, r);
  }

  /** The chain a head shows: revisions 1 to its number. */
  ghost function Chain<P>(t: Table<P>, h: Head, key: Key): seq<Revision<P>>
    requires Anchored(t, h) && HeadOf(h, key)
  {
    seq(h.number, i requires 0 <= i < h.number => assert Holds(t, key, i + 1); RevisionAt(t, key, i + 1))
  }

  /** Seen from one key, the later table has every row of the earlier one and a head at least as far on. */
  ghost predicate Extends<P>(t: Table<P>, t': Table<P>, key: Key) {
    && (forall r | r in t.revisions && r.key == key :: r in t'.revisions)
    && (forall h | h in t.heads && HeadOf(h, key) :: HeadReaches(t', key, h.number))
  }

  ghost predicate HeadReaches<P>(t: Table<P>, key: Key, n: int) {
    exists g :: g in t.heads && HeadOf(g, key) && n <= g.number
  }

  lemma ExtendsItself<P>(t: Table<P>, key: Key)
    ensures Extends(t, t, key)
  {
  }

  lemma ExtendsTransitive<P>(t: Table<P>, t': Table<P>, t'': Table<P>, key: Key)
    requires Extends(t, t', key) && Extends(t', t'', key)
    ensures Extends(t, t'', key)
  {
    forall h | h in t.heads && HeadOf(h, key) ensures HeadReaches(t'', key, h.number) {
      assert HeadReaches(t', key, h.number);
      var g :| g in t'.heads && HeadOf(g, key) && h.number <= g.number;
      assert HeadReaches(t'', key, g.number);
    }
  }

  lemma ExecuteExtends<P>(t: Table<P>, tasks: set<string>, hashed: bool, s: Statement<P>, key: Key)
    requires key.task in tasks && Execute(t, tasks, hashed, s).Some?
    ensures Extends(t, Execute(t, tasks, hashed, s).value, key)
  {
    var t' := Execute(t, tasks, hashed, s).value;
    forall h | h in t.heads && HeadOf(h, key) ensures HeadReaches(t', key, h.number) {
      if s.UpdateHead? && s.was == h {
        assert s.now in t'.heads && HeadOf(s.now, key);
      } else {
        assert h in t'.heads;
      }
    }
  }

  lemma CascadeExtends<P>(t: Table<P>, task: string, key: Key)
    requires key.task != task
    ensures Extends(t, Cascade(t, task), key)
  {
    forall h | h in t.heads && HeadOf(h, key) ensures HeadReaches(Cascade(t, task), key, h.number) {
      assert h in Cascade(t, task).heads;
    }
  }

  lemma RevisionStays<P>(t: Table<P>, t': Table<P>, key: Key, n: int)
    requires RevisionsDistinct(t') && Extends(t, t', key) && Holds(t, key, n)
    ensures Holds(t', key, n) && RevisionAt(t', key, n) == RevisionAt(t, key, n)
  {
    var r := RevisionAt(t, key, n);
    OneRevision(t', r);
  }

  /** A later head shows an extension of what an earlier head showed. */
  lemma ChainExtends<P>(t: Table<P>, t': Table<P>, h: Head, h': Head, key: Key)
    requires RevisionsDistinct(t') && HeadsDistinct(t') && Extends(t, t', key)
    requires h in t.heads && h' in t'.heads && HeadOf(h, key) && HeadOf(h', key)
    requires Anchored(t, h) && Anchored(t', h')
    ensures Chain(t, h, key) <= Chain(t', h', key)
  {
    assert HeadReaches(t', key, h.number);
    var g :| g in t'.heads && HeadOf(g, key) && h.number <= g.number;
    OneHead(t', g, h', key);
    var c, c' := Chain(t, h, key), Chain(t', h', key);
    forall i | 0 <= i < h.number ensures c[i] == c'[i] {
      assert Holds(t, key, i + 1);
      RevisionStays(t, t', key, i + 1);
    }
  }

  /** Two revisions of one key naming the same parent have the same number. */
  lemma SameParentSameNumber<P>(t: Table<P>, hashed: bool, first: Revision<P>, second: Revision<P>)
    requires RevisionsDistinct(t) && Linked(t, hashed, first) && Linked(t, hashed, second) && first.parent == second.parent
    ensures first.number == second.number
  {
    if first.number > 1 && second.number > 1 {
      var p :| p in t.revisions && IsParent(p, first, hashed);
      var q :| q in t.revisions && IsParent(q, second, hashed);
      assert SameText(p.id, q.id);
    }
  }

  lemma BaseIsParent<P>(t: Table<P>, tasks: set<string>, hashed: bool, h: Head, r: Revision<P>)
    requires HeadsAnchored(t, tasks) && h in t.heads && BasedOn(h, r, hashed)
    ensures r.key.task in tasks && (r.number > 1 ==> HasParent(t, r, hashed))
  {
    assert Anchored(t, h);
    if r.number > 1 {
      var q :| q in t.revisions && IsTarget(q, h);
      assert IsParent(q, r, hashed);
    }
  }

  /** A well-formed revision with a new id gets in exactly when it builds on the head and nobody else has. */
  lemma AppendExactlyWhenBased<P>(t: Table<P>, tasks: set<string>, hashed: bool, r: Revision<P>)
    requires Sound(t, tasks, hashed) && RevisionShape(r, hashed) && forall q | q in t.revisions :: !SameText(q.id, r.id)
    ensures RevisionAllowed(t, tasks, hashed, r) <==> HasBase(t, r, hashed) && !Holds(t, r.key, r.number)
  {
    if HasBase(t, r, hashed) {
      var h :| h in t.heads && BasedOn(h, r, hashed);
      BaseIsParent(t, tasks, hashed, h, r);
    }
  }

  /** The head can then be moved to the revision just written. */
  lemma AppendedCanBePublished<P>(t: Table<P>, was: Head, r: Revision<P>)
    requires was in t.heads && was.number >= 0 && r in t.revisions && r.id.Some? && HeadOf(was, r.key) && r.number == was.number + 1
    requires IsHash(r.hash)
    ensures AdvanceAllowed(t, was, was.(number := r.number, id := r.id, hash := Some(r.hash)))
  {
    assert IsTarget(r, was.(number := r.number, id := r.id, hash := Some(r.hash)));
  }

  lemma AllowedIsLinked<P>(t: Table<P>, tasks: set<string>, hashed: bool, r: Revision<P>)
    requires RevisionAllowed(t, tasks, hashed, r)
    ensures Linked(t, hashed, r) && RevisionUnique(t, r)
  {
  }

  lemma SameParentAborts<P>(t: Table<P>, tasks: set<string>, hashed: bool, first: Revision<P>, second: Revision<P>)
    requires RevisionsDistinct(t) && first in t.revisions && Linked(t, hashed, first)
    requires first.key == second.key && first.parent == second.parent
    ensures !RevisionAllowed(t, tasks, hashed, second)
  {
    if RevisionAllowed(t, tasks, hashed, second) {
      AllowedIsLinked(t, tasks, hashed, second);
      SameParentSameNumber(t, hashed, first, second);
      assert false;
    }
  }

  lemma SoundRow<P>(t: Table<P>, tasks: set<string>, hashed: bool, r: Revision<P>)
    requires Sound(t, tasks, hashed) && r in t.revisions
    ensures RevisionsDistinct(t) && Linked(t, hashed, r)
  {
  }

  /** Of two revisions based on the same parent, the table never accepts the second. */
  lemma SecondWriterAborts<P>(t: Table<P>, tasks: set<string>, hashed: bool, first: Revision<P>, second: Revision<P>)
    requires Sound(t, tasks, hashed) && first in t.revisions
    requires first.key == second.key && first.parent == second.parent
    ensures Execute(t, tasks, hashed, InsertRevision(second)).None?
  {
    SoundRow(t, tasks, hashed, first);
    SameParentAborts(t, tasks, hashed, first, second);
  }
}
