/** The size limits of a schema, checked with an explicit stack and defined by recursion on the tree. */
module SchemaLimits {

  /** A Python value offered as a schema. */
  datatype Value =
    | NoneValue
    | BoolValue
    | Text(s: string)
    | Integer(n: int)
    | Float(finite: bool, printed: nat)           // printed: how many characters `str` gives
    | List(items: seq<Value>)
    | Tuple(items: seq<Value>)
    | Dict(entries: seq<Entry>)
    | Other                                      // no JSON counterpart, subclasses of int and float included

  datatype Key = TextKey(s: string) | OtherKey
  datatype Entry = Entry(key: Key, value: Value)

  const MAX_DEPTH := 64
  const MAX_BRANCHES := 256
  const MAX_ITEMS := 10000
  const MAX_NODES := 100000
  const MAX_BYTES := 1000000
  const BRANCH_KEYWORDS := {"anyOf", "oneOf", "allOf"}

  function CharBytes(c: char): nat {
    if c as int < 0x80 then 1 else if c as int < 0x800 then 2 else if c as int < 0x10000 then 3 else 4
  }

  /** Length of the UTF-8 encoding. */
  function Utf8Length(s: string): nat {
    if s == "" then 0 else CharBytes(s[0]) + Utf8Length(s[1..])
  }

  function KeyBytes(k: Key): nat {
    if k.TextKey? then Utf8Length(k.s) else 0
  }

  const MAX_BITS := 4096

  /** Python's `bit_length`. */
  function BitLength(n: int): nat
    decreases if n < 0 then -n else n
  {
    if n == 0 then 0 else 1 + BitLength((if n < 0 then -n else n) / 2)
  }

  function DigitCount(n: nat): nat {
    if n < 10 then 1 else 1 + DigitCount(n / 10)
  }

  /** Length of `str(n)`. */
  function PrintedLength(n: int): nat {
    if n < 0 then 1 + DigitCount(-n) else DigitCount(n)
  }

  function Pow2(b: nat): nat {
    if b == 0 then 1 else 2 * Pow2(b - 1)
  }

  /** The bit limit is a bound on the magnitude, the same on both sides of zero. */
  lemma {:induction false} BitLengthBounds(n: int, b: nat)
    ensures BitLength(n) <= b <==> n < Pow2(b) && -n < Pow2(b)
    decreases b
  {
    var m := if n < 0 then -n else n;
    if n == 0 {
      PowersArePositive(b);
    } else if b > 0 {
      BitLengthBounds(m / 2, b - 1);
    }
  }

  lemma PowersArePositive(b: nat)
    ensures Pow2(b) > 0
  {
  }

  // ---- Recursive definitions ----

  function Max(a: nat, b: nat): nat { if a < b then b else a }

  /** Depth of the deepest node below a node at the given depth. */
  function Depth(v: Value, depth: nat): nat
    decreases v, 1
  {
    match v
    case List(items) => Max(depth, DepthOf(items, depth + 1))
    case Tuple(items) => Max(depth, DepthOf(items, depth + 1))
    case Dict(entries) => Max(depth, EntriesDepth(entries, depth + 1))
    case _ => depth
  }

  function DepthOf(vs: seq<Value>, depth: nat): nat
    decreases vs, 0
  {
    if vs == [] then 0 else Max(Depth(vs[0], depth), DepthOf(vs[1..], depth))
  }

  function EntriesDepth(es: seq<Entry>, depth: nat): nat
    decreases es, 0
  {
    if es == [] then 0
    else
      assert es[0].value < es[0];
      Max(Depth(es[0].value, depth), EntriesDepth(es[1..], depth))
  }

  function Nodes(v: Value): nat
    decreases v, 1
  {
    match v
    case List(items) => 1 + NodesOf(items)
    case Tuple(items) => 1 + NodesOf(items)
    case Dict(entries) => 1 + EntriesNodes(entries)
    case _ => 1
  }

  function NodesOf(vs: seq<Value>): nat
    decreases vs, 0
  {
    if vs == [] then 0 else Nodes(vs[0]) + NodesOf(vs[1..])
  }

  function EntriesNodes(es: seq<Entry>): nat
    decreases es, 0
  {
    if es == [] then 0
    else
      assert es[0].value < es[0];
      Nodes(es[0].value) + EntriesNodes(es[1..])
  }

  function Bytes(v: Value): nat
    decreases v, 1
  {
    match v
    case Text(s) => Utf8Length(s)
    case Integer(n) => PrintedLength(n)
    case Float(_, printed) => printed
    case List(items) => BytesOf(items)
    case Tuple(items) => BytesOf(items)
    case Dict(entries) => EntriesBytes(entries)
    case _ => 0
  }

  function BytesOf(vs: seq<Value>): nat
    decreases vs, 0
  {
    if vs == [] then 0 else Bytes(vs[0]) + BytesOf(vs[1..])
  }

  function EntriesBytes(es: seq<Entry>): nat
    decreases es, 0
  {
    if es == [] then 0
    else
      assert es[0].value < es[0];
      KeyBytes(es[0].key) + Bytes(es[0].value) + EntriesBytes(es[1..])
  }

  /** A branch keyword counts its alternatives only when its value is a list, not a tuple. */
  predicate EntryLegal(e: Entry) {
    e.key.TextKey? && !(e.key.s in BRANCH_KEYWORDS && e.value.List? && |e.value.items| > MAX_BRANCHES)
  }

  /** Sizes, keys and scalars of one node. */
  predicate NodeLegal(v: Value) {
    match v
    case List(items) => |items| <= MAX_ITEMS
    case Tuple(items) => |items| <= MAX_ITEMS
    case Dict(entries) => |entries| <= MAX_ITEMS && forall e | e in entries :: EntryLegal(e)
    case Integer(n) => BitLength(n) <= MAX_BITS
    case Float(finite, _) => finite
    case Other => false
    case _ => true
  }

  predicate AllLegal(v: Value)
    decreases v
  {
    && NodeLegal(v)
    && match v
       case List(items) => (forall c | c in items :: AllLegal(c))
       case Tuple(items) => (forall c | c in items :: AllLegal(c))
       case Dict(entries) => (forall e | e in entries :: AllLegal(e.value))
       case _ => true
  }

  predicate WithinLimits(v: Value) {
    Depth(v, 0) <= MAX_DEPTH && Nodes(v) <= MAX_NODES && Bytes(v) <= MAX_BYTES && AllLegal(v)
  }

  // ---- The same, said of nodes and paths ----

  function Below(v: Value): seq<Value> {
    match v
    case List(items) => items
    case Tuple(items) => items
    case Dict(entries) => seq(|entries|, i requires 0 <= i < |entries| => entries[i].value)
    case _ => []
  }

  /** Some path of so many steps leads down from the node. */
  predicate HasPath(v: Value, steps: nat)
    decreases steps
  {
    steps == 0 || exists c | c in Below(v) :: HasPath(c, steps - 1)
  }

  /** All nodes of a value, itself included. */
  function Inside(v: Value): set<Value>
    decreases v
  {
    {v} + match v
          case List(items) => (set c, x | c in items && x in Inside(c) :: x)
          case Tuple(items) => (set c, x | c in items && x in Inside(c) :: x)
          case Dict(entries) => (set e, x | e in entries && x in Inside(e.value) :: x)
          case _ => {}
  }

  predicate NodeFits(v: Value) {
    match v
    case List(items) => |items| <= 10000
    case Tuple(items) => |items| <= 10000
    case Dict(entries) =>
      && |entries| <= 10000
      && forall e | e in entries ::
           e.key.TextKey? && (e.key.s in {"anyOf", "oneOf", "allOf"} && e.value.List? ==> |e.value.items| <= 256)
    case Integer(n) => BitLength(n) <= 4096
    case Float(finite, _) => finite
    case Other => false
    case _ => true
  }

  lemma {:induction false} DepthIsPath(v: Value, depth: nat, steps: nat)
    ensures Depth(v, depth) >= depth + steps <==> HasPath(v, steps)
    decreases v, 1, steps
  {
    hide Depth, DepthOf, EntriesDepth, HasPath;
    DepthAtLeast(v, depth);
    if steps == 0 {
      NoSteps(v);
    } else {
      match v
      case List(items) =>
        ListDepthIsPath(items, depth + 1, steps - 1);
        ListPath(v, items, depth, steps);
      case Tuple(items) =>
        ListDepthIsPath(items, depth + 1, steps - 1);
        ListPath(v, items, depth, steps);
      case Dict(entries) =>
        EntriesDepthIsPath(entries, depth + 1, steps - 1);
        EntriesPath(v, depth, steps);
      case _ => LeafPath(v, depth, steps);
    }
  }

  lemma NoSteps(v: Value)
    ensures HasPath(v, 0)
  {
  }

  lemma ListPath(v: Value, items: seq<Value>, depth: nat, steps: nat)
    requires steps > 0 && (v == List(items) || v == Tuple(items))
    ensures HasPath(v, steps) <==> exists c | c in items :: HasPath(c, steps - 1)
    ensures Depth(v, depth) >= depth + steps <==> DepthOf(items, depth + 1) >= depth + steps
  {
    hide DepthOf;
    assert Below(v) == items;
  }

  lemma EntriesPath(v: Value, depth: nat, steps: nat)
    requires steps > 0 && v.Dict?
    ensures HasPath(v, steps) <==> exists e | e in v.entries :: HasPath(e.value, steps - 1)
    ensures Depth(v, depth) >= depth + steps <==> EntriesDepth(v.entries, depth + 1) >= depth + steps
  {
    hide EntriesDepth;
    DictPath(v, steps - 1);
  }

  lemma LeafPath(v: Value, depth: nat, steps: nat)
    requires steps > 0 && !v.List? && !v.Tuple? && !v.Dict?
    ensures !HasPath(v, steps) && Depth(v, depth) == depth
  {
  }

  lemma ValuesBelow(v: Value)
    requires v.Dict?
    ensures forall c :: c in Below(v) <==> exists e | e in v.entries :: e.value == c
  {
    forall e | e in v.entries ensures e.value in Below(v) {
      var i :| 0 <= i < |v.entries| && v.entries[i] == e;
      assert Below(v)[i] == e.value;
    }
  }

  lemma DictPath(v: Value, steps: nat)
    requires v.Dict?
    ensures (exists c | c in Below(v) :: HasPath(c, steps)) <==> exists e | e in v.entries :: HasPath(e.value, steps)
  {
    hide HasPath, Below;
    ValuesBelow(v);
    if c :| c in Below(v) && HasPath(c, steps) {
      var e :| e in v.entries && e.value == c;
      assert HasPath(e.value, steps);
    }
    if e :| e in v.entries && HasPath(e.value, steps) { assert e.value in Below(v); }
  }

  lemma DepthAtLeast(v: Value, depth: nat)
    ensures Depth(v, depth) >= depth
  {
  }

  lemma {:induction false} ListDepthIsPath(vs: seq<Value>, depth: nat, steps: nat)
    ensures DepthOf(vs, depth) >= depth + steps <==> (exists c | c in vs :: HasPath(c, steps)) || depth + steps == 0
    decreases vs, 0, steps
  {
    if vs != [] {
      DepthIsPath(vs[0], depth, steps);
      ListDepthIsPath(vs[1..], depth, steps);
      assert forall c :: c in vs <==> c == vs[0] || c in vs[1..];
    }
  }

  lemma {:induction false} EntriesDepthIsPath(es: seq<Entry>, depth: nat, steps: nat)
    ensures EntriesDepth(es, depth) >= depth + steps <==> (exists e | e in es :: HasPath(e.value, steps)) || depth + steps == 0
    decreases es, 0, steps
  {
    if es != [] {
      assert es[0].value < es[0];
      DepthIsPath(es[0].value, depth, steps);
      EntriesDepthIsPath(es[1..], depth, steps);
      assert forall e :: e in es <==> e == es[0] || e in es[1..];
    }
  }

  lemma {:induction false} LegalInside(v: Value)
    ensures AllLegal(v) <==> forall x | x in Inside(v) :: NodeFits(x)
    decreases v
  {
    assert v in Inside(v) && (NodeLegal(v) <==> NodeFits(v));
    match v
    case List(items) =>
      forall c | c in items ensures AllLegal(c) <==> forall x | x in Inside(c) :: NodeFits(x) { LegalInside(c); }
      assert forall c, x | c in items && x in Inside(c) :: x in Inside(v);
    case Tuple(items) =>
      forall c | c in items ensures AllLegal(c) <==> forall x | x in Inside(c) :: NodeFits(x) { LegalInside(c); }
      assert forall c, x | c in items && x in Inside(c) :: x in Inside(v);
    case Dict(entries) =>
      forall e | e in entries ensures AllLegal(e.value) <==> forall x | x in Inside(e.value) :: NodeFits(x) {
        LegalInside(e.value);
      }
      assert forall e, x | e in entries && x in Inside(e.value) :: x in Inside(v);
    case _ =>
  }

  /** The limits: no path of 65 steps, 100000 nodes, a million bytes, and what each node may be by itself. */
  lemma WithinLimitsExactly(v: Value)
    ensures WithinLimits(v) <==>
      !HasPath(v, 65) && Nodes(v) <= 100000 && Bytes(v) <= 1000000 && forall x | x in Inside(v) :: NodeFits(x)
  {
    DepthIsPath(v, 0, 65);
    LegalInside(v);
  }

  // ---- The stack ----

  type Pending = seq<(Value, nat)>

  function PendingNodes(p: Pending): nat {
    if p == [] then 0 else Nodes(p[0].0) + PendingNodes(p[1..])
  }

  function PendingBytes(p: Pending): nat {
    if p == [] then 0 else Bytes(p[0].0) + PendingBytes(p[1..])
  }

  ghost predicate PendingLegal(p: Pending) {
    forall x | x in p :: AllLegal(x.0) && Depth(x.0, x.1) <= MAX_DEPTH
  }

  lemma {:induction false} PendingAppend(a: Pending, b: Pending)
    ensures PendingNodes(a + b) == PendingNodes(a) + PendingNodes(b)
    ensures PendingBytes(a + b) == PendingBytes(a) + PendingBytes(b)
    ensures PendingLegal(a + b) <==> PendingLegal(a) && PendingLegal(b)
  {
    if a == [] {
      assert a + b == b;
    } else {
      assert (a + b)[1..] == a[1..] + b;
      PendingAppend(a[1..], b);
      assert PendingLegal(a + b) <==> PendingLegal([a[0]]) && PendingLegal((a + b)[1..]);
      assert PendingLegal(a) <==> PendingLegal([a[0]]) && PendingLegal(a[1..]);
    }
  }

  lemma PendingOne(v: Value, depth: nat)
    ensures PendingNodes([(v, depth)]) == Nodes(v) && PendingBytes([(v, depth)]) == Bytes(v)
    ensures PendingLegal([(v, depth)]) <==> AllLegal(v) && Depth(v, depth) <= MAX_DEPTH
  {
    assert [(v, depth)][1..] == [];
    assert (v, depth) in [(v, depth)];
  }

  function Level(vs: seq<Value>, depth: nat): Pending {
    seq(|vs|, i requires 0 <= i < |vs| => (vs[i], depth))
  }

  lemma {:induction false} LevelSums(vs: seq<Value>, depth: nat)
    ensures PendingNodes(Level(vs, depth)) == NodesOf(vs) && PendingBytes(Level(vs, depth)) == BytesOf(vs)
    ensures PendingLegal(Level(vs, depth)) <==> (forall c | c in vs :: AllLegal(c)) && DepthOf(vs, depth) <= MAX_DEPTH
  {
    if vs != [] {
      LevelSums(vs[1..], depth);
      assert Level(vs, depth) == [(vs[0], depth)] + Level(vs[1..], depth);
      PendingOne(vs[0], depth);
      PendingAppend([(vs[0], depth)], Level(vs[1..], depth));
      assert (forall c | c in vs :: AllLegal(c)) <==> AllLegal(vs[0]) && forall c | c in vs[1..] :: AllLegal(c);
    }
  }

  function Children(es: seq<Entry>): seq<Value> {
    seq(|es|, i requires 0 <= i < |es| => es[i].value)
  }

  lemma {:induction false} ChildrenSums(es: seq<Entry>, depth: nat)
    ensures NodesOf(Children(es)) == EntriesNodes(es) && DepthOf(Children(es), depth) == EntriesDepth(es, depth)
    ensures BytesOf(Children(es)) + KeysBytes(es) == EntriesBytes(es)
    ensures (forall c | c in Children(es) :: AllLegal(c)) <==> forall e | e in es :: AllLegal(e.value)
  {
    if es != [] {
      ChildrenSums(es[1..], depth);
      assert Children(es) == [es[0].value] + Children(es[1..]);
      assert (forall e | e in es :: AllLegal(e.value)) <==> AllLegal(es[0].value) && forall e | e in es[1..] :: AllLegal(e.value);
    }
  }

  function KeysBytes(es: seq<Entry>): nat {
    if es == [] then 0 else KeyBytes(es[0].key) + KeysBytes(es[1..])
  }

  lemma {:induction false} KeysBytesAppend(a: seq<Entry>, e: Entry)
    ensures KeysBytes(a + [e]) == KeysBytes(a) + KeyBytes(e.key)
  {
    if a == [] {
      assert KeysBytes([e]) == KeyBytes(e.key) + KeysBytes([e][1..]);
    } else {
      assert (a + [e])[1..] == a[1..] + [e];
      KeysBytesAppend(a[1..], e);
    }
  }

  /** One dictionary: legal or not, the bytes of its keys, and its children pushed in order. */
  method PushEntries(entries: seq<Entry>, depth: nat, pending: Pending) returns (ok: bool, bytes: nat, pushed: Pending)
    ensures ok <==> NodeLegal(Dict(entries))
    ensures ok ==> bytes == KeysBytes(entries) && pushed == pending + Level(Children(entries), depth)
  {
    bytes, pushed := 0, pending;
    if |entries| > MAX_ITEMS { return false, 0, pending; }
    for i := 0 to |entries|
      invariant forall j | 0 <= j < i :: EntryLegal(entries[j])
      invariant bytes == KeysBytes(entries[..i])
      invariant pushed == pending + Level(Children(entries[..i]), depth)
    {
      if !EntryLegal(entries[i]) {
        assert entries[i] in entries;
        return false, 0, pending;
      }
      assert entries[..i + 1] == entries[..i] + [entries[i]];
      KeysBytesAppend(entries[..i], entries[i]);
      LevelAppend(entries[..i], entries[i], depth);
      bytes := bytes + KeyBytes(entries[i].key);
      pushed := pushed + [(entries[i].value, depth)];
    }
    assert entries[..|entries|] == entries;
    return true, bytes, pushed;
  }

  lemma LevelAppend(es: seq<Entry>, e: Entry, depth: nat)
    ensures Level(Children(es + [e]), depth) == Level(Children(es), depth) + [(e.value, depth)]
  {
  }

  function ChildrenOf(v: Value): seq<Value> {
    match v
    case List(items) => items
    case Tuple(items) => items
    case Dict(entries) => Children(entries)
    case _ => []
  }

  function OwnBytes(v: Value): nat {
    match v
    case Text(s) => Utf8Length(s)
    case Integer(n) => PrintedLength(n)
    case Float(_, printed) => printed
    case Dict(entries) => KeysBytes(entries)
    case _ => 0
  }

  /** A node and its children account for the whole subtree. */
  lemma NodeSums(v: Value, depth: nat)
    ensures Nodes(v) == 1 + NodesOf(ChildrenOf(v)) && Bytes(v) == OwnBytes(v) + BytesOf(ChildrenOf(v))
    ensures Depth(v, depth) == Max(depth, DepthOf(ChildrenOf(v), depth + 1))
    ensures AllLegal(v) <==> NodeLegal(v) && forall c | c in ChildrenOf(v) :: AllLegal(c)
  {
    if v.Dict? { ChildrenSums(v.entries, depth + 1); }
  }

  /** Checks one popped node, counts its own bytes and pushes its children. */
  method Expand(current: Value, depth: nat, pending: Pending) returns (ok: bool, bytes: nat, pushed: Pending)
    ensures ok <==> NodeLegal(current)
    ensures ok ==> bytes == OwnBytes(current) && pushed == pending + Level(ChildrenOf(current), depth + 1)
  {
    ok, bytes, pushed := true, 0, pending;
    match current
    case Dict(entries) => ok, bytes, pushed := PushEntries(entries, depth + 1, pending);
    case List(items) => ok, pushed := |items| <= MAX_ITEMS, pending + Level(items, depth + 1);
    case Tuple(items) => ok, pushed := |items| <= MAX_ITEMS, pending + Level(items, depth + 1);
    case Text(s) => bytes := Utf8Length(s);
    case Integer(n) => ok, bytes := BitLength(n) <= MAX_BITS, PrintedLength(n);
    case Float(finite, printed) => ok, bytes := finite, printed;
    case Other => ok := false;
    case _ =>
  }

  lemma LevelOf(v: Value, depth: nat)
    ensures var one, level := [(v, depth)], Level(ChildrenOf(v), depth + 1);
            && PendingNodes(one) == 1 + PendingNodes(level)
            && PendingBytes(one) == OwnBytes(v) + PendingBytes(level)
            && (PendingLegal(one) <==> NodeLegal(v) && depth <= MAX_DEPTH && PendingLegal(level))
  {
    PendingOne(v, depth);
    NodeSums(v, depth);
    LevelSums(ChildrenOf(v), depth + 1);
  }

  /** Popping the last node and pushing its children keeps the totals. */
  lemma PopSums(rest: Pending, v: Value, depth: nat)
    ensures var before, after := rest + [(v, depth)], rest + Level(ChildrenOf(v), depth + 1);
            && PendingNodes(before) == 1 + PendingNodes(after)
            && PendingBytes(before) == OwnBytes(v) + PendingBytes(after)
            && (PendingLegal(before) <==> NodeLegal(v) && depth <= MAX_DEPTH && PendingLegal(after))
  {
    PendingAppend(rest, [(v, depth)]);
    PendingAppend(rest, Level(ChildrenOf(v), depth + 1));
    LevelOf(v, depth);
  }

  /** Accepts exactly the values within the recursively defined limits. */
  method CheckSchemaLimits(root: Value) returns (ok: bool)
    ensures ok <==> WithinLimits(root)
  {
    var pending: Pending := [(root, 0)];
    var nodes, bytes := 0, 0;
    PendingOne(root, 0);
    while pending != []
      invariant nodes + PendingNodes(pending) == Nodes(root)
      invariant bytes + PendingBytes(pending) == Bytes(root)
      invariant AllLegal(root) && Depth(root, 0) <= MAX_DEPTH <==> PendingLegal(pending)
      invariant nodes <= MAX_NODES && bytes <= MAX_BYTES
      decreases PendingNodes(pending)
    {
      var (current, depth) := pending[|pending| - 1];
      var rest := pending[..|pending| - 1];
      assert pending == rest + [(current, depth)];
      PopSums(rest, current, depth);
      nodes := nodes + 1;
      if depth > MAX_DEPTH || nodes > MAX_NODES { return false; }
      var legal, own, pushed := Expand(current, depth, rest);
      if !legal { return false; }
      bytes, pending := bytes + own, pushed;
      if bytes > MAX_BYTES { return false; }
    }
    return true;
  }
}
