/** Single byte ranges of RFC 9110, sections 14.1.1, 14.1.2 and 14.2, over a frozen snapshot. */
module ByteRanges {
  import opened Prelude
  import opened PythonText

  // ---- Numbers in text ----

  predicate IsAsciiDigit(c: char) {
    '0' <= c <= '9'
  }

  /** `str.isdigit` on Latin-1, which is how header values are decoded: superscripts count too. */
  predicate IsDigits(s: string) {
    s != "" && forall c | c in s :: IsAsciiDigit(c) || c == '\U{B2}' || c == '\U{B3}' || c == '\U{B9}'
  }

  predicate IsAsciiDigits(s: string) {
    s != "" && forall c | c in s :: IsAsciiDigit(c)
  }

  const MAX_INT_DIGITS := 4300

  function Value(s: string): nat {
    if s == "" then 0
    else Value(s[..|s| - 1]) * 10 + if IsAsciiDigit(s[|s| - 1]) then (s[|s| - 1] as int - '0' as int) else 0
  }

  /** Python's `int` of a digit string: superscripts and too many digits are ValueErrors. */
  function ToInt(s: string): Option<nat> {
    if |s| <= MAX_INT_DIGITS && IsAsciiDigits(s) then Some(Value(s)) else None
  }

  function Decimal(n: nat): (r: string)
    ensures IsAsciiDigits(r) && Value(r) == n
  {
    var digit := [(n % 10 + '0' as int) as char];
    if n < 10 then digit
    else
      var rest := Decimal(n / 10);
      assert (rest + digit)[..|rest|] == rest;
      rest + digit
  }

  // ---- The code's reading of a Range header ----

  /** None, a pair of positions, or a ValueError. */
  datatype Verdict = Whole | Part(first: nat, last: nat) | Unsatisfiable

  function SingleByteRange(header: Option<string>, length: nat): (v: Verdict)
    ensures v.Part? ==> v.first <= v.last < length
  {
    if header.None? || header.value == "" then Whole
    else
      var (unit, separator, raw) := Partition(Strip(header.value), '=');
      if !separator || Lower(unit) != "bytes" then Whole
      else if length == 0 || ',' in raw then Unsatisfiable
      else
        var (startText, dash, endText) := Partition(Strip(raw), '-');
        if !dash || (startText == "" && endText == "") then Unsatisfiable
        else if startText == "" then SuffixRange(endText, length)
        else PositionRange(startText, endText, length)
  }

  function SuffixRange(endText: string, length: nat): (v: Verdict)
    requires length > 0
    ensures v.Part? ==> v.first <= v.last < length
  {
    if !IsDigits(endText) then Unsatisfiable
    else match ToInt(endText)
      case None => Unsatisfiable
      case Some(n) => if n == 0 then Unsatisfiable else Part(length - (if n < length then n else length), length - 1)
  }

  function PositionRange(startText: string, endText: string, length: nat): (v: Verdict)
    requires length > 0
    ensures v.Part? ==> v.first <= v.last < length
  {
    if !IsDigits(startText) then Unsatisfiable
    else match ToInt(startText)
      case None => Unsatisfiable
      case Some(start) =>
        if start >= length then Unsatisfiable
        else if endText == "" then Part(start, length - 1)
        else if !IsDigits(endText) then Unsatisfiable
        else match ToInt(endText)
          case None => Unsatisfiable
          case Some(n) =>
            var end := if n < length - 1 then n else length - 1;
            if end < start then Unsatisfiable else Part(start, end)
  }

  /** The header, once trimmed, names the unit `bytes`, in any case, before its first equals sign. */
  ghost predicate AsksForBytes(header: Option<string>) {
    header.Some? && var s := Strip(header.value);
      exists i :: 0 <= i < |s| && s[i] == '=' && '=' !in s[..i] && Lower(s[..i]) == "bytes"
  }

  /** Everything is served exactly when no range of bytes is asked for: no header, or another unit. */
  lemma WholeExactly(header: Option<string>, length: nat)
    ensures SingleByteRange(header, length).Whole? <==> !AsksForBytes(header)
  {
    hide Lower, Strip, Value;
    if header.Some? {
      var s := Strip(header.value);
      FirstOnly(s, '=');
      StripNothing();
    }
  }

  lemma StripNothing()
    ensures Strip("") == ""
  {
  }

  /** The text before the first equals sign is the only beginning that ends at one and has none inside. */
  lemma FirstOnly(s: string, c: char)
    ensures var (before, found, _) := Partition(s, c);
      && (found ==> |before| < |s| && s[|before|] == c && s[..|before|] == before && c !in before)
      && forall i | 0 <= i < |s| && s[i] == c && c !in s[..i] :: found && i == |before|
  {
    PartitionsAtFirst(s, c);
    var (before, found, after) := Partition(s, c);
    if found {
      assert s[|before|] == c && s[..|before|] == before;
      forall i | 0 <= i < |s| && s[i] == c && c !in s[..i] ensures i == |before| {
        assert forall k | 0 <= k < |before| :: s[k] == before[k] && s[k] in before;
        assert forall k | 0 <= k < i :: s[..i][k] == s[k] && s[k] in s[..i];
      }
    }
  }

  lemma PartitionsAtFirst(s: string, c: char)
    ensures var (before, found, after) := Partition(s, c);
      && (found <==> c in s) && (found ==> s == before + [c] + after && c !in before)
  {
  }

  // ---- The RFC's reading ----

  /** `int-range` and `suffix-range` of section 14.1.1. */
  datatype RangeSpec = IntRange(first: nat, last: Option<nat>) | Suffix(length: nat)

  /** Two digit strings around a hyphen, at least one of them not empty. */
  datatype Digits = Digits(first: string, last: string)

  predicate Written(d: Digits) {
    (d.first != "" || d.last != "") && (d.first == "" || IsAsciiDigits(d.first)) && (d.last == "" || IsAsciiDigits(d.last))
  }

  function SpecText(d: Digits): string {
    d.first + "-" + d.last
  }

  /** The range-spec that the text stands for. */
  function SpecOf(d: Digits): RangeSpec
    requires Written(d)
  {
    if d.first == "" then Suffix(Value(d.last))
    else IntRange(Value(d.first), if d.last == "" then None else Some(Value(d.last)))
  }

  /**
   * What a range-spec means for content of some length: section 14.1.1 on invalid, 14.1.2 on satisfiable ones.  For
   * empty content a suffix of non-zero length is the only satisfiable spec; it selects the empty whole.
   */
  datatype Meaning = Selects(first: nat, last: nat) | SelectsEmptyWhole | Unsatisfied | Invalid

  function Mean(spec: RangeSpec, length: nat): Meaning {
    match spec
    case IntRange(first, None) => if first < length then Selects(first, length - 1) else Unsatisfied
    case IntRange(first, Some(last)) =>
      if last < first then Invalid
      else if first < length then Selects(first, if last < length then last else length - 1)
      else Unsatisfied
    case Suffix(n) =>
      if n == 0 then Unsatisfied
      else if length == 0 then SelectsEmptyWhole
      else Selects(if n < length then length - n else 0, length - 1)
  }

  function Means(ds: seq<Digits>, length: nat): seq<Meaning>
    requires forall d | d in ds :: Written(d)
  {
    seq(|ds|, i requires 0 <= i < |ds| => Mean(SpecOf(ds[i]), length))
  }

  /**
   * The answers section 14.2 leaves open for a ranges-specifier: the field may always be ignored; an invalid or
   * excessive specifier, or one that no content satisfies, may be refused; a single part answers only a specifier
   * that is valid and selects just this part.  What counts as excessive is up to the server.
   */
  predicate Allows(meanings: seq<Meaning>, excessive: bool, answer: Verdict) {
    match answer
    case Whole => true
    case Part(first, last) =>
      Selects(first, last) in meanings && forall m | m in meanings :: m == Selects(first, last) || m.Unsatisfied?
    case Unsatisfiable => excessive || Invalid in meanings || forall m | m in meanings :: m.Unsatisfied?
  }

  lemma DigitsAreClean(d: string)
    requires IsAsciiDigits(d)
    ensures '-' !in d && '=' !in d && ',' !in d && forall c | c in d :: !IsSpace(c)
  {
  }

  lemma SpecTextIsClean(d: Digits)
    requires Written(d)
    ensures var text := SpecText(d);
      !IsSpace(text[0]) && !IsSpace(text[|text| - 1]) && ',' !in text && Partition(text, '-') == (d.first, true, d.last)
  {
    var text := SpecText(d);
    if d.first != "" { DigitsAreClean(d.first); assert text[0] == d.first[0] && d.first[0] in d.first; }
    if d.last != "" { DigitsAreClean(d.last); assert text[|text| - 1] == d.last[|d.last| - 1] && d.last[|d.last| - 1] in d.last; }
    assert text == d.first + ['-'] + d.last;
    PartitionAt(d.first, '-', d.last);
  }

  // ---- Single specs ----

  /** What the code makes of a single spec, all white space and the unit out of the way. */
  function SingleSpec(d: Digits, length: nat): Verdict {
    if length == 0 || (d.first == "" && d.last == "") then Unsatisfiable
    else if d.first == "" then SuffixRange(d.last, length)
    else PositionRange(d.first, d.last, length)
  }

  /** The unit is taken off such a header, and nothing else. */
  lemma HeaderParts(text: string)
    requires text != "" && !IsSpace(text[0]) && !IsSpace(text[|text| - 1])
    ensures Strip("bytes=" + text) == "bytes=" + text && Strip(text) == text
    ensures Partition("bytes=" + text, '=') == ("bytes", true, text)
  {
    hide Strip, Partition, IsSpace;
    var h := "bytes=" + text;
    assert h[0] == 'b' && h[|h| - 1] == text[|text| - 1];
    LettersAreNoSpace('b');
    StripLeaves(h);
    StripLeaves(text);
    assert h == "bytes" + ['='] + text;
    PartitionAt("bytes", '=', text);
  }

  lemma LettersAreNoSpace(c: char)
    requires 'a' <= c <= 'z'
    ensures !IsSpace(c)
  {
  }

  lemma SingleHeader(d: Digits, length: nat)
    requires Written(d)
    ensures SingleByteRange(Some("bytes=" + SpecText(d)), length) == SingleSpec(d, length)
  {
    hide Strip, Partition, IsSpace, PositionRange, SuffixRange;
    SpecTextIsClean(d);
    HeaderParts(SpecText(d));
    assert Lower("bytes") == "bytes";
  }

  /** Every number of the spec can be read by Python. */
  predicate Readable(d: Digits) {
    |d.first| <= MAX_INT_DIGITS && |d.last| <= MAX_INT_DIGITS
  }

  lemma SingleSpecMeans(d: Digits, length: nat)
    requires Written(d)
    ensures SingleSpec(d, length) ==
      if !Readable(d) then Unsatisfiable
      else match Mean(SpecOf(d), length) case Selects(first, last) => Part(first, last) case _ => Unsatisfiable
  {
  }

  /**
   * A valid readable spec in RFC form is answered with the part it selects, or refused if it selects nothing; content
   * that is empty and asked for by a suffix apart.
   */
  lemma AgreesWithRfc(d: Digits, length: nat)
    requires Written(d) && Readable(d) && !Mean(SpecOf(d), length).Invalid?
    requires !Mean(SpecOf(d), length).SelectsEmptyWhole?
    ensures SingleByteRange(Some("bytes=" + SpecText(d)), length) ==
      match Mean(SpecOf(d), length) case Selects(first, last) => Part(first, last) case _ => Unsatisfiable
  {
    SingleHeader(d, length);
    SingleSpecMeans(d, length);
  }

  /** A suffix of an empty file is satisfiable, yet it is refused. */
  lemma SuffixOfNothingIsRefused(d: string)
    requires IsAsciiDigits(d) && Value(d) > 0
    ensures var spec := Digits("", d);
      && SingleByteRange(Some("bytes=" + SpecText(spec)), 0) == Unsatisfiable
      && !Allows(Means([spec], 0), false, Unsatisfiable)
  {
    var spec := Digits("", d);
    SingleHeader(spec, 0);
    assert Means([spec], 0)[0] == SelectsEmptyWhole;
    assert Means([spec], 0)[0] in Means([spec], 0);
  }

  /** Printing a range and reading it back gives the range, cut off at the end of the content. */
  lemma PrintedRangeIsRead(a: nat, b: nat, length: nat)
    requires a <= b && a < length && |Decimal(a)| <= 4300 && |Decimal(b)| <= 4300
    ensures SingleByteRange(Some("bytes=" + Decimal(a) + "-" + Decimal(b)), length)
         == Part(a, if b < length then b else length - 1)
  {
    var d := Digits(Decimal(a), Decimal(b));
    assert "bytes=" + Decimal(a) + "-" + Decimal(b) == "bytes=" + SpecText(d);
    AgreesWithRfc(d, length);
  }

  /** Whenever a part is served, the header names a range-spec that selects exactly this part. */
  lemma ServedPartWasAsked(header: string, length: nat) returns (unit: string, raw: string, d: Digits)
    requires SingleByteRange(Some(header), length).Part?
    ensures Strip(header) == unit + "=" + raw && Lower(unit) == "bytes" && Strip(raw) == SpecText(d)
    ensures Written(d)
    ensures var v := SingleByteRange(Some(header), length); Mean(SpecOf(d), length) == Selects(v.first, v.last)
  {
    var first := Partition(Strip(header), '=');
    unit, raw := first.0, first.2;
    var second := Partition(Strip(raw), '-');
    d := Digits(second.0, second.2);
  }

  // ---- Lists ----

  /** Stripping keeps everything up to the last character that is no white space. */
  lemma {:induction false} StripKeeps(s: string, i: nat)
    requires i < |s| && !IsSpace(s[0]) && !IsSpace(s[i])
    ensures i < |Strip(s)| && Strip(s) <= s
  {
    if IsSpace(s[|s| - 1]) { StripKeeps(s[..|s| - 1], i); }
  }

  lemma NoSpaceInBytes(unit: string)
    requires Lower(unit) == "bytes"
    ensures '=' !in unit && unit != "" && !IsSpace(unit[0])
  {
    forall i | 0 <= i < |unit| ensures unit[i] != '=' && !IsSpace(unit[i]) { assert Lower(unit)[i] == "bytes"[i]; }
  }

  /** Any bytes header with a comma in its value is refused with 416. */
  lemma CommaIsRefused(unit: string, value: string, length: nat)
    requires Lower(unit) == "bytes" && ',' in value
    ensures SingleByteRange(Some(unit + "=" + value), length) == Unsatisfiable
  {
    NoSpaceInBytes(unit);
    var h := unit + "=" + value;
    var k :| 0 <= k < |value| && value[k] == ',';
    var i := |unit| + 1 + k;
    assert h[0] == unit[0] && h[i] == ',';
    StripKeeps(h, i);
    var kept := Strip(h);
    var rest := kept[|unit| + 1..];
    assert kept == h[..|kept|];
    assert kept == unit + ['='] + rest;
    assert rest[k] == ',';
    PartitionAt(unit, '=', rest);
  }

  /**
   * The list syntax of section 5.6.1: specs with gaps before, between and after them, where a gap is white space and
   * commas, so that empty elements are covered; a gap between specs has a comma, the others have one or are empty.
   */
  predicate IsGap(gap: string) {
    forall c | c in gap :: c == ',' || c == ' ' || c == '\t'
  }

  predicate IsListed(ds: seq<Digits>, gaps: seq<string>) {
    && |gaps| == |ds| + 1 && (forall d | d in ds :: Written(d)) && (forall g | g in gaps :: IsGap(g))
    && (forall i | 0 < i < |ds| :: ',' in gaps[i])
    && forall g | g in gaps :: g == "" || ',' in g
  }

  function ListText(ds: seq<Digits>, gaps: seq<string>): string
    requires |gaps| == |ds| + 1
  {
    if ds == [] then gaps[0] else gaps[0] + SpecText(ds[0]) + ListText(ds[1..], gaps[1..])
  }

  lemma {:induction false} GapIsInText(ds: seq<Digits>, gaps: seq<string>, i: nat)
    requires |gaps| == |ds| + 1 && i < |gaps| && ',' in gaps[i]
    ensures ',' in ListText(ds, gaps)
  {
    if i > 0 {
      GapIsInText(ds[1..], gaps[1..], i - 1);
    }
  }

  lemma ListHeader(ds: seq<Digits>, gaps: seq<string>, length: nat)
    requires |gaps| == |ds| + 1 && exists g :: g in gaps && ',' in g
    ensures SingleByteRange(Some("bytes=" + ListText(ds, gaps)), length) == Unsatisfiable
  {
    hide SingleByteRange, ListText;
    var text := ListText(ds, gaps);
    var i :| 0 <= i < |gaps| && ',' in gaps[i];
    GapIsInText(ds, gaps, i);
    assert Lower("bytes") == "bytes";
    assert "bytes=" + text == "bytes" + "=" + text;
    CommaIsRefused("bytes", text, length);
  }

  // ---- When the answer is one the RFC leaves open ----

  /** A lone spec, without even an empty element beside it. */
  predicate IsSingle(ds: seq<Digits>, gaps: seq<string>) {
    |ds| == 1 && gaps == ["", ""]
  }

  /** No spec is a suffix of non-zero length; only then can empty content satisfy nothing. */
  predicate NoSuffix(ds: seq<Digits>)
    requires forall d | d in ds :: Written(d)
  {
    forall d | d in ds :: SpecOf(d).Suffix? ==> SpecOf(d).length == 0
  }

  /** The specifier is a single one with readable numbers and not a suffix of nothing, or its refusal is open anyway. */
  predicate AnsweredProperly(ds: seq<Digits>, gaps: seq<string>, length: nat, excessive: bool)
    requires forall d | d in ds :: Written(d)
  {
    || (IsSingle(ds, gaps) && Readable(ds[0]) && (length > 0 || NoSuffix(ds)))
    || excessive || Invalid in Means(ds, length) || forall m | m in Means(ds, length) :: m.Unsatisfied?
  }

  lemma SingleAnswer(d: Digits, length: nat, excessive: bool)
    requires Written(d)
    ensures Allows(Means([d], length), excessive, SingleByteRange(Some("bytes=" + SpecText(d)), length))
        <==> AnsweredProperly([d], ["", ""], length, excessive)
  {
    SingleHeader(d, length);
    SingleSpecMeans(d, length);
    var m := Mean(SpecOf(d), length);
    assert Means([d], length) == [m];
    assert m in [m] && forall x | x in [m] :: x == m;
    assert d in [d] && forall x | x in [d] :: x == d;
  }

  lemma SingleText(d: Digits)
    ensures ListText([d], ["", ""]) == SpecText(d)
  {
    assert ["", ""][1..] == [""];
    assert ListText([d][1..], [""]) == "";
  }

  lemma SomeComma(ds: seq<Digits>, gaps: seq<string>)
    requires ds != [] && IsListed(ds, gaps) && !IsSingle(ds, gaps)
    ensures exists g :: g in gaps && ',' in g
  {
    if |ds| > 1 {
      assert gaps[1] in gaps;
    } else {
      assert gaps[0] in gaps && gaps[1] in gaps;
      assert gaps == [gaps[0], gaps[1]];
    }
  }

  /** The answer to any list of range-specs is one RFC 9110 leaves open, if and only if this condition holds. */
  lemma AllowedExactlyWhen(ds: seq<Digits>, gaps: seq<string>, length: nat, excessive: bool)
    requires ds != [] && IsListed(ds, gaps)
    ensures Allows(Means(ds, length), excessive, SingleByteRange(Some("bytes=" + ListText(ds, gaps)), length))
        <==> AnsweredProperly(ds, gaps, length, excessive)
  {
    hide SingleByteRange, ListText, Means;
    if IsSingle(ds, gaps) {
      assert ds == [ds[0]];
      SingleText(ds[0]);
      SingleAnswer(ds[0], length, excessive);
    } else {
      SomeComma(ds, gaps);
      ListHeader(ds, gaps, length);
    }
  }

  /** A valid list with a satisfiable range is refused, which section 14.2 does not leave open; empty elements count. */
  lemma SatisfiableListIsRefused(ds: seq<Digits>, gaps: seq<string>, i: nat, length: nat)
    requires i < |ds| && IsListed(ds, gaps) && !IsSingle(ds, gaps)
    requires Invalid !in Means(ds, length) && !Mean(SpecOf(ds[i]), length).Unsatisfied?
    ensures !Allows(Means(ds, length), false, SingleByteRange(Some("bytes=" + ListText(ds, gaps)), length))
  {
    AllowedExactlyWhen(ds, gaps, length, false);
    assert Means(ds, length)[i] in Means(ds, length);
  }

  /** A reversed range is answered with 416: it is invalid, and section 14.2 lets a server refuse it. */
  lemma ReversedRangeIsRefused(a: nat, b: nat, length: nat)
    requires b < a
    ensures var d := Digits(Decimal(a), Decimal(b));
      && SingleByteRange(Some("bytes=" + SpecText(d)), length) == Unsatisfiable
      && Mean(SpecOf(d), length) == Invalid && Allows(Means([d], length), false, Unsatisfiable)
  {
    var d := Digits(Decimal(a), Decimal(b));
    SingleHeader(d, length);
    SingleSpecMeans(d, length);
    assert Means([d], length)[0] == Invalid;
  }

  /** A number beyond Python's limit for reading integers is refused, whatever it would select. */
  lemma LongNumbersAreRefused(d: Digits, length: nat)
    requires Written(d) && !Readable(d)
    ensures SingleByteRange(Some("bytes=" + SpecText(d)), length) == Unsatisfiable
  {
    SingleHeader(d, length);
    SingleSpecMeans(d, length);
  }

  /** A suffix of more than 4300 digits asks for all of the content, yet it is refused. */
  lemma LongNumberIsRefused(d: string, length: nat)
    requires IsAsciiDigits(d) && |d| > 4300 && Value(d) > 0
    ensures var spec := Digits("", d);
      !Allows(Means([spec], length), false, SingleByteRange(Some("bytes=" + SpecText(spec)), length))
  {
    hide SingleByteRange, Allows, IsAsciiDigits;
    var spec := Digits("", d);
    SingleAnswer(spec, length, false);
    assert Means([spec], length)[0] == Mean(SpecOf(spec), length);
    assert Means([spec], length)[0] in Means([spec], length);
  }

  // ---- Streaming ----

  const CHUNK_BYTES := 65536

  function Flatten<T>(chunks: seq<seq<T>>): seq<T> {
    if chunks == [] then [] else Flatten(chunks[..|chunks| - 1]) + chunks[|chunks| - 1]
  }

  /** A retained snapshot; a read may be short, but is empty only at the end. */
  class Snapshot {
    const data: seq<bv8>
    var position: nat
    const shortReads: nat -> nat

    constructor (data: seq<bv8>, shortReads: nat -> nat)
      ensures this.data == data && position == 0
    {
      this.data, this.shortReads, position := data, shortReads, 0;
    }

    method Seek(to: nat)
      modifies this
      ensures position == to
    {
      position := to;
    }

    method Read(size: nat) returns (chunk: seq<bv8>)
      requires size > 0
      modifies this
      ensures |chunk| <= size
      ensures position == old(position) + |chunk|
      ensures old(position) <= |data| ==> position <= |data| && chunk == data[old(position)..position]
      ensures chunk == [] <==> old(position) >= |data|
    {
      if position >= |data| { return []; }
      var left := |data| - position;
      var most := if size < left then size else left;
      var given := shortReads(position);
      var n := if 1 <= given <= most then given else most;
      chunk := data[position..position + n];
      position := position + n;
    }

    /** The chunks yielded from the position on: everything, or as many of the `remaining` bytes as there are. */
    method Chunks(remaining: Option<nat>) returns (chunks: seq<seq<bv8>>)
      modifies this
      ensures Flatten(chunks) == Stretch(data, old(position), remaining)
      ensures forall c | c in chunks :: 1 <= |c| <= 65536
    {
      chunks := [];
      var left: Option<nat> := remaining;
      ghost var start := position;
      while left.None? || left.value > 0
        invariant start <= position && (position <= |data| || (position == start && chunks == []))
        invariant left.Some? == remaining.Some? && (left.Some? ==> position + left.value == start + remaining.value)
        invariant position <= |data| ==> Flatten(chunks) == data[start..position]
        invariant forall c | c in chunks :: 1 <= |c| <= CHUNK_BYTES
        decreases |data| - position
      {
        var size := if left.None? || CHUNK_BYTES < left.value then CHUNK_BYTES else left.value;
        ghost var before := position;
        var chunk := Read(size);
        if chunk == [] { break; }
        FlattenNext(chunks, chunk);
        assert data[start..before] + data[before..position] == data[start..position];
        chunks := chunks + [chunk];
        if left.Some? { left := Some(left.value - |chunk|); }
      }
      assert start <= |data| ==> position == if remaining.Some? && start + remaining.value < |data| then start + remaining.value else |data|;
    }
  }

  lemma FlattenNext<T>(chunks: seq<seq<T>>, chunk: seq<T>)
    ensures Flatten(chunks + [chunk]) == Flatten(chunks) + chunk
  {
    assert (chunks + [chunk])[..|chunks|] == chunks;
  }

  /** The bytes from a position on, at most so many, as far as there are any. */
  function Stretch<T>(data: seq<T>, start: nat, size: Option<nat>): seq<T> {
    if start >= |data| then []
    else if size.None? || start + size.value >= |data| then data[start..]
    else data[start..start + size.value]
  }

  /** The `Content-Range` of an answer: the part served, or only the length when none is. */
  datatype ContentRange = Served(first: nat, last: nat, length: nat) | Unserved(length: nat)

  datatype Response = Response(status: nat, contentLength: nat, contentRange: Option<ContentRange>, body: seq<seq<bv8>>)

  /** The answer for a stated content length: headers follow the length, the body follows the snapshot. */
  ghost predicate Answers(r: Response, v: Verdict, data: seq<bv8>, length: nat) {
    match v
    case Whole => r.status == 200 && r.contentLength == length && r.contentRange.None? && Flatten(r.body) == data
    case Part(first, last) =>
      && r.status == 206 && first <= last && r.contentLength == last - first + 1
      && r.contentRange == Some(Served(first, last, length)) && Flatten(r.body) == Stretch(data, first, Some(last - first + 1))
    case Unsatisfiable =>
      r.status == 416 && r.contentLength == 0 && r.contentRange == Some(Unserved(length)) && r.body == []
  }

  method AttachmentResponse(snapshot: Snapshot, contentLength: nat, header: Option<string>) returns (r: Response)
    requires snapshot.position == 0
    modifies snapshot
    ensures Answers(r, SingleByteRange(header, contentLength), snapshot.data, contentLength)
    ensures r.status == 200 || r.status == 206 || r.status == 416
    ensures r.status == 206 <==> SingleByteRange(header, contentLength).Part?
    ensures r.status == 416 <==> SingleByteRange(header, contentLength).Unsatisfiable?
    ensures !AsksForBytes(header) ==>
      r.status == 200 && r.contentLength == contentLength && r.contentRange.None? && Flatten(r.body) == snapshot.data
  {
    hide SingleByteRange, Flatten, AsksForBytes;
    WholeExactly(header, contentLength);
    match SingleByteRange(header, contentLength)
    case Unsatisfiable => return Response(416, 0, Some(Unserved(contentLength)), []);
    case Part(first, last) =>
      snapshot.Seek(first);
      var chunks := snapshot.Chunks(Some(last - first + 1));
      return Response(206, last - first + 1, Some(Served(first, last, contentLength)), chunks);
    case Whole =>
      var chunks := snapshot.Chunks(None);
      return Response(200, contentLength, None, chunks);
  }

  /** With the snapshot's own length stated, Content-Length always counts the bytes sent, and a part is bytes s..e. */
  lemma AnswersDescribeBody(r: Response, header: Option<string>, data: seq<bv8>)
    requires Answers(r, SingleByteRange(header, |data|), data, |data|)
    ensures r.contentLength == |Flatten(r.body)|
    ensures var v := SingleByteRange(header, |data|); v.Part? ==> Flatten(r.body) == data[v.first..v.last + 1]
  {
    hide SingleByteRange;
  }

  /** Reads a file to its end, chunk by chunk. */
  method Copy(source: Snapshot) returns (copy: seq<bv8>, length: nat)
    requires source.position == 0
    modifies source
    ensures copy == source.data && length == |source.data|
  {
    copy, length := [], 0;
    ghost var whole := source.data;
    var chunk := source.Read(CHUNK_BYTES);
    while chunk != []
      invariant |copy| + |chunk| == source.position <= |whole| && length == |copy|
      invariant copy + chunk == whole[..source.position]
      invariant chunk == [] ==> source.position == |whole|
      decreases |whole| - |copy|
    {
      ghost var before := source.position;
      copy, length := copy + chunk, length + |chunk|;
      chunk := source.Read(CHUNK_BYTES);
      assert whole[..before] + whole[before..source.position] == whole[..source.position];
    }
  }

  /** Copies an opened file while hashing it; the copy is kept only if size and hash are the required ones. */
  method VerifiedFileSnapshot(source: Snapshot, hash: seq<bv8> -> string, requiredHash: Option<string>,
                              requiredSize: Option<nat>)
    returns (r: Result<(seq<bv8>, nat, string)>)
    requires source.position == 0
    modifies source
    ensures r.Success? <==> (requiredSize.Some? ==> requiredSize.value == |source.data|)
                            && (requiredHash.Some? ==> requiredHash.value == hash(source.data))
    ensures r.Success? ==> r.value == (source.data, |source.data|, hash(source.data))
  {
    var copy, length := Copy(source);
    if requiredSize.Some? && requiredSize.value != length { return Failure; }
    if requiredHash.Some? && requiredHash.value != hash(copy) { return Failure; }
    return Success((copy, length, hash(copy)));
  }
}
