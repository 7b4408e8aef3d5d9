/** The few text operations of Python that the models share. */
module PythonText {

  /** Python's white space. */
  predicate IsSpace(c: char) {
    || '\U{9}' <= c <= '\U{D}' || '\U{1C}' <= c <= ' ' || c == '\U{85}' || c == '\U{A0}' || c == '\U{1680}'
    || '\U{2000}' <= c <= '\U{200A}' || c == '\U{2028}' || c == '\U{2029}' || c == '\U{202F}' || c == '\U{205F}' || c == '\U{3000}'
  }

  function Strip(s: string): string {
    if s == "" then ""
    else if IsSpace(s[0]) then Strip(s[1..])
    else if IsSpace(s[|s| - 1]) then Strip(s[..|s| - 1])
    else s
  }

  predicate Blank(s: string) {
    forall c | c in s :: IsSpace(c)
  }

  lemma {:induction false} StripEmptyExactlyWhenBlank(s: string)
    ensures Strip(s) == "" <==> Blank(s)
    decreases |s|
  {
    if s == "" {
    } else if IsSpace(s[0]) {
      StripEmptyExactlyWhenBlank(s[1..]);
      assert s == [s[0]] + s[1..];
    } else if IsSpace(s[|s| - 1]) {
      StripEmptyExactlyWhenBlank(s[..|s| - 1]);
      assert s == s[..|s| - 1] + [s[|s| - 1]];
    }
  }

  /** Python's `str.lower` on ASCII letters. */
  function Lower(s: string): (r: string)
    ensures |r| == |s|
  {
    seq(|s|, i requires 0 <= i < |s| => if 'A' <= s[i] <= 'Z' then s[i] + 32 as char else s[i])
  }

  /** What comes before the first occurrence of a character, whether there is one, and what comes after it. */
  function Partition(s: string, c: char): (r: (string, bool, string))
    ensures c !in r.0
    ensures if r.1 then s == r.0 + [c] + r.2 else s == r.0 && r.2 == ""
  {
    if s == "" then ("", false, "")
    else if s[0] == c then ("", true, s[1..])
    else var (head, found, tail) := Partition(s[1..], c); ([s[0]] + head, found, tail)
  }

  lemma {:induction false} PartitionAt(head: string, c: char, tail: string)
    requires c !in head
    ensures Partition(head + [c] + tail, c) == (head, true, tail)
  {
    if head == "" {
      assert (head + [c] + tail)[1..] == tail;
    } else {
      assert (head + [c] + tail)[1..] == head[1..] + [c] + tail;
      assert head == [head[0]] + head[1..];
      PartitionAt(head[1..], c, tail);
    }
  }

  /** Text without white space at either end is left as it is. */
  lemma StripLeaves(s: string)
    requires s != "" ==> !IsSpace(s[0]) && !IsSpace(s[|s| - 1])
    ensures Strip(s) == s
  {
  }
}
