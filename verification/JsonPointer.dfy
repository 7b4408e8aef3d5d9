/** Pointer text as it stands after `#/` in a reference: escaped names between slashes (RFC 6901). */
module JsonPointer {

  /** Every occurrence of `~` and the given digit replaced by one character, from left to right. */
  function Replaced(s: string, digit: char, plain: char): string {
    if |s| < 2 then s
    else if s[0] == '~' && s[1] == digit then [plain] + Replaced(s[2..], digit, plain)
    else [s[0]] + Replaced(s[1..], digit, plain)
  }

  /** `~1` is a slash, and only then `~0` a tilde. */
  function Unescape(s: string): string {
    Replaced(Replaced(s, '1', '/'), '0', '~')
  }

  /** Python's `split` at one character. */
  function Split(s: string, c: char): (parts: seq<string>)
    ensures parts != []
  {
    if s == "" then [""]
    else
      var rest := Split(s[1..], c);
      if s[0] == c then [""] + rest else [[s[0]] + rest[0]] + rest[1..]
  }

  function UnescapeAll(parts: seq<string>): (names: seq<string>)
    ensures |names| == |parts|
  {
    seq(|parts|, i requires 0 <= i < |parts| => Unescape(parts[i]))
  }

  /** The names a pointer text stands for. */
  function Names(text: string): seq<string> {
    UnescapeAll(Split(text, '/'))
  }

  // ---- Writing a pointer, as RFC 6901 prescribes ----

  function EscapeTildes(s: string): string {
    if s == "" then "" else (if s[0] == '~' then "~0" else [s[0]]) + EscapeTildes(s[1..])
  }

  function Escape(s: string): string {
    if s == "" then ""
    else (if s[0] == '~' then "~0" else if s[0] == '/' then "~1" else [s[0]]) + Escape(s[1..])
  }

  function Pointer(names: seq<string>): string
    requires names != []
  {
    if |names| == 1 then Escape(names[0]) else Escape(names[0]) + "/" + Pointer(names[1..])
  }

  lemma ReplacedPlain(c: char, e: string, digit: char, plain: char)
    requires c != '~'
    ensures Replaced([c] + e, digit, plain) == [c] + Replaced(e, digit, plain)
  {
    assert ([c] + e)[1..] == e;
    if e == "" { assert [c] + e == [c]; }
  }

  lemma ReplacedCode(e: string, digit: char, plain: char)
    ensures Replaced(['~', digit] + e, digit, plain) == [plain] + Replaced(e, digit, plain)
  {
    assert (['~', digit] + e)[2..] == e;
  }

  lemma ReplacedOther(other: char, e: string, digit: char, plain: char)
    requires other != digit && other != '~'
    ensures Replaced(['~', other] + e, digit, plain) == ['~', other] + Replaced(e, digit, plain)
  {
    assert (['~', other] + e)[1..] == [other] + e;
    ReplacedPlain(other, e, digit, plain);
    assert ['~'] + ([other] + Replaced(e, digit, plain)) == ['~', other] + Replaced(e, digit, plain);
  }

  lemma {:induction false} SlashesBack(s: string)
    ensures Replaced(Escape(s), '1', '/') == EscapeTildes(s)
  {
    hide Replaced;
    if s == "" {
      ReplacedNothing('1', '/');
    } else {
      SlashesBack(s[1..]);
      var e := Escape(s[1..]);
      if s[0] == '~' {
        ReplacedOther('0', e, '1', '/');
      } else if s[0] == '/' {
        ReplacedCode(e, '1', '/');
      } else {
        ReplacedPlain(s[0], e, '1', '/');
      }
    }
  }

  lemma ReplacedNothing(digit: char, plain: char)
    ensures Replaced("", digit, plain) == ""
  {
  }

  lemma {:induction false} TildesBack(s: string)
    ensures Replaced(EscapeTildes(s), '0', '~') == s
  {
    hide Replaced;
    if s == "" {
      ReplacedNothing('0', '~');
    } else {
      TildesBack(s[1..]);
      var e := EscapeTildes(s[1..]);
      if s[0] == '~' { ReplacedCode(e, '0', '~'); } else { ReplacedPlain(s[0], e, '0', '~'); }
      assert s == [s[0]] + s[1..];
    }
  }

  lemma {:induction false} EscapedHasNoSlash(s: string)
    ensures '/' !in Escape(s)
  {
    if s != "" { EscapedHasNoSlash(s[1..]); }
  }

  lemma {:induction false} SplitLast(s: string, c: char)
    requires c !in s
    ensures Split(s, c) == [s]
  {
    if s != "" {
      SplitLast(s[1..], c);
      assert s == [s[0]] + s[1..];
    }
  }

  lemma {:induction false} SplitFirst(s: string, c: char, rest: string)
    requires c !in s
    ensures Split(s + [c] + rest, c) == [s] + Split(rest, c)
  {
    if s == "" {
      assert (s + [c] + rest)[1..] == rest;
    } else {
      assert (s + [c] + rest)[1..] == s[1..] + [c] + rest;
      SplitFirst(s[1..], c, rest);
      assert s == [s[0]] + s[1..];
    }
  }

  lemma UnescapeEscape(s: string)
    ensures Unescape(Escape(s)) == s
  {
    SlashesBack(s);
    TildesBack(s);
  }

  /** Whatever names lead to a place, slashes and tildes included: the pointer written for them is read as them. */
  lemma {:induction false} PointerIsRead(names: seq<string>)
    requires names != []
    ensures Names(Pointer(names)) == names
  {
    hide Escape, Unescape, Split;
    var first := Escape(names[0]);
    EscapedHasNoSlash(names[0]);
    UnescapeEscape(names[0]);
    if |names| == 1 {
      SplitLast(first, '/');
    } else {
      var rest := Pointer(names[1..]);
      PointerIsRead(names[1..]);
      assert Pointer(names) == first + ['/'] + rest;
      SplitFirst(first, '/', rest);
      assert UnescapeAll([first] + Split(rest, '/')) == [names[0]] + Names(rest);
    }
  }
}
