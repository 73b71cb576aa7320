/** Lines, splitting, and length in UTF-8. */
module Strings {
  predicate OneLine(s: string) { '\n' !in s && '\r' !in s }

  /** `s.split(sep)`: never empty. */
  function Split(s: string, sep: char): (parts: seq<string>)
    ensures |parts| >= 1
  {
    if s == "" then [""]
    else if s[0] == sep then [""] + Split(s[1..], sep)
    else
      var rest := Split(s[1..], sep);
      [[s[0]] + rest[0]] + rest[1..]
  }

  lemma {:induction false} SplitJoins(t: string, s: string, sep: char)
    requires sep !in t && (s == "" || s[0] == sep)
    ensures Split(t + s, sep) == if s == "" then [t] else [t] + Split(s[1..], sep)
    decreases |t|
  {
    if t == "" {
      assert t + s == s;
    } else {
      assert (t + s)[1..] == t[1..] + s;
      SplitJoins(t[1..], s, sep);
      var rest := Split(t[1..] + s, sep);
      assert rest[0] == t[1..] && rest[1..] == (if s == "" then [] else Split(s[1..], sep));
      assert [t[0]] + t[1..] == t;
    }
  }

  /** The bytes of a character in UTF-8. */
  function CharWidth(c: char): nat {
    var n := c as int;
    if n < 0x80 then 1 else if n < 0x800 then 2 else if n < 0x1_0000 then 3 else 4
  }

  /** `len(s.encode())`. */
  function Width(s: string): nat {
    if s == "" then 0 else CharWidth(s[0]) + Width(s[1..])
  }

  lemma {:induction false} WidthJoins(s: string, t: string)
    ensures Width(s + t) == Width(s) + Width(t)
    decreases |s|
  {
    if s == "" {
      assert s + t == t;
    } else {
      assert (s + t)[1..] == s[1..] + t;
      WidthJoins(s[1..], t);
    }
  }

  lemma {:induction false} WidthBounds(s: string)
    ensures |s| <= Width(s) <= 4 * |s|
    decreases |s|
  {
    if s != "" { WidthBounds(s[1..]); }
  }

  predicate Ascii(s: string) { forall i :: 0 <= i < |s| ==> s[i] as int < 0x80 }

  lemma {:induction false} WidthAscii(s: string)
    requires Ascii(s)
    ensures Width(s) == |s|
    decreases |s|
  {
    if s != "" { WidthAscii(s[1..]); }
  }
}
