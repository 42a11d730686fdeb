/**
 * The string operations the pages rely on: `trim`, `toLowerCase`, `includes`,
 * `split` and `join`, over strings as sequences of characters.
 */
module Text {
  import opened Wrappers

  /** ECMAScript white space and line terminators, the characters `String.prototype.trim` strips. */
  predicate IsWhitespace(c: char) {
    || c == '\t' || c == '\n' || c == '\U{000B}' || c == '\U{000C}' || c == '\r' || c == ' '
    || c == '\U{00A0}' || c == '\U{1680}' || ('\U{2000}' <= c <= '\U{200A}')
    || c == '\U{2028}' || c == '\U{2029}' || c == '\U{202F}' || c == '\U{205F}'
    || c == '\U{3000}' || c == '\U{FEFF}'
  }

  /** Drops leading white space. */
  function TrimStart(s: string): (r: string)
    ensures |r| <= |s| && r == s[|s| - |r|..]
    ensures forall i :: 0 <= i < |s| - |r| ==> IsWhitespace(s[i])
    ensures |r| == 0 || !IsWhitespace(r[0])
    decreases |s|
  {
    if |s| > 0 && IsWhitespace(s[0]) then TrimStart(s[1..]) else s
  }

  /** Drops trailing white space. */
  function TrimEnd(s: string): (r: string)
    ensures |r| <= |s| && r == s[..|r|]
    ensures forall i :: |r| <= i < |s| ==> IsWhitespace(s[i])
    ensures |r| == 0 || !IsWhitespace(r[|r| - 1])
    decreases |s|
  {
    if |s| > 0 && IsWhitespace(s[|s| - 1]) then TrimEnd(s[..|s| - 1]) else s
  }

  /** `String.prototype.trim`. */
  function Trim(s: string): string {
    TrimEnd(TrimStart(s))
  }

  /** `!s.trim()`: the input is empty once trimmed. */
  predicate IsBlank(s: string) {
    Trim(s) == ""
  }

  /** A string trims to nothing exactly when every character in it is white space. */
  lemma BlankIffAllWhitespace(s: string)
    ensures IsBlank(s) <==> forall i :: 0 <= i < |s| ==> IsWhitespace(s[i])
  {
    var t := TrimStart(s);
    if IsBlank(s) {
      assert |t| == 0;
    }
  }

  /** ASCII lower-casing of one character. */
  function LowerChar(c: char): char {
    if 'A' <= c <= 'Z' then (c as int + 32) as char else c
  }

  /** `String.prototype.toLowerCase`, on the ASCII letters. */
  function ToLower(s: string): (r: string)
    ensures |r| == |s|
    ensures forall i :: 0 <= i < |s| ==> r[i] == LowerChar(s[i])
  {
    seq(|s|, i requires 0 <= i < |s| => LowerChar(s[i]))
  }

  /** `sub` occurs in `s` starting at index `i`. */
  predicate OccursAt(s: string, sub: string, i: int) {
    0 <= i && i + |sub| <= |s| && s[i..i + |sub|] == sub
  }

  /** The first index at or after `from` where `sub` occurs in `s`, if any. */
  function FindFrom(s: string, sub: string, from: nat): (r: Option<nat>)
    ensures r.Some? ==> from <= r.value && OccursAt(s, sub, r.value)
    ensures r.Some? ==> forall j :: from <= j < r.value ==> !OccursAt(s, sub, j)
    ensures r.None? ==> forall j :: from <= j ==> !OccursAt(s, sub, j)
    decreases |s| - from
  {
    if from + |sub| > |s| then None
    else if s[from..from + |sub|] == sub then Some(from)
    else FindFrom(s, sub, from + 1)
  }

  /** `String.prototype.includes`. */
  predicate Includes(s: string, sub: string) {
    FindFrom(s, sub, 0).Some?
  }

  lemma IncludesIffOccurs(s: string, sub: string)
    ensures Includes(s, sub) <==> exists i :: OccursAt(s, sub, i)
  {
  }

  /** `parts.join(sep)`. */
  function Join(parts: seq<string>, sep: string): string
    decreases |parts|
  {
    if |parts| == 0 then ""
    else if |parts| == 1 then parts[0]
    else parts[0] + sep + Join(parts[1..], sep)
  }

  /**
   * `s.split(sep)` for a non-empty separator: the pieces between the occurrences of
   * `sep`, found left to right without overlap. Joining them again gives `s`.
   */
  function Split(s: string, sep: string): (parts: seq<string>)
    requires |sep| > 0
    ensures |parts| >= 1
    ensures Join(parts, sep) == s
    ensures SeparatorFree(parts, sep)
    ensures LeftmostCuts(parts, sep)
    decreases |s|
  {
    match FindFrom(s, sep, 0)
    case None => [s]
    case Some(i) =>
      var head := s[..i];
      var rest := Split(s[i + |sep|..], sep);
      FirstCut(s, sep, i);
      ConsCuts(head, rest, sep);
      assert ([head] + rest)[1..] == rest;
      assert s == head + sep + s[i + |sep|..];
      [head] + rest
  }

  /** The piece before the first occurrence is separator-free and cut at its leftmost point. */
  lemma FirstCut(s: string, sep: string, i: nat)
    requires |sep| > 0 && OccursAt(s, sep, i)
    requires forall j :: 0 <= j < i ==> !OccursAt(s, sep, j)
    ensures forall j :: !OccursAt(s[..i], sep, j)
    ensures forall j :: 0 <= j < i ==> !OccursAt(s[..i] + sep, sep, j)
  {
    forall j | OccursAt(s[..i], sep, j) ensures OccursAt(s, sep, j) {
      OccursInPrefix(s, i, sep, j);
    }
    assert s[..i + |sep|] == s[..i] + sep;
    forall j | 0 <= j < i && OccursAt(s[..i] + sep, sep, j) ensures OccursAt(s, sep, j) {
      OccursInPrefix(s, i + |sep|, sep, j);
    }
  }

  /** Putting a well-cut first piece in front of well-cut parts keeps them well cut. */
  lemma ConsCuts(head: string, rest: seq<string>, sep: string)
    requires forall j :: !OccursAt(head, sep, j)
    requires forall j :: 0 <= j < |head| ==> !OccursAt(head + sep, sep, j)
    requires SeparatorFree(rest, sep) && LeftmostCuts(rest, sep)
    ensures SeparatorFree([head] + rest, sep) && LeftmostCuts([head] + rest, sep)
  {
    var parts := [head] + rest;
    assert forall k :: 1 <= k < |parts| ==> parts[k] == rest[k - 1];
  }

  /** No part contains the separator. */
  ghost predicate SeparatorFree(parts: seq<string>, sep: string) {
    forall k :: 0 <= k < |parts| ==> forall j :: !OccursAt(parts[k], sep, j)
  }

  /**
   * Every cut is at the leftmost occurrence: no occurrence of the separator starts inside a
   * part and runs into the separator after it. This decides the cuts when the separator can
   * overlap itself, as "\n\n" does in "\n\n\n".
   */
  ghost predicate LeftmostCuts(parts: seq<string>, sep: string) {
    forall k :: 0 <= k < |parts| - 1 ==> forall j :: 0 <= j < |parts[k]| ==> !OccursAt(parts[k] + sep, sep, j)
  }

  /** `Split` is the only way to cut `s` into separator-free parts at leftmost occurrences. */
  lemma {:induction false} SplitUnique(s: string, sep: string, parts: seq<string>)
    requires |sep| > 0 && |parts| >= 1
    requires Join(parts, sep) == s
    requires SeparatorFree(parts, sep) && LeftmostCuts(parts, sep)
    ensures Split(s, sep) == parts
    decreases |parts|
  {
    if |parts| == 1 {
      assert s == parts[0];
      assert FindFrom(s, sep, 0).None?;
    } else {
      var h := parts[0];
      var tail := parts[1..];
      var t := Join(tail, sep);
      assert s == h + sep + t;
      assert s[|h|..|h| + |sep|] == sep;
      forall j | 0 <= j < |h| ensures !OccursAt(s, sep, j) {
        assert !OccursAt(parts[0] + sep, sep, j);
        assert s[j..j + |sep|] == (h + sep)[j..j + |sep|];
      }
      FindFromFirst(s, sep, 0, |h|);
      assert s[..|h|] == h;
      assert s[|h| + |sep|..] == t;
      assert forall k :: 0 <= k < |tail| ==> tail[k] == parts[k + 1];
      SplitUnique(t, sep, tail);
    }
  }

  /** An occurrence inside a prefix is an occurrence in the whole string. */
  lemma OccursInPrefix(s: string, n: nat, sub: string, j: int)
    requires n <= |s| && OccursAt(s[..n], sub, j)
    ensures OccursAt(s, sub, j)
  {
    assert s[..n][j..j + |sub|] == s[j..j + |sub|];
  }

  /** The search from `from` stops at the first occurrence. */
  lemma {:induction false} FindFromFirst(s: string, sub: string, from: nat, v: nat)
    requires from <= v && OccursAt(s, sub, v)
    requires forall j :: from <= j < v ==> !OccursAt(s, sub, j)
    ensures FindFrom(s, sub, from) == Some(v)
    decreases v - from
  {
    if from < v {
      FindFromFirst(s, sub, from + 1, v);
    }
  }

  /**
   * With a one-character separator that no part contains, splitting the joined
   * string gives back exactly the parts.
   */
  lemma {:induction false} SplitJoinOneChar(parts: seq<string>, c: char)
    requires |parts| >= 1
    requires forall k :: 0 <= k < |parts| ==> c !in parts[k]
    ensures Split(Join(parts, [c]), [c]) == parts
    decreases |parts|
  {
    var s := Join(parts, [c]);
    var p0 := parts[0];
    assert forall j :: OccursAt(s, [c], j) ==> s[j] == c;
    if |parts| == 1 {
      assert FindFrom(s, [c], 0).None?;
    } else {
      var rest := parts[1..];
      assert s == p0 + [c] + Join(rest, [c]);
      assert forall j :: 0 <= j < |p0| ==> s[j] == p0[j];
      FindFromFirst(s, [c], 0, |p0|);
      assert s[..|p0|] == p0;
      assert s[|p0| + 1..] == Join(rest, [c]);
      SplitJoinOneChar(rest, c);
    }
  }

  /** ASCII upper-casing of one character. */
  function UpperChar(c: char): char {
    if 'a' <= c <= 'z' then (c as int - 32) as char else c
  }

  predicate IsDigit(c: char) {
    '0' <= c <= '9'
  }

  function DigitChar(d: nat): (c: char)
    requires d < 10
    ensures IsDigit(c) && c as int - '0' as int == d
  {
    ('0' as int + d) as char
  }

  /** The decimal numeral of `n`, as a template literal prints it. */
  function NatToString(n: nat): (r: string)
    ensures |r| >= 1
    ensures forall i :: 0 <= i < |r| ==> IsDigit(r[i])
    decreases n
  {
    if n < 10 then [DigitChar(n)] else NatToString(n / 10) + [DigitChar(n % 10)]
  }

  /** The value of a string of decimal digits. */
  function DigitsValue(s: string): nat
    requires forall i :: 0 <= i < |s| ==> IsDigit(s[i])
    decreases |s|
  {
    if |s| == 0 then 0
    else
      var last := s[|s| - 1];
      assert IsDigit(last);
      10 * DigitsValue(s[..|s| - 1]) + (last as int - '0' as int)
  }

  /** Reading the numeral back gives the number. */
  lemma {:induction false} NatToStringRoundTrip(n: nat)
    ensures DigitsValue(NatToString(n)) == n
    decreases n
  {
    if n >= 10 {
      var r := NatToString(n);
      assert r[..|r| - 1] == NatToString(n / 10);
      NatToStringRoundTrip(n / 10);
    }
  }
}
