/**
 * String helpers with JavaScript semantics. A `char` stands for one UTF-16
 * code unit, so `|s|` is JavaScript's `s.length` and `s[i..j]` is
 * `s.substring(i, j)`.
 */
module Text {

  /** The characters matched by `\s` and removed by `String.prototype.trim`. */
  predicate IsSpace(c: char) {
    c == '\t' || c == '\n' || c == '\U{000B}' || c == '\U{000C}' || c == '\r' || c == ' '
    || c == '\U{00A0}' || c == '\U{1680}' || ('\U{2000}' <= c <= '\U{200A}')
    || c == '\U{2028}' || c == '\U{2029}' || c == '\U{202F}' || c == '\U{205F}'
    || c == '\U{3000}' || c == '\U{FEFF}'
  }

  /** The characters that `.` in a regular expression does not match. */
  predicate IsLineTerminator(c: char) {
    c == '\n' || c == '\r' || c == '\U{2028}' || c == '\U{2029}'
  }

  predicate AllSpace(s: string) {
    forall k :: 0 <= k < |s| ==> IsSpace(s[k])
  }

  predicate NoLineTerminator(s: string) {
    forall k :: 0 <= k < |s| ==> !IsLineTerminator(s[k])
  }

  /** `s.trimStart()`: the suffix left after dropping leading whitespace. */
  function TrimStart(s: string): (r: string)
    ensures |r| <= |s| && r == s[|s| - |r|..]
    ensures AllSpace(s[..|s| - |r|])
    ensures r != [] ==> !IsSpace(r[0])
  {
    if |s| > 0 && IsSpace(s[0]) then TrimStart(s[1..]) else s
  }

  /** Text that does not start with whitespace is its own `trimStart`. */
  lemma TrimStartNoLead(s: string)
    requires s == [] || !IsSpace(s[0])
    ensures TrimStart(s) == s
  {
  }

  /** A leading whitespace character is dropped by `trimStart`. */
  lemma TrimStartCons(c: char, s: string)
    requires IsSpace(c)
    ensures TrimStart([c] + s) == TrimStart(s)
  {
    assert ([c] + s)[1..] == s;
  }

  /** `s.trimEnd()`: the prefix left after dropping trailing whitespace. */
  function TrimEnd(s: string): (r: string)
    ensures |r| <= |s| && r == s[..|r|]
    ensures AllSpace(s[|r|..])
    ensures r != [] ==> !IsSpace(r[|r| - 1])
  {
    if |s| > 0 && IsSpace(s[|s| - 1]) then TrimEnd(s[..|s| - 1]) else s
  }

  /** How many characters `trim` drops from the front of `s`. */
  function TrimmedLead(s: string): nat {
    |s| - |TrimStart(s)|
  }

  /** `trim` keeps one contiguous piece of its input. */
  lemma TrimInfix(s: string)
    ensures TrimmedLead(s) + |Trim(s)| <= |s|
    ensures Trim(s) == s[TrimmedLead(s)..TrimmedLead(s) + |Trim(s)|]
  {
  }

  /** `s.trim()`. */
  function Trim(s: string): (r: string)
    ensures |r| <= |s|
    ensures r != [] ==> !IsSpace(r[0]) && !IsSpace(r[|r| - 1])
    ensures r == [] <==> AllSpace(s)
  {
    var t := TrimStart(s);
    var r := TrimEnd(t);
    assert t == s[|s| - |t|..];
    assert r == [] ==> AllSpace(s) by {
      if r == [] {
        forall k | 0 <= k < |s| ensures IsSpace(s[k]) {
          assert s[k] == s[..|s| - |t|][k];
        }
      }
    }
    r
  }

  /** Text without whitespace at either end is its own trim. */
  lemma TrimIdentity(s: string)
    requires s == [] || (!IsSpace(s[0]) && !IsSpace(s[|s| - 1]))
    ensures Trim(s) == s
  {
    if s != [] {
      assert TrimStart(s) == s;
    }
  }

  /** ASCII lower-casing: the case folding a non-unicode `/i` regex applies to ASCII tags. */
  function Lower(c: char): char {
    if 'A' <= c <= 'Z' then (c as int + 32) as char else c
  }

  /** `tag` (written in lower case) occurs at index `i` of `s`, ignoring ASCII case. */
  predicate MatchesAtCI(s: string, i: int, tag: string) {
    0 <= i && i + |tag| <= |s| && forall k :: 0 <= k < |tag| ==> Lower(s[i + k]) == tag[k]
  }

  /** `t` occurs at index `i` of `s`, exactly. */
  predicate MatchesAt(s: string, i: int, t: string) {
    0 <= i && i + |t| <= |s| && s[i..i + |t|] == t
  }

  /** `s.includes(t)`. */
  predicate Includes(s: string, t: string) {
    exists i :: 0 <= i <= |s| - |t| && MatchesAt(s, i, t)
  }

  /** `s.includes(c)` for a one-character needle. */
  predicate Contains(s: string, c: char) {
    exists i :: 0 <= i < |s| && s[i] == c
  }

  /** `s.lastIndexOf(c, from)`: the greatest index `<= from` holding `c`, or -1. */
  function LastIndexOf(s: string, c: char, from: int): (r: int)
    requires -1 <= from < |s|
    ensures -1 <= r <= from
    ensures r >= 0 ==> s[r] == c
    ensures forall k :: r < k <= from && 0 <= k ==> s[k] != c
    decreases from + 1
  {
    if from < 0 then -1 else if s[from] == c then from else LastIndexOf(s, c, from - 1)
  }

  /** The decimal digits of `n`, as `String(n)` prints a non-negative integer. */
  function NatToString(n: nat): (r: string)
    ensures |r| > 0
    ensures forall k :: 0 <= k < |r| ==> '0' <= r[k] <= '9'
  {
    var d := ['0' + (n % 10) as char];
    if n < 10 then d else NatToString(n / 10) + d
  }

  /** `parts.join(sep)`. */
  function Join(parts: seq<string>, sep: string): string {
    if |parts| == 0 then ""
    else if |parts| == 1 then parts[0]
    else parts[0] + sep + Join(parts[1..], sep)
  }

  /** The concatenation of all pieces, in order. */
  function Concat(pieces: seq<string>): string {
    if |pieces| == 0 then "" else pieces[0] + Concat(pieces[1..])
  }

  /** Appending one piece appends its text. */
  lemma {:induction false} ConcatSnoc(pieces: seq<string>, p: string)
    ensures Concat(pieces + [p]) == Concat(pieces) + p
  {
    if |pieces| > 0 {
      assert (pieces + [p])[1..] == pieces[1..] + [p];
      ConcatSnoc(pieces[1..], p);
    }
  }
}
