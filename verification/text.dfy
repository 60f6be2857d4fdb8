/** Python string operations the agents rely on: `startswith`, `in` on strings,
    `split('\n')`, `strip()`, `lower()`, `split(sep)[0]`, `"c" * n` and `str(int)`. */
module Text {

  /** `s.startswith(p)` */
  predicate StartsWith(s: string, p: string) {
    |p| <= |s| && s[..|p|] == p
  }

  /** `p in s` for two strings: `p` occurs somewhere in `s`. */
  predicate IsSubstring(p: string, s: string)
    decreases |s|
  {
    StartsWith(s, p) || (s != [] && IsSubstring(p, s[1..]))
  }

  lemma {:induction false} SubstringOfPrefix(p: string, s: string, t: string)
    requires IsSubstring(p, s)
    ensures IsSubstring(p, s + t)
    decreases |s|
  {
    if StartsWith(s, p) {
      assert (s + t)[..|p|] == s[..|p|];
    } else {
      SubstringOfPrefix(p, s[1..], t);
      assert (s + t)[1..] == s[1..] + t;
    }
  }

  /** `s.split(c)` for a one-character separator: the pieces between separators,
      always at least one (an empty string splits into `[""]`). */
  function Split(s: string, c: char): (pieces: seq<string>)
    ensures |pieces| >= 1
    ensures forall k :: 0 <= k < |pieces| ==> c !in pieces[k]
  {
    if s == [] then [[]]
    else
      var rest := Split(s[1..], c);
      if s[0] == c then [[]] + rest
      else [[s[0]] + rest[0]] + rest[1..]
  }

  /** `c.join(pieces)` */
  function Join(pieces: seq<string>, c: char): string {
    if pieces == [] then []
    else if |pieces| == 1 then pieces[0]
    else pieces[0] + [c] + Join(pieces[1..], c)
  }

  /** Splitting loses nothing: joining the pieces with the separator gives the text back. */
  lemma {:induction false} JoinSplit(s: string, c: char)
    ensures Join(Split(s, c), c) == s
  {
    if s != [] {
      var rest := Split(s[1..], c);
      JoinSplit(s[1..], c);
      if s[0] == c {
        assert Split(s, c) == [[]] + rest;
        assert ([[]] + rest)[1..] == rest;
        assert s == [] + [c] + s[1..];
      } else {
        var pieces := Split(s, c);
        assert pieces == [[s[0]] + rest[0]] + rest[1..];
        if |rest| == 1 {
          assert s == [s[0]] + rest[0];
        } else {
          assert pieces[1..] == rest[1..];
          assert Join(rest, c) == rest[0] + [c] + Join(rest[1..], c);
          assert s == [s[0]] + s[1..];
        }
      }
    }
  }

  /** `c.isspace()` as Python defines it for `str`. */
  predicate IsSpace(c: char) {
    ('\t' <= c <= '\r') || ('\U{1C}' <= c <= ' ') || c == '\U{85}' || c == '\U{A0}'
    || c == '\U{1680}' || ('\U{2000}' <= c <= '\U{200A}') || c == '\U{2028}' || c == '\U{2029}'
    || c == '\U{202F}' || c == '\U{205F}' || c == '\U{3000}'
  }

  function TrimStart(s: string): (r: string)
    ensures |r| <= |s| && r == s[|s| - |r|..]
    ensures r != [] ==> !IsSpace(r[0])
    ensures forall k :: 0 <= k < |s| - |r| ==> IsSpace(s[k])
  {
    if s != [] && IsSpace(s[0]) then TrimStart(s[1..]) else s
  }

  function TrimEnd(s: string): (r: string)
    ensures |r| <= |s| && r == s[..|r|]
    ensures r != [] ==> !IsSpace(r[|r| - 1])
    ensures forall k :: |r| <= k < |s| ==> IsSpace(s[k])
  {
    if s != [] && IsSpace(s[|s| - 1]) then TrimEnd(s[..|s| - 1]) else s
  }

  /** `s.strip()`: the text between the leading and the trailing whitespace. */
  function Strip(s: string): (r: string)
    ensures exists i, j :: 0 <= i <= j <= |s| && r == s[i..j]
    ensures r != [] ==> !IsSpace(r[0]) && !IsSpace(r[|r| - 1])
  {
    var t := TrimStart(s);
    var r := TrimEnd(t);
    assert r == s[|s| - |t|..|s| - |t| + |r|];
    r
  }

  /** `c.lower()` for ASCII letters. */
  function LowerChar(c: char): (d: char)
    ensures 'A' <= c <= 'Z' ==> d as int == c as int + 32
    ensures !('A' <= c <= 'Z') ==> d == c
  {
    if 'A' <= c <= 'Z' then (c as int + 32) as char else c
  }

  /** `s.lower()` for ASCII text. */
  function Lower(s: string): (r: string)
    ensures |r| == |s|
    ensures forall k :: 0 <= k < |s| ==> r[k] == LowerChar(s[k])
  {
    if s == [] then [] else [LowerChar(s[0])] + Lower(s[1..])
  }

  /** Text without upper-case ASCII letters. */
  predicate IsLowerCase(s: string) {
    forall k :: 0 <= k < |s| ==> !('A' <= s[k] <= 'Z')
  }

  /** Lowering keeps every lower-case substring: a header test on the lowered
      text accepts whatever the test on the original text accepts. */
  lemma {:induction false} LowerKeepsSubstring(p: string, s: string)
    requires IsLowerCase(p)
    requires IsSubstring(p, s)
    ensures IsSubstring(p, Lower(s))
    decreases |s|
  {
    if StartsWith(s, p) {
      assert Lower(s)[..|p|] == p by {
        forall k | 0 <= k < |p| ensures Lower(s)[k] == p[k] {
          assert s[k] == p[k];
        }
      }
    } else {
      LowerKeepsSubstring(p, s[1..]);
      assert Lower(s)[1..] == Lower(s[1..]);
    }
  }

  /** `s.split(sep)[0]` for a non-empty separator: everything before the first `sep`. */
  function BeforeFirst(s: string, sep: string): (r: string)
    requires sep != []
    ensures |r| <= |s| && r == s[..|r|]
    decreases |s|
  {
    if StartsWith(s, sep) then []
    else if s == [] then []
    else [s[0]] + BeforeFirst(s[1..], sep)
  }

  /** The cut text is the whole text when the separator does not occur, and
      the part before the separator when it does. */
  lemma {:induction false} BeforeFirstCut(s: string, sep: string)
    requires sep != []
    ensures !IsSubstring(sep, s) ==> BeforeFirst(s, sep) == s
    ensures IsSubstring(sep, s) ==> StartsWith(s[|BeforeFirst(s, sep)|..], sep)
    ensures !IsSubstring(sep, BeforeFirst(s, sep))
    decreases |s|
  {
    if StartsWith(s, sep) {
    } else if s != [] {
      BeforeFirstCut(s[1..], sep);
      var r := BeforeFirst(s[1..], sep);
      assert s[|[s[0]] + r|..] == s[1..][|r|..];
      NoSubstringCons(sep, r, s);
    }
  }

  lemma NoSubstringCons(sep: string, r: string, s: string)
    requires sep != [] && |r| < |s| && !StartsWith(s, sep)
    requires r == s[1..|r| + 1]
    requires !IsSubstring(sep, r)
    ensures !IsSubstring(sep, [s[0]] + r)
  {
    var cr := [s[0]] + r;
    assert cr == s[..|cr|];
    assert cr[1..] == r;
  }

  /** A separator whose first character does not occur again in it cannot
      start inside `s + sep` earlier than the appended copy. */
  lemma NoEarlierSeparator(s: string, sep: string)
    requires sep != [] && forall k :: 1 <= k < |sep| ==> sep[k] != sep[0]
    requires s != [] && !StartsWith(s, sep)
    ensures !StartsWith(s + sep, sep)
  {
    if |s| >= |sep| {
      assert (s + sep)[..|sep|] == s[..|sep|];
    } else {
      assert (s + sep)[|s|] == sep[0];
      assert sep[|s|] != sep[0];
    }
  }

  /** Cutting `s + sep` at its first `sep` gives `s` back when `s` has no
      `sep` and `sep` does not overlap itself. */
  lemma {:induction false} BeforeFirstAppend(s: string, sep: string)
    requires sep != [] && forall k :: 1 <= k < |sep| ==> sep[k] != sep[0]
    requires !IsSubstring(sep, s)
    ensures BeforeFirst(s + sep, sep) == s
    decreases |s|
  {
    if s == [] {
      assert s + sep == sep;
    } else {
      NoEarlierSeparator(s, sep);
      assert (s + sep)[1..] == s[1..] + sep;
      BeforeFirstAppend(s[1..], sep);
    }
  }

  /** `ch * n` */
  function Repeat(ch: char, n: nat): (r: string)
    ensures |r| == n && forall k :: 0 <= k < n ==> r[k] == ch
  {
    seq(n, _ => ch)
  }

  function DigitChar(d: nat): (c: char)
    requires d < 10
    ensures '0' <= c <= '9'
  {
    ('0' as int + d) as char
  }

  /** `str(n)` for a natural number: its decimal digits, no leading zero. */
  function NatToString(n: nat): (r: string)
    ensures r != []
    ensures forall k :: 0 <= k < |r| ==> '0' <= r[k] <= '9'
    ensures |r| > 1 ==> r[0] != '0'
  {
    if n < 10 then [DigitChar(n)] else NatToString(n / 10) + [DigitChar(n % 10)]
  }

  /** `str(i)` for any integer. */
  function IntToString(i: int): (r: string)
    ensures r != []
    ensures i < 0 <==> r[0] == '-'
  {
    if i < 0 then "-" + NatToString(-i) else NatToString(i)
  }

  /** The value of a string of decimal digits. */
  function DigitsValue(s: string): nat
    requires forall k :: 0 <= k < |s| ==> '0' <= s[k] <= '9'
  {
    if s == [] then 0 else DigitsValue(s[..|s| - 1]) * 10 + (s[|s| - 1] as int - '0' as int)
  }

  /** Reading the printed digits back gives the number: `int(str(n)) == n`. */
  lemma {:induction false} NatToStringRoundTrip(n: nat)
    ensures DigitsValue(NatToString(n)) == n
  {
    if n >= 10 {
      NatToStringRoundTrip(n / 10);
      var r := NatToString(n);
      assert r[..|r| - 1] == NatToString(n / 10);
    }
  }
}
