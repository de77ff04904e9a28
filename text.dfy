/**
 * The string primitives the backend relies on: ASCII lower-casing, substring search,
 * whitespace trimming, decimal rendering and parsing of numbers, joining and splitting.
 * Strings are sequences of characters; only the ASCII behaviour of JavaScript's
 * `toLowerCase`, `trim` and `\s` is modelled.
 */
module Text {

  /** The characters JavaScript's `trim` and the regular-expression class `\s` treat as white space (ASCII subset). */
  predicate IsSpace(c: char) {
    c == ' ' || c == '\t' || c == '\n' || c == '\r' || c == '\U{000B}' || c == '\U{000C}'
  }

  predicate IsDigit(c: char) {
    '0' <= c <= '9'
  }

  function LowerChar(c: char): (r: char)
    ensures 'A' <= c <= 'Z' ==> r as int == c as int + 32
    ensures !('A' <= c <= 'Z') ==> r == c
  {
    if 'A' <= c <= 'Z' then (c as int + 32) as char else c
  }

  /** `toLowerCase` restricted to ASCII letters. */
  function Lower(s: string): (r: string)
    ensures |r| == |s|
    ensures forall i :: 0 <= i < |s| ==> r[i] == LowerChar(s[i])
  {
    if s == [] then [] else [LowerChar(s[0])] + Lower(s[1..])
  }

  lemma LowerIdempotent(s: string)
    ensures Lower(Lower(s)) == Lower(s)
  {
    var l := Lower(s);
    assert forall i :: 0 <= i < |l| ==> LowerChar(l[i]) == l[i];
  }

  /** Lower-casing never changes a digit, a dot, a new line or a white-space character. */
  lemma LowerKeepsNonLetters(s: string, i: int)
    requires 0 <= i < |s|
    requires !('A' <= s[i] <= 'Z')
    ensures Lower(s)[i] == s[i]
  {
  }

  /** `sub` occurs in `s` starting at index `i`. */
  predicate OccursAt(s: string, sub: string, i: int) {
    0 <= i && i + |sub| <= |s| && s[i..i + |sub|] == sub
  }

  /** JavaScript's `s.includes(sub)`. */
  function Contains(s: string, sub: string): (r: bool)
    ensures r <==> exists i :: 0 <= i <= |s| - |sub| && OccursAt(s, sub, i)
    decreases |s|
  {
    if sub <= s then
      assert OccursAt(s, sub, 0);
      true
    else if s == [] then
      false
    else
      var r := Contains(s[1..], sub);
      if r then
        var k :| 0 <= k <= |s[1..]| - |sub| && OccursAt(s[1..], sub, k);
        assert s[k + 1..k + 1 + |sub|] == s[1..][k..k + |sub|];
        assert OccursAt(s, sub, k + 1);
        true
      else
        assert forall i :: 1 <= i <= |s| - |sub| ==> (OccursAt(s, sub, i) ==> OccursAt(s[1..], sub, i - 1)) by {
          forall i | 1 <= i <= |s| - |sub| && OccursAt(s, sub, i) ensures OccursAt(s[1..], sub, i - 1) {
            assert s[1..][i - 1..i - 1 + |sub|] == s[i..i + |sub|];
          }
        }
        assert !OccursAt(s, sub, 0);
        false
  }

  /** Length of the run of white space at the start of `s`. */
  function LeadingSpaces(s: string): (n: nat)
    ensures n <= |s|
    ensures forall i :: 0 <= i < n ==> IsSpace(s[i])
    ensures n < |s| ==> !IsSpace(s[n])
  {
    if s != [] && IsSpace(s[0]) then 1 + LeadingSpaces(s[1..]) else 0
  }

  /** Length of the run of white space at the end of `s`. */
  function TrailingSpaces(s: string): (n: nat)
    ensures n <= |s|
    ensures forall i :: |s| - n <= i < |s| ==> IsSpace(s[i])
    ensures n < |s| ==> !IsSpace(s[|s| - n - 1])
  {
    if s != [] && IsSpace(s[|s| - 1]) then 1 + TrailingSpaces(s[..|s| - 1]) else 0
  }

  /** `r` is `s` with `a` white-space characters removed from its start and `b` from its end. */
  predicate Stripped(s: string, r: string, a: int, b: int) {
    0 <= a && 0 <= b && a + b <= |s| && r == s[a..|s| - b]
    && (forall i :: 0 <= i < a ==> IsSpace(s[i]))
    && (forall i :: |s| - b <= i < |s| ==> IsSpace(s[i]))
  }

  /**
   * JavaScript's `trim`: `s` with its leading and trailing white space removed, so the
   * result neither starts nor ends with white space.
   */
  function Trim(s: string): (r: string)
    ensures |r| <= |s|
    ensures r != [] ==> !IsSpace(r[0]) && !IsSpace(r[|r| - 1])
    ensures exists i :: 0 <= i <= |s| - |r| && OccursAt(s, r, i)
    ensures exists a, b :: Stripped(s, r, a, b)
    ensures (forall i :: 0 <= i < |s| ==> IsSpace(s[i])) <==> r == []
  {
    var a := LeadingSpaces(s);
    var rest := s[a..];
    var b := TrailingSpaces(rest);
    var r := rest[..|rest| - b];
    assert r == s[a..a + |r|] && OccursAt(s, r, a);
    assert a < |s| ==> !IsSpace(rest[0]) && b < |rest|;
    assert forall i :: |s| - b <= i < |s| ==> s[i] == rest[i - a];
    assert Stripped(s, r, a, b);
    r
  }

  /** Value of a string of decimal digits. */
  function DigitsValue(s: string): (n: nat)
    requires forall i :: 0 <= i < |s| ==> IsDigit(s[i])
    decreases |s|
  {
    if s == [] then 0 else 10 * DigitsValue(s[..|s| - 1]) + DigitValue(s[|s| - 1])
  }

  function DigitValue(c: char): (d: nat)
    requires IsDigit(c)
    ensures d < 10
  {
    c as int - '0' as int
  }

  function DigitChar(d: nat): (c: char)
    requires d < 10
    ensures IsDigit(c) && DigitValue(c) == d
  {
    ('0' as int + d) as char
  }

  /** Decimal rendering of a natural number, as JavaScript's template strings print integers. */
  function NatToString(n: nat): (s: string)
    ensures s != []
    ensures forall i :: 0 <= i < |s| ==> IsDigit(s[i])
    ensures |s| > 1 ==> s[0] != '0'
    decreases n
  {
    if n < 10 then [DigitChar(n)] else NatToString(n / 10) + [DigitChar(n % 10)]
  }

  /** Parsing a rendered number gives the number back. */
  lemma {:induction false} NatToStringRoundTrip(n: nat)
    ensures DigitsValue(NatToString(n)) == n
    decreases n
  {
    if n >= 10 {
      var s := NatToString(n);
      assert s[..|s| - 1] == NatToString(n / 10);
      NatToStringRoundTrip(n / 10);
    }
  }

  /**
   * Decimal rendering of an integer: a minus sign exactly when it is negative, then the
   * digits of its magnitude, which read back to that magnitude.
   */
  function IntToString(i: int): (s: string)
    ensures s != [] && (s[0] == '-' <==> i < 0)
    ensures var digits := if i < 0 then s[1..] else s;
            digits != [] && (forall k :: 0 <= k < |digits| ==> IsDigit(digits[k]))
            && DigitsValue(digits) == if i < 0 then -i else i
  {
    var n: nat := if i < 0 then -i else i;
    NatToStringRoundTrip(n);
    if i < 0 then "-" + NatToString(n) else NatToString(n)
  }

  /** JavaScript's `parts.join(sep)`. */
  function Join(parts: seq<string>, sep: string): (r: string)
    ensures parts == [] ==> r == ""
    ensures |parts| == 1 ==> r == parts[0]
  {
    if parts == [] then "" else if |parts| == 1 then parts[0] else parts[0] + sep + Join(parts[1..], sep)
  }

  /** Joining one more part appends the separator and that part: `join` is a left fold. */
  lemma {:induction false} JoinAppend(parts: seq<string>, p: string, sep: string)
    requires parts != []
    ensures Join(parts + [p], sep) == Join(parts, sep) + sep + p
    decreases |parts|
  {
    if |parts| == 1 {
      assert parts + [p] == [parts[0], p];
    } else {
      assert (parts + [p])[1..] == parts[1..] + [p];
      JoinAppend(parts[1..], p, sep);
    }
  }

  /** The middle of a concatenation occurs in it, right after the first part. */
  lemma ContainsMiddle(a: string, b: string, c: string)
    ensures a <= a + b + c
    ensures OccursAt(a + b + c, b, |a|) && Contains(a + b + c, b)
  {
    var s := a + b + c;
    assert s[|a|..|a| + |b|] == b;
    assert 0 <= |a| <= |s| - |b| && OccursAt(s, b, |a|);
  }

  /** A text built from a head and two inserts around fixed pieces starts with the head and contains both inserts. */
  lemma ContainsInserts(head: string, x: string, mid: string, y: string, tail: string)
    ensures head <= head + x + mid + y + tail
    ensures Contains(head + x + mid + y + tail, x) && Contains(head + x + mid + y + tail, y)
  {
    var s := head + x + mid + y + tail;
    var j := |head| + |x| + |mid|;
    assert s[..|head|] == head;
    assert s[|head|..|head| + |x|] == x && OccursAt(s, x, |head|);
    assert s[j..j + |y|] == y && OccursAt(s, y, j);
  }

  /** The characters `.`, `!` and `?` that end a sentence. */
  predicate IsSentenceEnd(c: char) {
    c == '.' || c == '!' || c == '?'
  }

  /** `s` without its sentence-ending characters. */
  function DropSentenceEnds(s: string): string {
    if s == [] then [] else (if IsSentenceEnd(s[0]) then [] else [s[0]]) + DropSentenceEnds(s[1..])
  }

  function Concat(parts: seq<string>): string {
    if parts == [] then [] else parts[0] + Concat(parts[1..])
  }

  /**
   * JavaScript's `s.split(/[.!?]+/)` up to empty pieces: the text between consecutive
   * sentence-ending characters. A run of several such characters yields empty pieces here
   * where JavaScript yields none; every caller discards short pieces, so the two agree.
   */
  function Fragments(s: string): (r: seq<string>)
    ensures r != []
    ensures forall k, i :: 0 <= k < |r| && 0 <= i < |r[k]| ==> !IsSentenceEnd(r[k][i])
    decreases |s|
  {
    if s == [] then [""]
    else
      var rest := Fragments(s[1..]);
      if IsSentenceEnd(s[0]) then [""] + rest else [[s[0]] + rest[0]] + rest[1..]
  }

  /** The fragments are exactly the text of `s` with its sentence ends removed. */
  lemma {:induction false} FragmentsCoverText(s: string)
    ensures Concat(Fragments(s)) == DropSentenceEnds(s)
    decreases |s|
  {
    if s != [] {
      FragmentsCoverText(s[1..]);
      var rest := Fragments(s[1..]);
      if !IsSentenceEnd(s[0]) {
        assert Concat(rest) == rest[0] + Concat(rest[1..]);
        calc {
          Concat(Fragments(s));
          ([s[0]] + rest[0]) + Concat(rest[1..]);
          [s[0]] + (rest[0] + Concat(rest[1..]));
          [s[0]] + DropSentenceEnds(s[1..]);
        }
      }
    }
  }

  /** A text without sentence ends is a single piece. */
  lemma {:induction false} NoSentenceEndIsOnePiece(s: string)
    requires forall i :: 0 <= i < |s| ==> !IsSentenceEnd(s[i])
    ensures Fragments(s) == [s]
    decreases |s|
  {
    if s != [] {
      NoSentenceEndIsOnePiece(s[1..]);
      assert [s[0]] + s[1..] == s;
    }
  }

  /** `split` cuts at the first sentence end: the text before it is the first piece, and the rest is split again. */
  lemma {:induction false} FragmentsCutAtFirstEnd(p: string, c: char, q: string)
    requires IsSentenceEnd(c)
    requires forall i :: 0 <= i < |p| ==> !IsSentenceEnd(p[i])
    ensures Fragments(p + [c] + q) == [p] + Fragments(q)
    decreases |p|
  {
    var s := p + [c] + q;
    if p == [] {
      assert s[1..] == q;
    } else {
      assert s[1..] == p[1..] + [c] + q;
      FragmentsCutAtFirstEnd(p[1..], c, q);
      assert [p[0]] + p[1..] == p;
    }
  }
}
