/**
 * The fragments of Python's `str` that the scripts rely on: `isspace`,
 * `strip`, `split` on one character, `in` and `find` for substrings,
 * slicing with a possibly negative bound, ASCII case mapping, and
 * conversion between integers and decimal text.
 */
module Text {

  /** `c.isspace()` in CPython: the characters `str.strip()` removes and `\s` matches. */
  predicate IsSpace(c: char) {
    ('\t' <= c <= '\r') || ('\U{1C}' <= c <= '\U{1F}') || c == ' ' || c == '\U{85}' || c == '\U{A0}'
    || c == '\U{1680}' || ('\U{2000}' <= c <= '\U{200A}') || c == '\U{2028}' || c == '\U{2029}'
    || c == '\U{202F}' || c == '\U{205F}' || c == '\U{3000}'
  }

  predicate IsAsciiDigit(c: char) {
    '0' <= c <= '9'
  }

  predicate IsPrefix(p: string, s: string) {
    |p| <= |s| && s[..|p|] == p
  }

  /** `sub` occurs in `s` starting at index `i`. */
  predicate OccursAt(s: string, sub: string, i: int) {
    0 <= i && i + |sub| <= |s| && s[i..i + |sub|] == sub
  }

  /** Python's `sub in s`. */
  predicate Contains(s: string, sub: string) {
    exists i :: 0 <= i <= |s| - |sub| && OccursAt(s, sub, i)
  }

  lemma ContainsWitness(s: string, sub: string, i: int)
    requires OccursAt(s, sub, i)
    ensures Contains(s, sub)
  {
  }

  /** A prefix of what occurs at `i` occurs at `i` too. */
  lemma OccursPrefix(s: string, sub: string, p: string, i: int)
    requires OccursAt(s, sub, i) && IsPrefix(p, sub)
    ensures OccursAt(s, p, i)
  {
    assert s[i..i + |p|] == s[i..i + |sub|][..|p|];
  }

  /** `s.find(sub, from)`: the first index at or after `from` where `sub` occurs, or -1. */
  function FindFrom(s: string, sub: string, from: nat): (r: int)
    ensures r == -1 || (from <= r && OccursAt(s, sub, r))
    ensures r == -1 ==> forall j :: from <= j ==> !OccursAt(s, sub, j)
    ensures r != -1 ==> forall j :: from <= j < r ==> !OccursAt(s, sub, j)
    decreases |s| - from
  {
    if from + |sub| > |s| then -1
    else if s[from..from + |sub|] == sub then from
    else FindFrom(s, sub, from + 1)
  }

  /** `s.find(sub)`. */
  function Find(s: string, sub: string): (r: int)
    ensures r == -1 <==> !Contains(s, sub)
    ensures r != -1 ==> OccursAt(s, sub, r) && forall j :: 0 <= j < r ==> !OccursAt(s, sub, j)
  {
    FindFrom(s, sub, 0)
  }

  /** The number of leading whitespace characters of `s`. */
  function LeadingSpaces(s: string): (n: nat)
    ensures n <= |s|
    ensures forall i :: 0 <= i < n ==> IsSpace(s[i])
    ensures n < |s| ==> !IsSpace(s[n])
  {
    if |s| > 0 && IsSpace(s[0]) then 1 + LeadingSpaces(s[1..]) else 0
  }

  /** The number of trailing whitespace characters of `s`. */
  function TrailingSpaces(s: string): (n: nat)
    ensures n <= |s|
    ensures forall i :: |s| - n <= i < |s| ==> IsSpace(s[i])
    ensures n < |s| ==> !IsSpace(s[|s| - n - 1])
  {
    if |s| > 0 && IsSpace(s[|s| - 1]) then 1 + TrailingSpaces(s[..|s| - 1]) else 0
  }

  /** Python's `s.strip()` with no argument. */
  function Strip(s: string): string {
    var t := s[LeadingSpaces(s)..];
    t[..|t| - TrailingSpaces(t)]
  }

  /** Neither end of `s` is whitespace. */
  predicate IsStripped(s: string) {
    s == [] || (!IsSpace(s[0]) && !IsSpace(s[|s| - 1]))
  }

  /** A slice of a slice of `s` occurs in `s`. */
  lemma SliceOfSlice(s: string, j: nat, k: nat, a: nat, b: nat)
    requires j <= k <= |s| && a <= b <= k - j
    ensures OccursAt(s, s[j..k][a..b], j + a)
  {
    var r := s[j..k][a..b];
    forall m | 0 <= m < b - a ensures r[m] == s[j + a + m] {
      assert r[m] == s[j..k][a + m];
    }
    assert r == s[j + a..j + a + |r|];
  }

  /** Stripping a slice of `s` leaves a piece of `s`. */
  lemma StripOfSlice(s: string, j: nat, k: nat)
    requires j <= k <= |s|
    ensures Contains(s, Strip(s[j..k]))
  {
    var a, b := StripShape(s[j..k]);
    SliceOfSlice(s, j, k, a, b);
    ContainsWitness(s, s[j..k][a..b], j + a);
  }

  /** What `strip` returns is a slice of its argument with no whitespace at either end. */
  lemma StripShape(s: string) returns (a: nat, b: nat)
    ensures a <= b <= |s| && Strip(s) == s[a..b]
    ensures IsStripped(Strip(s))
  {
    a := LeadingSpaces(s);
    var t := s[a..];
    var n := TrailingSpaces(t);
    b := |s| - n;
    var r := t[..|t| - n];
    assert Strip(s) == r;
    if r != [] {
      assert r[0] == s[a];
      assert !IsSpace(s[a]);
      assert r[|r| - 1] == t[|t| - n - 1];
    }
  }

  /** What `strip` cuts off at either end is whitespace. */
  lemma StripCutsSpaces(s: string) returns (a: nat, b: nat)
    ensures a <= b <= |s| && Strip(s) == s[a..b]
    ensures forall i :: 0 <= i < a ==> IsSpace(s[i])
    ensures forall i :: b <= i < |s| ==> IsSpace(s[i])
  {
    a := LeadingSpaces(s);
    var t := s[a..];
    var n := TrailingSpaces(t);
    b := |s| - n;
    forall i | b <= i < |s| ensures IsSpace(s[i]) {
      assert s[i] == t[i - a];
    }
  }

  lemma StripShorter(s: string)
    ensures |Strip(s)| <= |s|
  {
    var _, _ := StripShape(s);
  }

  lemma StrippedIsFixed(s: string)
    requires IsStripped(s)
    ensures Strip(s) == s
  {
    if s != [] {
      assert LeadingSpaces(s) == 0;
      assert TrailingSpaces(s) == 0;
    }
  }

  /** `strip` is idempotent. */
  lemma StripIdempotent(s: string)
    ensures Strip(Strip(s)) == Strip(s)
  {
    var _, _ := StripShape(s);
    StrippedIsFixed(Strip(s));
  }

  /**
   * A block that occurs in the text and whose first and last characters
   * are not whitespace survives `strip`.
   */
  lemma BlockInStrip(s: string, b: string, p: nat)
    requires OccursAt(s, b, p)
    requires |b| > 0 && !IsSpace(b[0]) && !IsSpace(b[|b| - 1])
    ensures Contains(Strip(s), b)
  {
    var lo, hi := StripCutsSpaces(s);
    assert s[p] == b[0];
    assert s[p + |b| - 1] == b[|b| - 1];
    OccursInSlice(s, b, p, lo, hi);
    ContainsWitness(Strip(s), b, p - lo);
  }

  /** What occurs in `s` between `lo` and `hi` occurs in the slice `s[lo..hi]`. */
  lemma OccursInSlice(s: string, b: string, p: nat, lo: nat, hi: nat)
    requires OccursAt(s, b, p) && lo <= p && p + |b| <= hi <= |s|
    ensures OccursAt(s[lo..hi], b, p - lo)
  {
    var t := s[lo..hi];
    forall m | 0 <= m < |b| ensures t[p - lo + m] == b[m] {
      assert t[p - lo + m] == s[p + m];
      assert s[p..p + |b|][m] == b[m];
    }
    assert t[p - lo..p - lo + |b|] == b;
  }

  /** The same, for a block placed between two texts. */
  lemma BlockSurvivesStrip(x: string, b: string, y: string)
    requires |b| > 0 && !IsSpace(b[0]) && !IsSpace(b[|b| - 1])
    ensures Contains(Strip(x + b + y), b)
  {
    assert (x + b + y)[|x|..|x| + |b|] == b;
    BlockInStrip(x + b + y, b, |x|);
  }

  /** Python's `s.split(sep)` for a one-character separator. */
  function Split(s: string, sep: char): (r: seq<string>)
    ensures |r| >= 1
    ensures forall k :: 0 <= k < |r| ==> sep !in r[k]
  {
    if s == [] then [""]
    else
      var rest := Split(s[1..], sep);
      if s[0] == sep then [""] + rest
      else [[s[0]] + rest[0]] + rest[1..]
  }

  /** `sep.join(pieces)`. */
  function Join(pieces: seq<string>, sep: char): string
    requires |pieces| >= 1
  {
    if |pieces| == 1 then pieces[0] else pieces[0] + [sep] + Join(pieces[1..], sep)
  }

  /** Splitting loses nothing: joining the pieces again gives back the text. */
  lemma {:induction false} SplitJoin(s: string, sep: char)
    ensures Join(Split(s, sep), sep) == s
  {
    if s != [] {
      var rest := Split(s[1..], sep);
      SplitJoin(s[1..], sep);
      if s[0] == sep {
        assert Split(s, sep)[1..] == rest;
      } else {
        var r := Split(s, sep);
        if |rest| == 1 {
          assert r == [[s[0]] + rest[0]];
        } else {
          assert r[1..] == rest[1..];
          assert Join(r, sep) == [s[0]] + rest[0] + [sep] + Join(rest[1..], sep);
        }
      }
    }
  }

  /** The text before the first `sep`: `s.split(sep)[0]`. */
  lemma {:induction false} FirstPieceIsPrefix(s: string, sep: char)
    ensures IsPrefix(Split(s, sep)[0], s)
    ensures |Split(s, sep)[0]| < |s| ==> s[|Split(s, sep)[0]|] == sep
  {
    if s != [] && s[0] != sep {
      FirstPieceIsPrefix(s[1..], sep);
      FirstPieceStep(s, sep);
      PrefixCons(s[0], Split(s[1..], sep)[0], s[1..]);
      assert [s[0]] + s[1..] == s;
    }
  }

  lemma FirstPieceStep(s: string, sep: char)
    requires s != [] && s[0] != sep
    ensures Split(s, sep)[0] == [s[0]] + Split(s[1..], sep)[0]
  {
  }

  lemma PrefixCons(c: char, p: string, t: string)
    requires IsPrefix(p, t)
    ensures IsPrefix([c] + p, [c] + t)
  {
    assert ([c] + t)[..|p| + 1] == [c] + t[..|p|];
  }

  /**
   * Python's `s[:k]`: a non-negative bound is clamped to the length, a
   * negative one counts from the end.
   */
  function SlicePrefix(s: string, k: int): (r: string)
    ensures IsPrefix(r, s)
    ensures 0 <= k <= |s| ==> |r| == k
    ensures k < 0 ==> |r| == if |s| + k < 0 then 0 else |s| + k
  {
    if k >= |s| then s
    else if k >= 0 then s[..k]
    else if |s| + k >= 0 then s[..|s| + k]
    else []
  }

  /** ASCII lower-casing of one character. */
  function LowerChar(c: char): (r: char)
    ensures IsSpace(r) <==> IsSpace(c)
    ensures 'A' <= c <= 'Z' ==> 'a' <= r <= 'z'
    ensures !('A' <= c <= 'Z') ==> r == c
  {
    if 'A' <= c <= 'Z' then (c as int - 'A' as int + 'a' as int) as char else c
  }

  /** `s.lower()`, restricted to ASCII letters. */
  function Lower(s: string): (r: string)
    ensures |r| == |s|
    ensures forall i :: 0 <= i < |s| ==> r[i] == LowerChar(s[i])
  {
    seq(|s|, i requires 0 <= i < |s| => LowerChar(s[i]))
  }

  /** `s.replace(a, b)` for single characters. */
  function ReplaceChar(s: string, a: char, b: char): (r: string)
    ensures |r| == |s|
    ensures forall i :: 0 <= i < |s| ==> r[i] == if s[i] == a then b else s[i]
  {
    seq(|s|, i requires 0 <= i < |s| => if s[i] == a then b else s[i])
  }

  function DigitChar(d: nat): (c: char)
    requires d < 10
    ensures IsAsciiDigit(c)
  {
    ('0' as int + d) as char
  }

  /** `str(n)` for a natural number: its decimal digits, without leading zeros. */
  function NatToString(n: nat): (r: string)
    ensures |r| >= 1
    ensures forall i :: 0 <= i < |r| ==> IsAsciiDigit(r[i])
  {
    if n < 10 then [DigitChar(n)] else NatToString(n / 10) + [DigitChar(n % 10)]
  }

  /** `str(i)` for any integer. */
  function IntToString(i: int): string {
    if i < 0 then "-" + NatToString(-i) else NatToString(i)
  }

  /** `int(s)` for a string of ASCII digits. */
  function DigitsValue(s: string): nat
    requires forall i :: 0 <= i < |s| ==> IsAsciiDigit(s[i])
  {
    if s == [] then 0
    else
      assert IsAsciiDigit(s[|s| - 1]);
      DigitsValue(s[..|s| - 1]) * 10 + (s[|s| - 1] as int - '0' as int)
  }

  /** Reading back the digits `str` writes gives the number again. */
  lemma {:induction false} DigitsRoundTrip(n: nat)
    ensures DigitsValue(NatToString(n)) == n
  {
    if n >= 10 {
      var s := NatToString(n);
      assert s[..|s| - 1] == NatToString(n / 10);
      DigitsRoundTrip(n / 10);
    }
  }
}
