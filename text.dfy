/**
 * Python string operations used by the core: `str.strip`, `str.find`,
 * `str.replace`, `str(int)`, Unicode NFC normalisation and the
 * case-insensitive character comparison of `re.IGNORECASE`.
 */
module Text {

  /**
   * Python's whitespace (`str.isspace`, which is also what `\s` matches in
   * a `str` regular expression and what `str.strip()` removes).
   */
  predicate IsSpace(c: char) {
    ('\U{9}' <= c <= '\U{D}') || ('\U{1C}' <= c <= '\U{20}')
    || c == '\U{85}' || c == '\U{A0}' || c == '\U{1680}'
    || ('\U{2000}' <= c <= '\U{200A}') || c == '\U{2028}' || c == '\U{2029}'
    || c == '\U{202F}' || c == '\U{205F}' || c == '\U{3000}'
  }

  /** Where `s.lstrip()` starts: the number of leading whitespace characters. */
  function LeadingSpaces(s: string, lo: nat): (n: nat)
    requires lo <= |s|
    requires forall i :: 0 <= i < lo ==> IsSpace(s[i])
    ensures lo <= n <= |s|
    ensures forall i :: 0 <= i < n ==> IsSpace(s[i])
    ensures n == |s| || !IsSpace(s[n])
    decreases |s| - lo
  {
    if lo < |s| && IsSpace(s[lo]) then LeadingSpaces(s, lo + 1) else lo
  }

  /** Where `s.rstrip()` ends, searching down to `lo`. */
  function TrailingEnd(s: string, lo: nat, hi: nat): (m: nat)
    requires lo <= hi <= |s|
    requires forall i :: hi <= i < |s| ==> IsSpace(s[i])
    ensures lo <= m <= hi
    ensures forall i :: m <= i < |s| ==> IsSpace(s[i])
    ensures m == lo || !IsSpace(s[m - 1])
    decreases hi - lo
  {
    if lo < hi && IsSpace(s[hi - 1]) then TrailingEnd(s, lo, hi - 1) else hi
  }

  /** `s.strip()`: the longest infix that neither starts nor ends with whitespace. */
  function Strip(s: string): (r: string)
    ensures |r| <= |s|
    ensures r == [] || (!IsSpace(r[0]) && !IsSpace(r[|r| - 1]))
    ensures r == [] <==> forall i :: 0 <= i < |s| ==> IsSpace(s[i])
    ensures exists lo :: InfixAt(r, s, lo)
  {
    var lo := LeadingSpaces(s, 0);
    var hi := TrailingEnd(s, lo, |s|);
    assert InfixAt(s[lo..hi], s, lo);
    s[lo..hi]
  }

  /** `r` is the slice of `s` that starts at `lo`. */
  predicate InfixAt(r: string, s: string, lo: int) {
    0 <= lo && lo + |r| <= |s| && s[lo..lo + |r|] == r
  }

  /** The text `needle` starts at index `i` of `hay`. */
  predicate OccursAt(hay: string, needle: string, i: int) {
    0 <= i && i + |needle| <= |hay| && hay[i..i + |needle|] == needle
  }

  /** Every index where `needle` occurs in `hay`. */
  ghost function Occurrences(hay: string, needle: string): set<int> {
    set i | 0 <= i <= |hay| && OccursAt(hay, needle, i)
  }

  /** `hay.find(needle, start)`: the first occurrence at or after `start`, else -1. */
  function Find(hay: string, needle: string, start: nat): (r: int)
    ensures r == -1 || (start <= r && OccursAt(hay, needle, r))
    ensures r == -1 ==> forall j :: start <= j ==> !OccursAt(hay, needle, j)
    ensures r != -1 ==> forall j :: start <= j < r ==> !OccursAt(hay, needle, j)
    decreases |hay| - start
  {
    if start + |needle| > |hay| then -1
    else if hay[start..start + |needle|] == needle then start
    else Find(hay, needle, start + 1)
  }

  /** `s.startswith(p)` */
  predicate StartsWith(s: string, p: string) {
    |p| <= |s| && s[..|p|] == p
  }

  /**
   * `s.replace(pat, rep)` for a non-empty `pat`: left to right, occurrences
   * do not overlap, and replaced text is not scanned again.
   */
  function ReplaceAll(s: string, pat: string, rep: string): string
    requires pat != []
    decreases |s|
  {
    if |s| < |pat| then s
    else if s[..|pat|] == pat then rep + ReplaceAll(s[|pat|..], pat, rep)
    else [s[0]] + ReplaceAll(s[1..], pat, rep)
  }

  /** Decimal digits of a natural number. */
  function NatToString(n: nat): (r: string)
    ensures r != []
    ensures forall i :: 0 <= i < |r| ==> '0' <= r[i] <= '9'
    decreases n
  {
    var d := [(('0' as int) + n % 10) as char];
    if n < 10 then d else NatToString(n / 10) + d
  }

  /** `str(n)` for a Python `int` */
  function IntToString(n: int): (r: string)
    ensures forall i :: 0 <= i < |r| ==> r[i] == '-' || '0' <= r[i] <= '9'
  {
    if n < 0 then "-" + NatToString(-n) else NatToString(n)
  }

  /** Distinct naturals have distinct decimal forms. */
  lemma {:induction false} NatToStringInjective(n: nat, m: nat)
    requires NatToString(n) == NatToString(m)
    ensures n == m
    decreases n
  {
    var a := NatToString(n);
    assert a[|a| - 1] == (('0' as int) + n % 10) as char;
    assert a[|a| - 1] == (('0' as int) + m % 10) as char;
    if n >= 10 && m >= 10 {
      assert NatToString(n / 10) == a[..|a| - 1] == NatToString(m / 10);
      NatToStringInjective(n / 10, m / 10);
    }
  }

  /** `str` is injective on `int`. */
  lemma IntToStringInjective(n: int, m: int)
    requires IntToString(n) == IntToString(m)
    ensures n == m
  {
    var a := IntToString(n);
    assert a != [] && (a[0] == '-' <==> n < 0);
    assert IntToString(m) != [] && (IntToString(m)[0] == '-' <==> m < 0);
    if n < 0 && m < 0 {
      assert NatToString(-n) == a[1..] == NatToString(-m);
      NatToStringInjective(-n, -m);
    } else if n >= 0 && m >= 0 {
      NatToStringInjective(n, m);
    }
  }

  /** Position of the first `c` in `s`, or `|s|`. */
  function FirstIndexOf(s: string, c: char): (r: nat)
    ensures r <= |s|
  {
    if s == [] || s[0] == c then 0 else 1 + FirstIndexOf(s[1..], c)
  }

  lemma {:induction false} FirstIndexOfMark(c: char, x: string, y: string)
    requires forall i :: 0 <= i < |x| ==> x[i] != c
    ensures FirstIndexOf(x + [c] + y, c) == |x|
  {
    if x != [] {
      assert (x + [c] + y)[1..] == x[1..] + [c] + y;
      FirstIndexOfMark(c, x[1..], y);
    }
  }

  /** A string split at the first occurrence of `c` determines both halves. */
  lemma SplitAtMark(c: char, x: string, y: string, x2: string, y2: string)
    requires forall i :: 0 <= i < |x| ==> x[i] != c
    requires forall i :: 0 <= i < |x2| ==> x2[i] != c
    requires x + [c] + y == x2 + [c] + y2
    ensures x == x2 && y == y2
  {
    var s := x + [c] + y;
    FirstIndexOfMark(c, x, y);
    FirstIndexOfMark(c, x2, y2);
    assert x == s[..|x|] == x2;
    assert y == s[|x| + 1..] == y2;
  }

  /** `sep.join(parts)` */
  function Join(sep: string, parts: seq<string>): string {
    if parts == [] then ""
    else if |parts| == 1 then parts[0]
    else parts[0] + sep + Join(sep, parts[1..])
  }

  /** `a` is `b` with some elements left out; the order is kept. */
  predicate SubsequenceOf<T(==)>(a: seq<T>, b: seq<T>)
    decreases |b|
  {
    a == [] || (b != [] && ((a[0] == b[0] && SubsequenceOf(a[1..], b[1..])) || SubsequenceOf(a, b[1..])))
  }

  /** ASCII upper-case letters fold to lower case. */
  function FoldCase(c: char): char {
    if 'A' <= c <= 'Z' then ((c as int) + 32) as char else c
  }

  /** Character equality under `re.IGNORECASE`, on ASCII letters. */
  predicate SameIgnoringCase(a: char, b: char) {
    FoldCase(a) == FoldCase(b)
  }

  ghost predicate Idempotent(f: string -> string) {
    forall s {:trigger f(f(s))} :: f(f(s)) == f(s)
  }

  /**
   * `unicodedata.normalize("NFC", ·)`.  The Unicode composition tables are
   * not part of the model: the normaliser is a parameter, and the only
   * property relied on is that normalising twice is normalising once.
   */
  type Normalizer = f: string -> string | Idempotent(f) witness (s: string) => s
}
