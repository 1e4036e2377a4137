/**
 * How Python prints values into message texts: `repr` of a `str`, of a
 * `float` and of a list or dict loaded from JSON, and `str(value)` as an
 * f-string's `{value}` prints it.
 */
module PyFormat {
  import opened Outcomes
  import opened Text
  import opened JsonValues

  // ----- `repr` of a string -----

  /** The quote `repr` puts around `s`: `"` when `s` holds a `'` and no `"`, otherwise `'`. */
  function ReprQuote(s: string): (q: char)
    ensures q == '"' <==> '\'' in s && '"' !in s
    ensures q == '"' || q == '\''
  {
    if '\'' in s && '"' !in s then '"' else '\''
  }

  /**
   * The characters below U+0100 that `repr` writes as `\xhh`: the C0
   * controls (tab, newline and carriage return have short escapes), DEL,
   * the C1 controls, the no-break space and the soft hyphen.
   */
  predicate HexEscaped(c: char) {
    c < ' ' || ('\U{7F}' <= c <= '\U{A0}') || c == '\U{AD}'
  }

  /** A lower-case hexadecimal digit. */
  function HexDigit(n: nat): (c: char)
    requires n < 16
  {
    if n < 10 then (('0' as int) + n) as char else (('a' as int) + n - 10) as char
  }

  /** The value of a lower-case hexadecimal digit. */
  function HexValue(c: char): (v: Option<nat>)
    ensures v.Some? ==> v.value < 16
  {
    if '0' <= c <= '9' then Some(c as int - '0' as int)
    else if 'a' <= c <= 'f' then Some(c as int - 'a' as int + 10)
    else None
  }

  /** How `repr` writes one character of a string it quotes with `q`. */
  function EscapeChar(c: char, q: char): string {
    if c == q || c == '\\' then ['\\', c]
    else if c == '\t' then "\\t"
    else if c == '\n' then "\\n"
    else if c == '\r' then "\\r"
    else if HexEscaped(c) then ['\\', 'x', HexDigit(c as int / 16), HexDigit(c as int % 16)]
    else [c]
  }

  /** The body of `repr(s)` between the quotes `q`. */
  function Escape(s: string, q: char): string {
    if s == [] then "" else EscapeChar(s[0], q) + Escape(s[1..], q)
  }

  /** `repr(s)` for a `str` `s`. */
  function Repr(s: string): (r: string)
    ensures |r| >= 2 && r[0] == ReprQuote(s) && r[|r| - 1] == ReprQuote(s)
  {
    var q := ReprQuote(s);
    [q] + Escape(s, q) + [q]
  }

  function Prepend(c: char, o: Option<string>): Option<string> {
    if o.Some? then Some([c] + o.value) else None
  }

  /**
   * Python's reading of the body of a string literal quoted with `q`, for
   * the escapes `repr` writes; `None` for a bare quote `q` or an escape
   * `repr` does not write.
   */
  function Unescape(t: string, q: char): Option<string>
    decreases |t|
  {
    if t == [] then Some("")
    else if t[0] == q then None
    else if t[0] != '\\' then Prepend(t[0], Unescape(t[1..], q))
    else if |t| < 2 then None
    else if t[1] == q || t[1] == '\\' then Prepend(t[1], Unescape(t[2..], q))
    else if t[1] == 't' then Prepend('\t', Unescape(t[2..], q))
    else if t[1] == 'n' then Prepend('\n', Unescape(t[2..], q))
    else if t[1] == 'r' then Prepend('\r', Unescape(t[2..], q))
    else if t[1] == 'x' && |t| >= 4 && HexValue(t[2]).Some? && HexValue(t[3]).Some? then
      Prepend((HexValue(t[2]).value * 16 + HexValue(t[3]).value) as char, Unescape(t[4..], q))
    else None
  }

  /** A hexadecimal digit reads back as its value. */
  lemma HexDigitValue(n: nat)
    requires n < 16
    ensures HexValue(HexDigit(n)) == Some(n)
  {
  }

  /** One escaped character reads back as itself. */
  lemma EscapeCharReadsBack(c: char, q: char, rest: string)
    requires q == '\'' || q == '"'
    ensures Unescape(EscapeChar(c, q) + rest, q) == Prepend(c, Unescape(rest, q))
  {
    var t := EscapeChar(c, q) + rest;
    if c == q || c == '\\' {
      assert t[2..] == rest;
    } else if c == '\t' || c == '\n' || c == '\r' {
      assert t[2..] == rest;
    } else if HexEscaped(c) {
      var n := c as int;
      HexDigitValue(n / 16);
      HexDigitValue(n % 16);
      assert t[2] == HexDigit(n / 16) && t[3] == HexDigit(n % 16);
      assert (n / 16) * 16 + n % 16 == n;
      assert t[4..] == rest;
    } else {
      assert t[1..] == rest;
    }
  }

  /** The body of `repr(s)` reads back as `s`. */
  lemma {:induction false} EscapeReadsBack(s: string, q: char)
    requires q == '\'' || q == '"'
    ensures Unescape(Escape(s, q), q) == Some(s)
  {
    if s != [] {
      EscapeReadsBack(s[1..], q);
      EscapeCharReadsBack(s[0], q, Escape(s[1..], q));
      assert [s[0]] + s[1..] == s;
    }
  }

  /** `repr(s)` reads back as `s`: the literal Python prints evaluates to the string. */
  lemma ReprReadsBack(s: string)
    ensures var r := Repr(s); Unescape(r[1..|r| - 1], r[0]) == Some(s)
  {
    var q := ReprQuote(s);
    assert Repr(s)[1..|Repr(s)| - 1] == Escape(s, q);
    EscapeReadsBack(s, q);
  }

  /** Distinct strings have distinct `repr`s. */
  lemma ReprInjective(s: string, t: string)
    requires Repr(s) == Repr(t)
    ensures s == t
  {
    ReprReadsBack(s);
    ReprReadsBack(t);
  }

  // ----- `repr` of a float -----

  function Pow10(k: nat): (p: nat)
    ensures p >= 1
  {
    if k == 0 then 1 else 10 * Pow10(k - 1)
  }

  /**
   * `n × 10^e` with the trailing zeros of `n` moved into the exponent:
   * the shortest digits of the value and their exponent; zero is `(0, 0)`.
   */
  function Shorten(n: nat, e: int): (r: (nat, int))
    ensures n == 0 <==> r == (0, 0)
    ensures n != 0 ==> r.0 % 10 != 0 && r.1 >= e
    decreases n
  {
    if n == 0 then (0, 0)
    else if n % 10 == 0 then Shorten(n / 10, e + 1)
    else (n, e)
  }

  /** The shortest digits keep the value: `n × 10^e == r.0 × 10^r.1`. */
  lemma {:induction false} ShortenKeepsValue(n: nat, e: int)
    ensures var r := Shorten(n, e); n != 0 ==> n == r.0 * Pow10(r.1 - e)
    decreases n
  {
    if n != 0 && n % 10 == 0 {
      var r := Shorten(n / 10, e + 1);
      ShortenKeepsValue(n / 10, e + 1);
      assert n == 10 * (n / 10);
      assert 10 * (r.0 * Pow10(r.1 - e - 1)) == r.0 * (10 * Pow10(r.1 - e - 1));
    }
  }

  /** `"0" * k` */
  function Zeros(k: nat): string {
    seq(k, _ => '0')
  }

  /** An exponent as `repr` writes it: its sign and at least two digits. */
  function ExponentText(x: int): string {
    (if x < 0 then "-" else "+") + (if -10 < x < 10 then "0" else "") + NatToString(if x < 0 then -x else x)
  }

  /**
   * The digits `ds` of a value `0.ds × 10^decpt`, as `repr` lays them out:
   * scientific notation when `decpt <= -4` or `decpt > 16`, otherwise
   * positional notation with at least one digit after the point.
   */
  function LayOut(ds: string, decpt: int): string
    requires |ds| >= 1
  {
    if decpt <= -4 || decpt > 16 then
      [ds[0]] + (if |ds| > 1 then "." + ds[1..] else "") + "e" + ExponentText(decpt - 1)
    else if decpt <= 0 then "0." + Zeros(-decpt) + ds
    else if decpt < |ds| then ds[..decpt] + "." + ds[decpt..]
    else ds + Zeros(decpt - |ds|) + ".0"
  }

  /** The text of a float with the given sign and shortest digits `r.0 × 10^r.1`. */
  function FloatText(negative: bool, r: (nat, int)): string {
    if r.0 == 0 then "0.0"
    else
      var ds := NatToString(r.0);
      (if negative then "-" else "") + LayOut(ds, |ds| + r.1)
  }

  /** Either notation starts with a digit and holds a `.` or an `e`. */
  lemma LayOutShape(ds: string, decpt: int)
    requires |ds| >= 1
    ensures LayOut(ds, decpt) != [] && (LayOut(ds, decpt)[0] == ds[0] || LayOut(ds, decpt)[0] == '0')
    ensures '.' in LayOut(ds, decpt) || 'e' in LayOut(ds, decpt)
  {
  }

  /** The text of a float: `0.0` for zero digits, a `-` exactly for a negative non-zero value, and a `.` or an `e`. */
  lemma FloatTextShape(negative: bool, r: (nat, int))
    ensures r.0 == 0 ==> FloatText(negative, r) == "0.0"
    ensures FloatText(negative, r) != []
    ensures r.0 != 0 ==> (FloatText(negative, r)[0] == '-' <==> negative)
    ensures '.' in FloatText(negative, r) || 'e' in FloatText(negative, r)
  {
    if r.0 != 0 {
      var ds := NatToString(r.0);
      LayOutShape(ds, |ds| + r.1);
    } else {
      assert "0.0"[1] == '.';
    }
  }

  /** `abs(x)` */
  function Abs(x: int): nat {
    if x < 0 then -x else x
  }

  /** `repr` of the float written `m × 10^e` in the JSON text: its shortest digits, laid out. */
  function FloatRepr(m: int, e: int): string {
    FloatText(m < 0, Shorten(Abs(m), e))
  }

  /** `repr` of a float: `0.0` for zero, a `-` exactly for a negative value, and always a `.` or an `e`. */
  lemma FloatReprShape(m: int, e: int)
    ensures m == 0 ==> FloatRepr(m, e) == "0.0"
    ensures FloatRepr(m, e) != [] && (m != 0 ==> (FloatRepr(m, e)[0] == '-' <==> m < 0))
    ensures '.' in FloatRepr(m, e) || 'e' in FloatRepr(m, e)
  {
    var r := Shorten(Abs(m), e);
    assert r.0 == 0 <==> m == 0;
    FloatTextShape(m < 0, r);
  }

  /** A float never prints as an int does: `1.0` is not `1`. */
  lemma FloatReprNotInt(m: int, e: int, n: int)
    ensures FloatRepr(m, e) != IntToString(n)
  {
    var t := FloatRepr(m, e);
    FloatReprShape(m, e);
    var k :| 0 <= k < |t| && (t[k] == '.' || t[k] == 'e');
    assert !(t[k] == '-' || '0' <= t[k] <= '9');
  }

  /** `m × 10^e` and `m2 × 10^e2` are the same number. */
  predicate SameValue(m: int, e: int, m2: int, e2: int) {
    if e <= e2 then m == m2 * Pow10(e2 - e) else m * Pow10(e - e2) == m2
  }

  /** Trailing zeros make no difference to the shortest digits. */
  lemma {:induction false} ShortenScaled(n: nat, e: int, t: nat)
    ensures Shorten(n * Pow10(t), e - t) == Shorten(n, e)
    decreases t
  {
    if t > 0 && n != 0 {
      var big := n * Pow10(t);
      assert big == 10 * (n * Pow10(t - 1));
      assert big % 10 == 0 && big / 10 == n * Pow10(t - 1);
      ShortenScaled(n, e, t - 1);
    }
  }

  /** Magnitudes of two numbers that differ by a power of ten. */
  lemma ScaledMagnitude(m: int, m2: int, t: nat)
    requires m == m2 * Pow10(t)
    ensures (m < 0 <==> m2 < 0) && Abs(m) == Abs(m2) * Pow10(t)
  {
    if m2 < 0 {
      assert -m == (-m2) * Pow10(t);
    }
  }

  /** Two floats with the same sign and the same shortest digits print alike. */
  lemma FloatReprSameParts(m: int, e: int, m2: int, e2: int)
    requires (m < 0) == (m2 < 0) && Shorten(Abs(m), e) == Shorten(Abs(m2), e2)
    ensures FloatRepr(m, e) == FloatRepr(m2, e2)
  {
  }

  /** Trailing zeros written in the JSON text do not change the float's `repr`. */
  lemma FloatReprScaled(m: int, e: int, t: nat)
    ensures FloatRepr(m * Pow10(t), e - t) == FloatRepr(m, e)
  {
    var big := m * Pow10(t);
    ScaledMagnitude(big, m, t);
    ShortenScaled(Abs(m), e, t);
    FloatReprSameParts(big, e - t, m, e);
  }

  /** `repr` of a float depends on its value alone, not on how the JSON text wrote it. */
  lemma FloatReprOfValue(m: int, e: int, m2: int, e2: int)
    requires SameValue(m, e, m2, e2)
    ensures FloatRepr(m, e) == FloatRepr(m2, e2)
  {
    if e <= e2 {
      var t: nat := e2 - e;
      assert m == m2 * Pow10(t);
      FloatReprScaled(m2, e2, t);
      assert e2 - t == e;
    } else {
      var t: nat := e - e2;
      assert m * Pow10(t) == m2;
      FloatReprScaled(m, e, t);
      assert e - t == e2;
    }
  }

  /** Positional notation: 0.9, 0.05 and 100.0. */
  lemma FloatReprPositional()
    ensures FloatRepr(9, -1) == "0.9"
    ensures FloatRepr(5, -2) == "0.05"
    ensures FloatRepr(1, 2) == "100.0"
  {
    assert NatToString(9) == "9" && NatToString(5) == "5" && NatToString(1) == "1";
    assert Zeros(1) == "0" && Zeros(2) == "00";
  }

  /** Positional notation with a fraction and a sign: -2.5 and 12.5. */
  lemma FloatReprFraction()
    ensures FloatRepr(-25, -1) == "-2.5"
    ensures FloatRepr(1250, -2) == "12.5"
  {
    assert NatToString(25) == "25";
    assert NatToString(125) == "125";
    assert Shorten(1250, -2) == Shorten(125, -1);
  }

  /** Scientific notation for a small value: 1e-05. */
  lemma FloatReprSmall()
    ensures FloatRepr(1, -5) == "1e-05"
  {
    assert Shorten(1, -5) == (1, -5);
    assert NatToString(1) == "1";
    assert NatToString(5) == "5";
    assert ExponentText(-5) == "-05";
  }

  /** Scientific notation with a fraction: 1.5e-07. */
  lemma FloatReprSmallFraction()
    ensures FloatRepr(15, -8) == "1.5e-07"
  {
    assert Shorten(15, -8) == (15, -8);
    assert NatToString(15) == "15";
    assert NatToString(7) == "7";
    assert ExponentText(-7) == "-07";
  }

  /** Scientific notation for a large value: 1e+16. */
  lemma FloatReprLarge()
    ensures FloatRepr(1, 16) == "1e+16"
  {
    assert Shorten(1, 16) == (1, 16);
    assert NatToString(1) == "1";
    assert NatToString(16) == "16";
    assert ExponentText(16) == "+16";
  }

  // ----- `repr` and `str` of a JSON value -----

  /** `repr(j)` of a value as `json.loads` returns it. */
  function PyRepr(j: Json): (r: string)
    ensures j == Null ==> r == "None"
    ensures j.Bool? ==> r == (if j.b then "True" else "False")
    ensures j.Int? ==> r == IntToString(j.i)
    ensures j.Float? ==> r == FloatRepr(j.m, j.e)
    ensures j.Str? ==> r == Repr(j.s)
    ensures j.Arr? ==> r != [] && r[0] == '[' && r[|r| - 1] == ']'
    ensures j.Obj? ==> r != [] && r[0] == '{' && r[|r| - 1] == '}'
    decreases j
  {
    match j
    case Null => "None"
    case Bool(b) => if b then "True" else "False"
    case Int(i) => IntToString(i)
    case Float(m, e) => FloatRepr(m, e)
    case Str(s) => Repr(s)
    case Arr(items) => "[" + Join(", ", seq(|items|, i requires 0 <= i < |items| => PyRepr(items[i]))) + "]"
    case Obj(fields) =>
      "{" + Join(", ", seq(|fields|, i requires 0 <= i < |fields| => Repr(fields[i].0) + ": " + PyRepr(fields[i].1))) + "}"
  }

  /** `str(j)` as an f-string prints it: a string as itself, anything else as its `repr`. */
  function PyStr(j: Json): (r: string)
    ensures j.Str? ==> r == j.s
    ensures !j.Str? ==> r == PyRepr(j)
  {
    if j.Str? then j.s else PyRepr(j)
  }

  /** No character of `s` needs an escape inside the quotes `q`. */
  predicate Plain(s: string, q: char) {
    forall i :: 0 <= i < |s| ==> s[i] != q && s[i] != '\\' && !HexEscaped(s[i])
  }

  /** Plain characters are written as they are. */
  lemma {:induction false} EscapePlain(s: string, q: char)
    requires Plain(s, q)
    ensures Escape(s, q) == s
  {
    if s != [] {
      assert Plain(s[1..], q) by {
        forall i | 0 <= i < |s| - 1
          ensures s[1..][i] != q && s[1..][i] != '\\' && !HexEscaped(s[1..][i])
        {
          assert s[1..][i] == s[i + 1];
        }
      }
      EscapePlain(s[1..], q);
      assert [s[0]] + s[1..] == s;
    }
  }

  /** A string without quotes, backslashes or control characters prints between single quotes. */
  lemma ReprOfPlain(s: string)
    requires Plain(s, '\'') && '"' !in s
    ensures Repr(s) == "'" + s + "'"
  {
    assert ReprQuote(s) == '\'';
    EscapePlain(s, '\'');
  }

  /** A float confidence prints with its digits: 0.9. */
  lemma PyStrFloat()
    ensures PyStr(Float(9, -1)) == "0.9"
  {
    FloatReprPositional();
  }

  /** A string holding `'` is quoted with `"`: "it's". */
  lemma ReprApostrophe()
    ensures Repr("it's") == "\"it's\""
  {
    assert ReprQuote("it's") == '"';
    EscapePlain("it's", '"');
  }

  /** A tab is escaped: 'a\tb'. */
  lemma ReprTab()
    ensures Repr("a\tb") == "'a\\tb'"
  {
    assert ReprQuote("a\tb") == '\'';
    assert Escape("b", '\'') == "b";
    assert Escape("\tb", '\'') == "\\t" + "b";
    assert Escape("a\tb", '\'') == "a" + "\\tb";
  }

  /** A list prints its items' `repr`s between brackets: `[1, 'a']`. */
  lemma PyReprList()
    ensures PyRepr(Arr([Int(1), Str("a")])) == "[1, 'a']"
  {
    assert NatToString(1) == "1";
    ReprOfPlain("a");
    var parts := seq(2, i requires 0 <= i < 2 => PyRepr([Int(1), Str("a")][i]));
    assert "'" + "a" + "'" == "'a'";
    assert parts[0] == PyRepr(Int(1)) == "1";
    assert parts[1] == PyRepr(Str("a")) == "'a'";
    assert parts == ["1", "'a'"];
    assert "1" + ", " + "'a'" == "1, 'a'";
    assert Join(", ", parts) == "1, 'a'";
  }

  /** A dict prints `key: value` pairs between braces: `{'k': None}`. */
  lemma PyReprDict()
    ensures PyRepr(Obj([("k", Null)])) == "{'k': None}"
  {
    ReprOfPlain("k");
    var fs := [("k", Null)];
    var parts := seq(1, i requires 0 <= i < 1 => Repr(fs[i].0) + ": " + PyRepr(fs[i].1));
    assert "'" + "k" + "'" + ": " + "None" == "'k': None";
    assert parts[0] == Repr("k") + ": " + PyRepr(Null) == "'k': None";
    assert parts == ["'k': None"];
    assert "{" + "'k': None" + "}" == "{'k': None}";
  }
}
