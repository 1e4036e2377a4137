/**
 * The trial-signal records: an evidence item, a signal and the output of a
 * generator, together with the dict form `model_dump` gives them and the
 * validation `model_validate` applies when one is read back from a dict.
 *
 * Names, levels, the mode and the version are kept as strings so that the
 * output validator can be stated over any record; `WellFormed` says which
 * values the pydantic `Literal` types admit.
 */
module TrialTypes {
  import opened Outcomes
  import opened JsonValues
  import opened Text
  import PyFormat

  /** `EvidenceAnchor(modality="text", start_char, end_char)`: the modality is always "text". */
  datatype TrialAnchor = TrialAnchor(startChar: int, endChar: int)

  /** `Literal["text", "structuring"]` */
  datatype EvidenceOrigin = FromText | FromStructuring
  {
    function Value(): string {
      match this
      case FromText => "text"
      case FromStructuring => "structuring"
    }
  }

  /** `TrialSignalEvidenceV0` */
  datatype TrialEvidence = TrialEvidence(
    span: string,
    anchor: Option<TrialAnchor>,
    source: EvidenceOrigin,
    sourceField: Option<string>)

  /** `TrialSignalV0` */
  datatype TrialSignal = TrialSignal(name: string, level: string, reasonCodes: seq<string>, evidence: seq<TrialEvidence>)

  /** `TrialSignalsOutputV0` */
  datatype TrialOutput = TrialOutput(mode: string, version: string, summary: string, signals: seq<TrialSignal>)

  const TextNames: set<string> := {"repetition", "threat", "refusal"}
  const EvidenceNames: set<string> := {"evidence_strength", "clarity", "safety"}

  /** The text levels: insufficient, warning, sufficient. */
  const Insufficient := "부족"
  const Warning := "경고"
  const Sufficient := "충분"
  /** The evidence levels: danger, warning, safe. */
  const Danger := "위험"
  const Safe := "안전"

  const TextLevels: set<string> := {Insufficient, Warning, Sufficient}
  const EvidenceLevels: set<string> := {Danger, Warning, Safe}

  /** The values the `Literal` fields of the models admit. */
  predicate WellFormedSignal(s: TrialSignal) {
    s.name in TextNames + EvidenceNames && s.level in TextLevels + EvidenceLevels
  }

  predicate WellFormed(o: TrialOutput) {
    && (o.mode == "text" || o.mode == "evidence")
    && o.version == "v0"
    && forall i :: 0 <= i < |o.signals| ==> WellFormedSignal(o.signals[i])
  }

  // ----- model_dump -----

  function DumpAnchor(a: Option<TrialAnchor>): Json {
    match a
    case None => Null
    case Some(x) => Obj([("modality", Str("text")), ("start_char", Int(x.startChar)), ("end_char", Int(x.endChar))])
  }

  function DumpEvidence(e: TrialEvidence): Json {
    Obj([("evidence_span", Str(e.span)),
         ("evidence_anchor", DumpAnchor(e.anchor)),
         ("source", Str(e.source.Value())),
         ("source_field", if e.sourceField.Some? then Str(e.sourceField.value) else Null)])
  }

  function DumpEvidenceList(es: seq<TrialEvidence>): seq<Json> {
    if es == [] then [] else [DumpEvidence(es[0])] + DumpEvidenceList(es[1..])
  }

  function DumpStrings(ss: seq<string>): seq<Json> {
    if ss == [] then [] else [Str(ss[0])] + DumpStrings(ss[1..])
  }

  function DumpSignal(s: TrialSignal): Json {
    Obj([("name", Str(s.name)),
         ("level", Str(s.level)),
         ("reason_codes", Arr(DumpStrings(s.reasonCodes))),
         ("evidence", Arr(DumpEvidenceList(s.evidence)))])
  }

  function DumpSignals(ss: seq<TrialSignal>): seq<Json> {
    if ss == [] then [] else [DumpSignal(ss[0])] + DumpSignals(ss[1..])
  }

  /** `output.model_dump()` */
  function Dump(o: TrialOutput): Json {
    Obj([("mode", Str(o.mode)),
         ("version", Str(o.version)),
         ("summary", Str(o.summary)),
         ("signals", Arr(DumpSignals(o.signals)))])
  }

  // ----- model_validate -----

  /** A required `str` field; absent or of another type is a validation error. */
  function ReadStr(fs: Fields, key: string): (r: Outcome<string>)
    ensures r.Ok? <==> HasKey(fs, key) && Get(fs, key).Str?
    ensures r.Ok? ==> r.value == Get(fs, key).s
    ensures r.Raise? ==> r.exc == ValidationError
  {
    if HasKey(fs, key) && Get(fs, key).Str? then Ok(Get(fs, key).s) else Raise(ValidationError)
  }

  /** A required `Literal[…]` field. */
  function ReadLiteral(fs: Fields, key: string, allowed: set<string>): (r: Outcome<string>)
    ensures r.Ok? <==> HasKey(fs, key) && Get(fs, key).Str? && Get(fs, key).s in allowed
    ensures r.Ok? ==> r.value == Get(fs, key).s
    ensures r.Raise? ==> r.exc == ValidationError
  {
    var s :- ReadStr(fs, key);
    if s in allowed then Ok(s) else Raise(ValidationError)
  }

  // ----- pydantic's lax `int` -----

  predicate IsDigits(s: string) {
    |s| >= 1 && forall i :: 0 <= i < |s| ==> '0' <= s[i] <= '9'
  }

  /** The value of a run of decimal digits. */
  function DigitsValue(s: string): nat
    requires forall i :: 0 <= i < |s| ==> '0' <= s[i] <= '9'
    decreases |s|
  {
    if s == [] then 0 else DigitsValue(s[..|s| - 1]) * 10 + (s[|s| - 1] as int - '0' as int)
  }

  /** The index of the first `.` in `t` from `k` on, or `|t|`. */
  function DotFrom(t: string, k: nat): (i: nat)
    requires k <= |t|
    ensures k <= i <= |t|
    ensures i < |t| ==> t[i] == '.'
    ensures forall j :: k <= j < i ==> t[j] != '.'
    decreases |t| - k
  {
    if k == |t| || t[k] == '.' then k else DotFrom(t, k + 1)
  }

  /** `"12.000"` without its fraction of zeros; any other text unchanged. */
  function DropZeroFraction(t: string): (r: string)
    ensures |r| <= |t|
    ensures '.' !in t ==> r == t
  {
    var i := DotFrom(t, 0);
    if i < |t| && forall k :: i < k < |t| ==> t[k] == '0' then t[..i] else t
  }

  /**
   * A string read as an `int`: surrounding whitespace removed, an optional
   * sign, decimal digits, and optionally a `.` followed only by zeros.
   */
  function ParseIntText(s: string): (r: Option<int>)
  {
    var t := DropZeroFraction(Strip(s));
    var signed := |t| > 0 && (t[0] == '-' || t[0] == '+');
    var body := if signed then t[1..] else t;
    if IsDigits(body) then
      var v: int := DigitsValue(body);
      Some(if signed && t[0] == '-' then -v else v)
    else None
  }

  /**
   * The `int` pydantic's default (lax) mode reads from a JSON value: an
   * integer, a boolean as 0 or 1, a float with no fractional part, or a
   * string holding an integer; anything else is a validation error.
   */
  function LaxInt(j: Json): (r: Option<int>)
    ensures j.Int? ==> r == Some(j.i)
    ensures j.Bool? ==> r == Some(if j.b then 1 else 0)
    ensures j.Null? || j.Arr? || j.Obj? ==> r == None
    ensures j.Str? ==> r == ParseIntText(j.s)
  {
    match j
    case Int(i) => Some(i)
    case Bool(b) => Some(if b then 1 else 0)
    case Float(m, e) =>
      if e >= 0 then Some(m * PyFormat.Pow10(e))
      else if m % PyFormat.Pow10(-e) == 0 then Some(m / PyFormat.Pow10(-e))
      else None
    case Str(s) => ParseIntText(s)
    case _ => None
  }

  /** A multiple of `p` divides exactly. */
  lemma MultipleDivides(n: int, p: int)
    requires p > 0
    ensures (n * p) % p == 0 && (n * p) / p == n
  {
    var q := (n * p) / p;
    var r := (n * p) % p;
    assert n * p == q * p + r;
    assert (n - q) * p == r;
    MultipleSign(n - q, p);
  }

  /** A non-zero multiple of `p` is at least `p` away from zero. */
  lemma MultipleSign(d: int, p: int)
    requires p > 0
    ensures d >= 1 ==> d * p >= p
    ensures d <= -1 ==> d * p <= -p
  {
  }

  /** A float with no fractional part is read as the integer of the same value. */
  lemma LaxIntWholeFloat(m: int, e: int)
    requires LaxInt(Float(m, e)).Some?
    ensures PyFormat.SameValue(LaxInt(Float(m, e)).value, 0, m, e)
  {
    if e < 0 {
      var p := PyFormat.Pow10(-e);
      assert m % p == 0;
      assert m == (m / p) * p + m % p;
    }
  }

  /** A float with a fractional part is refused: no integer has its value. */
  lemma LaxIntFractionFloat(m: int, e: int)
    requires LaxInt(Float(m, e)).None?
    ensures forall n: int :: !PyFormat.SameValue(n, 0, m, e)
  {
    var p := PyFormat.Pow10(-e);
    assert e < 0 && m % p != 0;
    forall n: int
      ensures !PyFormat.SameValue(n, 0, m, e)
    {
      MultipleDivides(n, p);
    }
  }

  /** Decimal digits read back as the number they write. */
  lemma {:induction false} DigitsValueOfNat(n: nat)
    ensures DigitsValue(NatToString(n)) == n
    decreases n
  {
    if n >= 10 {
      var s := NatToString(n);
      DigitsValueOfNat(n / 10);
      assert s[..|s| - 1] == NatToString(n / 10);
    }
  }

  /** A string without whitespace at either end is its own strip. */
  lemma StripUnspaced(s: string)
    requires s != [] && !IsSpace(s[0]) && !IsSpace(s[|s| - 1])
    ensures Strip(s) == s
  {
    var lo := LeadingSpaces(s, 0);
    assert lo == 0;
    var hi := TrailingEnd(s, lo, |s|);
    assert hi == |s|;
  }

  /** `str(n)` is read back as `n`. */
  lemma ParseIntOfText(n: int)
    ensures ParseIntText(IntToString(n)) == Some(n)
  {
    var t := IntToString(n);
    var digits := NatToString(if n < 0 then -n else n);
    assert t[0] == '-' || '0' <= t[0] <= '9';
    assert '0' <= t[|t| - 1] <= '9';
    StripUnspaced(t);
    assert '.' !in t;
    DigitsValueOfNat(if n < 0 then -n else n);
    if n < 0 {
      assert t[1..] == digits;
    }
  }

  /** Surrounding whitespace is removed: `" 42 "` reads as 42. */
  lemma ParseIntSpaced()
    ensures ParseIntText(" 42 ") == Some(42)
  {
    assert LeadingSpaces(" 42 ", 0) == 1;
    assert TrailingEnd(" 42 ", 1, 4) == 3;
    assert Strip(" 42 ") == "42";
    assert DigitsValue("42") == 42;
  }

  /** A sign is read: `"-7"` reads as -7. */
  lemma ParseIntSigned()
    ensures ParseIntText("-7") == Some(-7)
  {
    StripUnspaced("-7");
    assert '.' !in "-7";
    assert "-7"[1..] == "7";
    assert DigitsValue("7") == 7;
  }

  /** A fraction of zeros is dropped: `"5.00"` reads as 5. */
  lemma ParseIntZeroFraction()
    ensures ParseIntText("5.00") == Some(5)
  {
    StripUnspaced("5.00");
    assert DotFrom("5.00", 0) == 1;
    assert DropZeroFraction("5.00") == "5";
  }

  /** Any other fraction is refused: `"5.5"` is not an `int`. */
  lemma ParseIntFraction()
    ensures ParseIntText("5.5") == None
  {
    StripUnspaced("5.5");
    assert DotFrom("5.5", 0) == 1;
    assert "5.5"[2] != '0';
    assert DropZeroFraction("5.5") == "5.5";
    assert !IsDigits("5.5") by {
      assert "5.5"[1] == '.';
    }
  }

  /** An `int` field, read as pydantic's lax mode reads it. */
  function ReadInt(fs: Fields, key: string): (r: Outcome<int>)
    ensures r.Raise? ==> r.exc == ValidationError
    ensures r.Ok? <==> HasKey(fs, key) && LaxInt(Get(fs, key)).Some?
    ensures r.Ok? ==> r.value == LaxInt(Get(fs, key)).value
  {
    if HasKey(fs, key) && LaxInt(Get(fs, key)).Some? then Ok(LaxInt(Get(fs, key)).value) else Raise(ValidationError)
  }

  /** `Optional[EvidenceAnchor]`: `None`, or a dict with modality "text" and two values read as `int`s. */
  function ReadAnchor(j: Json): (r: Outcome<Option<TrialAnchor>>)
    ensures j == Null ==> r == Ok(None)
    ensures r.Ok? && r.value.Some? <==>
      && j.Obj? && Get(j.fields, "modality") == Str("text")
      && HasKey(j.fields, "start_char") && LaxInt(Get(j.fields, "start_char")).Some?
      && HasKey(j.fields, "end_char") && LaxInt(Get(j.fields, "end_char")).Some?
    ensures r.Ok? && r.value.Some? ==>
      r.value.value == TrialAnchor(LaxInt(Get(j.fields, "start_char")).value, LaxInt(Get(j.fields, "end_char")).value)
    ensures r.Raise? ==> r.exc == ValidationError
  {
    match j
    case Null => Ok(None)
    case Obj(fs) =>
      var modality :- ReadLiteral(fs, "modality", {"text"});
      var start :- ReadInt(fs, "start_char");
      var end :- ReadInt(fs, "end_char");
      Ok(Some(TrialAnchor(start, end)))
    case _ => Raise(ValidationError)
  }

  /** Bounds written `5.0` and `"7"` are coerced as pydantic coerces them. */
  lemma CoercedAnchorBounds()
    ensures ReadAnchor(Obj([("modality", Str("text")), ("start_char", Float(50, -1)), ("end_char", Str("7"))]))
      == Ok(Some(TrialAnchor(5, 7)))
  {
    var fs := [("modality", Str("text")), ("start_char", Float(50, -1)), ("end_char", Str("7"))];
    assert fs[0].0[0] == 'm' && fs[1].0[0] == 's' && fs[2].0[0] == 'e';
    assert IndexOf(fs, "modality") == 0;
    assert IndexOf(fs, "start_char") == 1;
    assert IndexOf(fs, "end_char") == 2;
    LaxIntWholeFive();
    ParseIntSeven();
    assert Get(fs, "start_char") == Float(50, -1);
    assert Get(fs, "end_char") == Str("7");
  }

  /** `5.0`, written `Float(50, -1)`, reads as 5. */
  lemma LaxIntWholeFive()
    ensures LaxInt(Float(50, -1)) == Some(5)
  {
    assert PyFormat.Pow10(1) == 10;
  }

  /** `"7"` reads as 7. */
  lemma ParseIntSeven()
    ensures ParseIntText("7") == Some(7)
  {
    StripUnspaced("7");
    assert '.' !in "7";
    assert DigitsValue("7") == 7;
  }

  /** A bound with a fractional part, such as `5.5`, is refused. */
  lemma FractionalAnchorBoundRefused()
    ensures ReadAnchor(Obj([("modality", Str("text")), ("start_char", Float(55, -1)), ("end_char", Int(7))]))
      == Raise(ValidationError)
  {
    var gs := [("modality", Str("text")), ("start_char", Float(55, -1)), ("end_char", Int(7))];
    assert gs[0].0[0] == 'm' && gs[1].0[0] == 's';
    assert IndexOf(gs, "modality") == 0;
    assert IndexOf(gs, "start_char") == 1;
    assert LaxInt(Float(55, -1)) == None;
  }

  function ReadOrigin(fs: Fields): (r: Outcome<EvidenceOrigin>)
    ensures r.Raise? ==> r.exc == ValidationError
    ensures r.Ok? ==> Get(fs, "source") == Str(r.value.Value())
  {
    var s :- ReadLiteral(fs, "source", {"text", "structuring"});
    Ok(if s == "text" then FromText else FromStructuring)
  }

  /** `source_field: Optional[str] = None` */
  function ReadOptionalStr(fs: Fields, key: string): (r: Outcome<Option<string>>)
    ensures r.Raise? ==> r.exc == ValidationError
    ensures !HasKey(fs, key) || Get(fs, key) == Null ==> r == Ok(None)
    ensures r.Ok? && r.value.Some? ==> Get(fs, key) == Str(r.value.value)
  {
    var v := Get(fs, key);
    if v == Null then Ok(None)
    else if v.Str? then Ok(Some(v.s))
    else Raise(ValidationError)
  }

  function ReadEvidence(j: Json): (r: Outcome<TrialEvidence>)
    ensures r.Raise? ==> r.exc == ValidationError
  {
    if !j.Obj? then Raise(ValidationError)
    else
      var span :- ReadStr(j.fields, "evidence_span");
      var anchor :- ReadAnchor(Get(j.fields, "evidence_anchor"));
      var source :- ReadOrigin(j.fields);
      var field :- ReadOptionalStr(j.fields, "source_field");
      Ok(TrialEvidence(span, anchor, source, field))
  }

  function ReadEvidenceList(items: seq<Json>): (r: Outcome<seq<TrialEvidence>>)
    ensures r.Raise? ==> r.exc == ValidationError
  {
    if items == [] then Ok([])
    else
      var e :- ReadEvidence(items[0]);
      var rest :- ReadEvidenceList(items[1..]);
      Ok([e] + rest)
  }

  function ReadStrings(items: seq<Json>): (r: Outcome<seq<string>>)
    ensures r.Raise? ==> r.exc == ValidationError
  {
    if items == [] then Ok([])
    else if !items[0].Str? then Raise(ValidationError)
    else
      var rest :- ReadStrings(items[1..]);
      Ok([items[0].s] + rest)
  }

  function ReadSignal(j: Json): (r: Outcome<TrialSignal>)
    ensures r.Raise? ==> r.exc == ValidationError
  {
    if !j.Obj? then Raise(ValidationError)
    else
      var fs := j.fields;
      var name :- ReadLiteral(fs, "name", TextNames + EvidenceNames);
      var level :- ReadLiteral(fs, "level", TextLevels + EvidenceLevels);
      if !HasKey(fs, "reason_codes") || !Get(fs, "reason_codes").Arr? then Raise(ValidationError)
      else if !HasKey(fs, "evidence") || !Get(fs, "evidence").Arr? then Raise(ValidationError)
      else
        var codes :- ReadStrings(Get(fs, "reason_codes").items);
        var evidence :- ReadEvidenceList(Get(fs, "evidence").items);
        Ok(TrialSignal(name, level, codes, evidence))
  }

  function ReadSignals(items: seq<Json>): (r: Outcome<seq<TrialSignal>>)
    ensures r.Raise? ==> r.exc == ValidationError
  {
    if items == [] then Ok([])
    else
      var s :- ReadSignal(items[0]);
      var rest :- ReadSignals(items[1..]);
      Ok([s] + rest)
  }

  /** `TrialSignalsOutputV0.model_validate(d)`: extra keys are ignored. */
  function Validate(j: Json): (r: Outcome<TrialOutput>)
    ensures r.Raise? ==> r.exc == ValidationError
    ensures r.Ok? ==> r.value.version == "v0" && (r.value.mode == "text" || r.value.mode == "evidence")
  {
    if !j.Obj? then Raise(ValidationError)
    else
      var fs := j.fields;
      var mode :- ReadLiteral(fs, "mode", {"text", "evidence"});
      var version :- ReadLiteral(fs, "version", {"v0"});
      var summary :- ReadStr(fs, "summary");
      if !HasKey(fs, "signals") || !Get(fs, "signals").Arr? then Raise(ValidationError)
      else
        var signals :- ReadSignals(Get(fs, "signals").items);
        Ok(TrialOutput(mode, version, summary, signals))
  }

  // ----- round trip -----

  lemma AnchorRoundTrip(a: Option<TrialAnchor>)
    ensures ReadAnchor(DumpAnchor(a)) == Ok(a)
  {
    if a.Some? {
      var fs := [("modality", Str("text")), ("start_char", Int(a.value.startChar)), ("end_char", Int(a.value.endChar))];
      assert fs[0].0[0] == 'm' && fs[1].0[0] == 's' && fs[2].0[0] == 'e';
      assert IndexOf(fs, "modality") == 0;
      assert IndexOf(fs, "start_char") == 1;
      assert IndexOf(fs, "end_char") == 2;
    }
  }

  lemma EvidenceRoundTrip(e: TrialEvidence)
    ensures ReadEvidence(DumpEvidence(e)) == Ok(e)
  {
    EvidenceFieldsRead(e);
    AnchorRoundTrip(e.anchor);
  }

  /** Each field of a dumped evidence item reads back as the item's own value. */
  lemma EvidenceFieldsRead(e: TrialEvidence)
    ensures var fs := DumpEvidence(e).fields;
      && ReadStr(fs, "evidence_span") == Ok(e.span)
      && Get(fs, "evidence_anchor") == DumpAnchor(e.anchor)
      && ReadOrigin(fs) == Ok(e.source)
      && ReadOptionalStr(fs, "source_field") == Ok(e.sourceField)
  {
    var fs := DumpEvidence(e).fields;
    EvidenceKeys(fs);
    assert Get(fs, "source") == Str(e.source.Value());
  }

  /** Where the keys of a dumped evidence item are. */
  lemma EvidenceKeys(fs: Fields)
    requires |fs| == 4
    requires fs[0].0 == "evidence_span" && fs[1].0 == "evidence_anchor" && fs[2].0 == "source" && fs[3].0 == "source_field"
    ensures IndexOf(fs, "evidence_span") == 0 && IndexOf(fs, "evidence_anchor") == 1
    ensures IndexOf(fs, "source") == 2 && IndexOf(fs, "source_field") == 3
  {
    assert |fs[0].0| == 13 && |fs[1].0| == 15 && |fs[2].0| == 6 && |fs[3].0| == 12;
    IndexOfFirst(fs, "evidence_span", 0);
    IndexOfFirst(fs, "evidence_anchor", 1);
    IndexOfFirst(fs, "source", 2);
    IndexOfFirst(fs, "source_field", 3);
  }

  lemma {:induction false} EvidenceListRoundTrip(es: seq<TrialEvidence>)
    ensures ReadEvidenceList(DumpEvidenceList(es)) == Ok(es)
  {
    if es != [] {
      var d := DumpEvidenceList(es);
      assert d[0] == DumpEvidence(es[0]) && d[1..] == DumpEvidenceList(es[1..]);
      EvidenceRoundTrip(es[0]);
      EvidenceListRoundTrip(es[1..]);
      assert ReadEvidence(d[0]) == Ok(es[0]) && ReadEvidenceList(d[1..]) == Ok(es[1..]);
      assert [es[0]] + es[1..] == es;
    }
  }

  lemma {:induction false} StringsRoundTrip(ss: seq<string>)
    ensures ReadStrings(DumpStrings(ss)) == Ok(ss)
  {
    if ss != [] {
      var d := DumpStrings(ss);
      assert d[0] == Str(ss[0]) && d[1..] == DumpStrings(ss[1..]);
      StringsRoundTrip(ss[1..]);
      assert [ss[0]] + ss[1..] == ss;
    }
  }

  lemma SignalRoundTrip(s: TrialSignal)
    requires WellFormedSignal(s)
    ensures ReadSignal(DumpSignal(s)) == Ok(s)
  {
    SignalFieldsRead(s);
    StringsRoundTrip(s.reasonCodes);
    EvidenceListRoundTrip(s.evidence);
  }

  /** Each field of a dumped signal reads back as the signal's own value. */
  lemma SignalFieldsRead(s: TrialSignal)
    requires WellFormedSignal(s)
    ensures var fs := DumpSignal(s).fields;
      && ReadLiteral(fs, "name", TextNames + EvidenceNames) == Ok(s.name)
      && ReadLiteral(fs, "level", TextLevels + EvidenceLevels) == Ok(s.level)
      && HasKey(fs, "reason_codes") && Get(fs, "reason_codes") == Arr(DumpStrings(s.reasonCodes))
      && HasKey(fs, "evidence") && Get(fs, "evidence") == Arr(DumpEvidenceList(s.evidence))
  {
    SignalKeys(DumpSignal(s).fields);
  }

  /** Where the keys of a dumped signal are. */
  lemma SignalKeys(fs: Fields)
    requires |fs| == 4
    requires fs[0].0 == "name" && fs[1].0 == "level" && fs[2].0 == "reason_codes" && fs[3].0 == "evidence"
    ensures IndexOf(fs, "name") == 0 && IndexOf(fs, "level") == 1
    ensures IndexOf(fs, "reason_codes") == 2 && IndexOf(fs, "evidence") == 3
  {
    assert |fs[0].0| == 4 && |fs[1].0| == 5 && |fs[2].0| == 12 && |fs[3].0| == 8;
    IndexOfFirst(fs, "name", 0);
    IndexOfFirst(fs, "level", 1);
    IndexOfFirst(fs, "reason_codes", 2);
    IndexOfFirst(fs, "evidence", 3);
  }

  lemma {:induction false} SignalsRoundTrip(ss: seq<TrialSignal>)
    requires forall i :: 0 <= i < |ss| ==> WellFormedSignal(ss[i])
    ensures ReadSignals(DumpSignals(ss)) == Ok(ss)
  {
    if ss != [] {
      var d := DumpSignals(ss);
      assert d[0] == DumpSignal(ss[0]) && d[1..] == DumpSignals(ss[1..]);
      SignalRoundTrip(ss[0]);
      SignalsRoundTrip(ss[1..]);
      assert ReadSignal(d[0]) == Ok(ss[0]) && ReadSignals(d[1..]) == Ok(ss[1..]);
      assert [ss[0]] + ss[1..] == ss;
    }
  }

  /** Reading back what `model_dump` wrote gives the same record. */
  lemma {:induction false} DumpValidateRoundTrip(o: TrialOutput)
    requires WellFormed(o)
    ensures Validate(Dump(o)) == Ok(o)
  {
    var fs := Dump(o).fields;
    OutputKeys(fs);
    assert Get(fs, "mode") == Str(o.mode) && Get(fs, "version") == Str(o.version);
    assert Get(fs, "summary") == Str(o.summary);
    assert Get(fs, "signals") == Arr(DumpSignals(o.signals));
    SignalsRoundTrip(o.signals);
  }

  /** Where the keys of a dumped output are. */
  lemma OutputKeys(fs: Fields)
    requires |fs| == 4
    requires fs[0].0 == "mode" && fs[1].0 == "version" && fs[2].0 == "summary" && fs[3].0 == "signals"
    ensures IndexOf(fs, "mode") == 0 && IndexOf(fs, "version") == 1
    ensures IndexOf(fs, "summary") == 2 && IndexOf(fs, "signals") == 3
  {
    assert |fs[0].0| == 4 && fs[1].0[0] == 'v' && fs[2].0[1] == 'u' && fs[3].0[1] == 'i';
    IndexOfFirst(fs, "mode", 0);
    IndexOfFirst(fs, "version", 1);
    IndexOfFirst(fs, "summary", 2);
    IndexOfFirst(fs, "signals", 3);
  }
}
