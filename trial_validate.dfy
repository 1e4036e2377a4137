/**
 * `validate_trial_signals_output_v0`: the meta-validation of a trial
 * output.  It never fails; every problem it finds is a message and makes
 * the status WARN.
 */
module TrialValidation {
  import opened Outcomes
  import opened ValidatorResult
  import opened TrialTypes
  import opened PyFormat

  // ----- message texts -----

  const FormatText := "reason_code must match ^[TEWP]_[A-Z0-9_]+$: "
  const EmptyCodesText := "reason_codes must be non-empty"
  const MaxEvidenceText := "evidence list must be <= 3"
  const TextSetText := "text mode must contain exactly repetition/threat/refusal"
  const EvidenceSetText := "evidence mode must contain exactly evidence_strength/clarity/safety"
  const VersionText := "unexpected version: "
  const ModeText := "unexpected mode: "

  // ----- reason code format -----

  /** A character of `[A-Z0-9_]`. */
  predicate CodeChar(c: char) {
    ('A' <= c <= 'Z') || ('0' <= c <= '9') || c == '_'
  }

  /**
   * `re.match(r"^[TEWP]_[A-Z0-9_]+$", rc)`.  Python's `$` also matches just
   * before a newline that ends the string, so one trailing newline is
   * allowed.
   */
  predicate ReasonCodeOk(rc: string) {
    var core := if |rc| > 0 && rc[|rc| - 1] == '\n' then rc[..|rc| - 1] else rc;
    && |core| >= 3 && core[0] in "TEWP" && core[1] == '_'
    && forall k :: 2 <= k < |core| ==> CodeChar(core[k])
  }

  function Field(name: string, attribute: string): Option<string> {
    Some("signals[" + name + "]." + attribute)
  }

  /** One W_REASON_CODE_FORMAT message per malformed code, in order (lines 57-65). */
  function FormatMessages(name: string, codes: seq<string>): seq<Message>
    decreases |codes|
  {
    if codes == [] then []
    else
      var last := codes[|codes| - 1];
      FormatMessages(name, codes[..|codes| - 1])
        + (if ReasonCodeOk(last) then []
           else [Message("W_REASON_CODE_FORMAT", FormatText + Repr(last),
                         Field(name, "reason_codes"))])
  }

  // ----- per mode -----

  predicate KnownMode(mode: string) {
    mode == "text" || mode == "evidence"
  }

  function ModeNames(mode: string): set<string> {
    if mode == "text" then TextNames else EvidenceNames
  }

  function ModeLevels(mode: string): set<string> {
    if mode == "text" then TextLevels else EvidenceLevels
  }

  /** The messages about one signal: its reason codes, its level and, in evidence mode, its evidence count. */
  function SignalMessages(s: TrialSignal, mode: string): seq<Message> {
    (if s.reasonCodes == [] then
       [Message("E_REASON_CODES_EMPTY", EmptyCodesText, Field(s.name, "reason_codes"))]
     else FormatMessages(s.name, s.reasonCodes))
    + (if s.level in ModeLevels(mode) then []
       else [Message("E_LEVEL", "invalid " + mode + " level: " + s.level, Field(s.name, "level"))])
    + (if mode == "evidence" && |s.evidence| > 3 then
         [Message("E_MAX_EVIDENCE", MaxEvidenceText, Field(s.name, "evidence"))]
       else [])
  }

  /** The messages about each signal. */
  function PartsOf(ss: seq<TrialSignal>, mode: string): (r: seq<seq<Message>>)
    ensures |r| == |ss|
    decreases |ss|
  {
    if ss == [] then [] else PartsOf(ss[..|ss| - 1], mode) + [SignalMessages(ss[|ss| - 1], mode)]
  }

  lemma {:induction false} PartsOfAt(ss: seq<TrialSignal>, mode: string, i: nat)
    requires i < |ss|
    ensures PartsOf(ss, mode)[i] == SignalMessages(ss[i], mode)
    decreases |ss|
  {
    if i < |ss| - 1 {
      PartsOfAt(ss[..|ss| - 1], mode, i);
    }
  }

  /** The parts one after the other. */
  function Flatten(parts: seq<seq<Message>>): seq<Message>
    decreases |parts|
  {
    if parts == [] then [] else Flatten(parts[..|parts| - 1]) + parts[|parts| - 1]
  }

  /** The messages about the signals, signal by signal. */
  function SignalsMessages(ss: seq<TrialSignal>, mode: string): seq<Message> {
    Flatten(PartsOf(ss, mode))
  }

  /** `set(names)` */
  function NamesOf(ss: seq<TrialSignal>): set<string>
    decreases |ss|
  {
    if ss == [] then {} else NamesOf(ss[..|ss| - 1]) + {ss[|ss| - 1].name}
  }

  function SignalSetMessage(mode: string): Message {
    Message("E_SIGNAL_SET",
            if mode == "text" then TextSetText
            else EvidenceSetText,
            Some("signals"))
  }

  function ModeMessages(o: TrialOutput): seq<Message> {
    if KnownMode(o.mode) then
      (if NamesOf(o.signals) != ModeNames(o.mode) then [SignalSetMessage(o.mode)] else [])
      + SignalsMessages(o.signals, o.mode)
    else [Message("E_MODE", ModeText + o.mode, Some("mode"))]
  }

  function VersionMessages(o: TrialOutput): seq<Message> {
    if o.version != "v0" then [Message("E_VERSION", VersionText + o.version, Some("version"))] else []
  }

  /** What `validate_trial_signals_output_v0(output=o)` returns. */
  function TrialValidationOf(o: TrialOutput): (r: RunnerResult)
    ensures r.status != Fail
    ensures r.status == Pass <==> r.messages == []
  {
    var messages := VersionMessages(o) + ModeMessages(o);
    RunnerResult(if messages == [] then Pass else Warn, messages)
  }

  // ----- the validator -----

  /** The reason-code loop of one signal. */
  method CheckReasonCodes(name: string, codes: seq<string>) returns (messages: seq<Message>)
    ensures messages == FormatMessages(name, codes)
  {
    messages := [];
    var j := 0;
    while j < |codes|
      invariant 0 <= j <= |codes|
      invariant messages == FormatMessages(name, codes[..j])
    {
      assert codes[..j + 1][..j] == codes[..j];
      if !ReasonCodeOk(codes[j]) {
        messages := messages + [Message("W_REASON_CODE_FORMAT", FormatText + Repr(codes[j]),
                                        Field(name, "reason_codes"))];
      }
      j := j + 1;
    }
    assert codes[..j] == codes;
  }

  /** The body of the signal loop, for one signal. */
  method CheckSignal(s: TrialSignal, mode: string) returns (messages: seq<Message>)
    ensures messages == SignalMessages(s, mode)
  {
    if s.reasonCodes == [] {
      messages := [Message("E_REASON_CODES_EMPTY", EmptyCodesText, Field(s.name, "reason_codes"))];
    } else {
      messages := CheckReasonCodes(s.name, s.reasonCodes);
    }
    if s.level !in ModeLevels(mode) {
      messages := messages + [Message("E_LEVEL", "invalid " + mode + " level: " + s.level, Field(s.name, "level"))];
    }
    if mode == "evidence" && |s.evidence| > 3 {
      messages := messages + [Message("E_MAX_EVIDENCE", MaxEvidenceText, Field(s.name, "evidence"))];
    }
  }

  /** The signal loop. */
  method CheckSignals(signals: seq<TrialSignal>, mode: string) returns (messages: seq<Message>)
    ensures messages == SignalsMessages(signals, mode)
  {
    messages := [];
    var i := 0;
    while i < |signals|
      invariant 0 <= i <= |signals|
      invariant messages == SignalsMessages(signals[..i], mode)
    {
      assert signals[..i + 1][..i] == signals[..i];
      var parts := PartsOf(signals[..i + 1], mode);
      assert parts[..i] == PartsOf(signals[..i], mode);
      var forSignal := CheckSignal(signals[i], mode);
      messages := messages + forSignal;
      i := i + 1;
    }
    assert signals[..i] == signals;
  }

  /** `set(_iter_signal_names(output))` */
  method CollectNames(signals: seq<TrialSignal>) returns (names: set<string>)
    ensures names == NamesOf(signals)
  {
    names := {};
    var i := 0;
    while i < |signals|
      invariant 0 <= i <= |signals|
      invariant names == NamesOf(signals[..i])
    {
      assert signals[..i + 1][..i] == signals[..i];
      names := names + {signals[i].name};
      i := i + 1;
    }
    assert signals[..i] == signals;
  }

  /** `validate_trial_signals_output_v0(output=output)` */
  method ValidateTrialSignalsOutput(output: TrialOutput) returns (r: RunnerResult)
    ensures r == TrialValidationOf(output)
  {
    var messages: seq<Message> := [];
    if output.version != "v0" {
      messages := messages + [Message("E_VERSION", VersionText + output.version, Some("version"))];
    }
    assert messages == VersionMessages(output);
    var mode := output.mode;
    if mode == "text" || mode == "evidence" {
      var names := CollectNames(output.signals);
      var setMessages: seq<Message> := [];
      if names != ModeNames(mode) {
        setMessages := [SignalSetMessage(mode)];
      }
      var forSignals := CheckSignals(output.signals, mode);
      assert ModeMessages(output) == setMessages + forSignals;
      messages := messages + (setMessages + forSignals);
    } else {
      messages := messages + [Message("E_MODE", ModeText + mode, Some("mode"))];
    }
    assert messages == VersionMessages(output) + ModeMessages(output);
    r := RunnerResult(if messages == [] then Pass else Warn, messages);
  }

  // ----- what it reports -----

  /** Some message carries `code`. */
  predicate Reports(ms: seq<Message>, code: string) {
    exists m :: m in ms && m.code == code
  }

  /** A signal the validator has nothing to say about. */
  predicate SignalClean(s: TrialSignal, mode: string) {
    && s.reasonCodes != []
    && (forall j :: 0 <= j < |s.reasonCodes| ==> ReasonCodeOk(s.reasonCodes[j]))
    && s.level in ModeLevels(mode)
    && !(mode == "evidence" && |s.evidence| > 3)
  }

  lemma {:induction false} NamesOfMembers(ss: seq<TrialSignal>)
    ensures forall n :: n in NamesOf(ss) <==> exists i :: 0 <= i < |ss| && ss[i].name == n
    decreases |ss|
  {
    if ss != [] {
      var init := ss[..|ss| - 1];
      NamesOfMembers(init);
      forall n | n in NamesOf(ss)
        ensures exists i :: 0 <= i < |ss| && ss[i].name == n
      {
        if n in NamesOf(init) {
          var i :| 0 <= i < |init| && init[i].name == n;
          assert ss[i] == init[i];
        }
      }
      forall n | exists i :: 0 <= i < |ss| && ss[i].name == n
        ensures n in NamesOf(ss)
      {
        var i :| 0 <= i < |ss| && ss[i].name == n;
        if i < |init| {
          assert init[i] == ss[i];
        }
      }
    }
  }

  /**
   * A malformed code's message quotes it as `repr` does: the text after the
   * fixed prefix is a string literal that reads back as the code.
   */
  lemma FormatMessageQuotesCode(name: string, rc: string)
    requires !ReasonCodeOk(rc)
    ensures |FormatMessages(name, [rc])| == 1
    ensures var text := FormatMessages(name, [rc])[0].text;
      && |text| >= |FormatText| + 2
      && text[..|FormatText|] == FormatText
      && var r := text[|FormatText|..];
         Unescape(r[1..|r| - 1], r[0]) == Some(rc)
  {
    assert [rc][..0] == [];
    var text := FormatText + Repr(rc);
    assert text[|FormatText|..] == Repr(rc);
    ReprReadsBack(rc);
  }

  /** A lower-case code is reported between single quotes. */
  lemma FormatMessageSingleQuotes()
    ensures FormatMessages("threat", ["t_low"])
      == [Message("W_REASON_CODE_FORMAT", FormatText + "'t_low'", Field("threat", "reason_codes"))]
  {
    var rc: string := "t_low";
    assert [rc][..0] == [];
    assert rc[|rc| - 1] != '\n' && rc[0] !in "TEWP";
    assert !ReasonCodeOk(rc);
    ReprOfPlain(rc);
    assert Repr(rc) == "'t_low'";
  }

  /** The format messages are all W_REASON_CODE_FORMAT, one per malformed code. */
  lemma {:induction false} FormatReports(name: string, codes: seq<string>)
    ensures forall m :: m in FormatMessages(name, codes) ==> m.code == "W_REASON_CODE_FORMAT"
    ensures FormatMessages(name, codes) == [] <==> forall j :: 0 <= j < |codes| ==> ReasonCodeOk(codes[j])
    decreases |codes|
  {
    if codes != [] {
      var init := codes[..|codes| - 1];
      FormatReports(name, init);
      if FormatMessages(name, codes) == [] {
        forall j | 0 <= j < |codes|
          ensures ReasonCodeOk(codes[j])
        {
          if j < |init| {
            assert codes[j] == init[j];
          }
        }
      }
    }
  }

  lemma ReportsConcat(a: seq<Message>, b: seq<Message>, code: string)
    ensures Reports(a + b, code) <==> Reports(a, code) || Reports(b, code)
  {
    if Reports(a + b, code) {
      var m :| m in a + b && m.code == code;
      assert m in a || m in b;
    }
    if Reports(a, code) {
      var m :| m in a && m.code == code;
      assert m in a + b;
    }
    if Reports(b, code) {
      var m :| m in b && m.code == code;
      assert m in a + b;
    }
  }

  /** The codes the validator can report about a signal. */
  const SignalCodes: set<string> := {"E_REASON_CODES_EMPTY", "W_REASON_CODE_FORMAT", "E_LEVEL", "E_MAX_EVIDENCE"}

  /** What the messages about one signal report. */
  lemma SignalReports(s: TrialSignal, mode: string)
    ensures Reports(SignalMessages(s, mode), "E_REASON_CODES_EMPTY") <==> s.reasonCodes == []
    ensures Reports(SignalMessages(s, mode), "W_REASON_CODE_FORMAT") <==>
      exists j :: 0 <= j < |s.reasonCodes| && !ReasonCodeOk(s.reasonCodes[j])
    ensures Reports(SignalMessages(s, mode), "E_LEVEL") <==> s.level !in ModeLevels(mode)
    ensures Reports(SignalMessages(s, mode), "E_MAX_EVIDENCE") <==> mode == "evidence" && |s.evidence| > 3
    ensures SignalMessages(s, mode) == [] <==> SignalClean(s, mode)
    ensures forall m :: m in SignalMessages(s, mode) ==> m.code in SignalCodes
  {
    FormatReports(s.name, s.reasonCodes);
    var fm := FormatMessages(s.name, s.reasonCodes);
    if s.reasonCodes != [] && fm != [] {
      assert fm[0] in fm;
    }
  }

  /** A code is reported in the flattened parts exactly when one part reports it. */
  lemma {:induction false} FlattenReports(parts: seq<seq<Message>>, code: string)
    ensures Reports(Flatten(parts), code) <==> exists i :: 0 <= i < |parts| && Reports(parts[i], code)
    decreases |parts|
  {
    if parts != [] {
      var init := parts[..|parts| - 1];
      FlattenReports(init, code);
      ReportsConcat(Flatten(init), parts[|parts| - 1], code);
      if Reports(Flatten(init), code) {
        var i :| 0 <= i < |init| && Reports(init[i], code);
        assert parts[i] == init[i];
      }
      if exists i :: 0 <= i < |parts| && Reports(parts[i], code) {
        var i :| 0 <= i < |parts| && Reports(parts[i], code);
        if i < |init| {
          assert parts[i] == init[i];
        }
      }
    }
  }

  /** The flattened parts are empty exactly when every part is. */
  lemma {:induction false} FlattenEmpty(parts: seq<seq<Message>>)
    ensures Flatten(parts) == [] <==> forall i :: 0 <= i < |parts| ==> parts[i] == []
    decreases |parts|
  {
    if parts != [] {
      var init := parts[..|parts| - 1];
      FlattenEmpty(init);
      assert forall i :: 0 <= i < |init| ==> init[i] == parts[i];
    }
  }

  /** Every message of the flattened parts comes from one part. */
  lemma {:induction false} FlattenMembers(parts: seq<seq<Message>>, m: Message)
    requires m in Flatten(parts)
    ensures exists i :: 0 <= i < |parts| && m in parts[i]
    decreases |parts|
  {
    var init := parts[..|parts| - 1];
    if m !in parts[|parts| - 1] {
      FlattenMembers(init, m);
      var i :| 0 <= i < |init| && m in init[i];
      assert parts[i] == init[i];
    }
  }

  /** A code is reported about the signals exactly when it is reported about one of them. */
  lemma SignalsReports(ss: seq<TrialSignal>, mode: string, code: string)
    ensures Reports(SignalsMessages(ss, mode), code) <==>
      exists i :: 0 <= i < |ss| && Reports(SignalMessages(ss[i], mode), code)
  {
    var parts := PartsOf(ss, mode);
    FlattenReports(parts, code);
    forall i | 0 <= i < |ss| {
      PartsOfAt(ss, mode, i);
    }
  }

  /** The signals give no message exactly when no signal does. */
  lemma SignalsSilent(ss: seq<TrialSignal>, mode: string)
    ensures SignalsMessages(ss, mode) == [] <==> forall i :: 0 <= i < |ss| ==> SignalMessages(ss[i], mode) == []
  {
    FlattenEmpty(PartsOf(ss, mode));
    forall i | 0 <= i < |ss| {
      PartsOfAt(ss, mode, i);
    }
  }

  /** The signals give only signal codes. */
  lemma SignalsCodes(ss: seq<TrialSignal>, mode: string)
    ensures forall m :: m in SignalsMessages(ss, mode) ==> m.code in SignalCodes
  {
    forall m | m in SignalsMessages(ss, mode)
      ensures m.code in SignalCodes
    {
      FlattenMembers(PartsOf(ss, mode), m);
      var i :| 0 <= i < |ss| && m in PartsOf(ss, mode)[i];
      PartsOfAt(ss, mode, i);
      SignalReports(ss[i], mode);
    }
  }

  /** The codes reported before the signals: the version, the mode and the name set. */
  function HeadMessages(o: TrialOutput): seq<Message> {
    VersionMessages(o)
      + if KnownMode(o.mode) then (if NamesOf(o.signals) != ModeNames(o.mode) then [SignalSetMessage(o.mode)] else [])
        else [Message("E_MODE", ModeText + o.mode, Some("mode"))]
  }

  /** The messages are the head messages followed, for a known mode, by the signal messages. */
  lemma MessagesSplit(o: TrialOutput)
    ensures TrialValidationOf(o).messages ==
      HeadMessages(o) + (if KnownMode(o.mode) then SignalsMessages(o.signals, o.mode) else [])
  {
    var vm := VersionMessages(o);
    if KnownMode(o.mode) {
      var setMessages := if NamesOf(o.signals) != ModeNames(o.mode) then [SignalSetMessage(o.mode)] else [];
      assert vm + (setMessages + SignalsMessages(o.signals, o.mode))
          == (vm + setMessages) + SignalsMessages(o.signals, o.mode);
    } else {
      assert vm + [Message("E_MODE", ModeText + o.mode, Some("mode"))] + [] ==
        vm + [Message("E_MODE", ModeText + o.mode, Some("mode"))];
    }
  }

  /** A code that is not a signal code is reported exactly when the head messages report it. */
  lemma HeadCodeReported(o: TrialOutput, code: string)
    requires code !in SignalCodes
    ensures Reports(TrialValidationOf(o).messages, code) <==> Reports(HeadMessages(o), code)
  {
    MessagesSplit(o);
    var tail := if KnownMode(o.mode) then SignalsMessages(o.signals, o.mode) else [];
    ReportsConcat(HeadMessages(o), tail, code);
    SignalsCodes(o.signals, o.mode);
  }

  /** E_VERSION is reported exactly for a version other than "v0". */
  lemma VersionReported(o: TrialOutput)
    ensures Reports(TrialValidationOf(o).messages, "E_VERSION") <==> o.version != "v0"
  {
    HeadCodeReported(o, "E_VERSION");
    var vm := VersionMessages(o);
    var rest := HeadMessages(o)[|vm|..];
    assert HeadMessages(o) == vm + rest;
    ReportsConcat(vm, rest, "E_VERSION");
    if vm != [] {
      assert vm[0] in vm;
    }
  }

  /**
   * E_MODE is reported exactly for a mode other than "text" and "evidence",
   * and then the signals are not looked at.
   */
  lemma ModeReported(o: TrialOutput)
    ensures Reports(TrialValidationOf(o).messages, "E_MODE") <==> !KnownMode(o.mode)
    ensures !KnownMode(o.mode) ==>
      TrialValidationOf(o).messages == VersionMessages(o) + [Message("E_MODE", ModeText + o.mode, Some("mode"))]
  {
    HeadCodeReported(o, "E_MODE");
    var vm := VersionMessages(o);
    var rest := HeadMessages(o)[|vm|..];
    assert HeadMessages(o) == vm + rest;
    ReportsConcat(vm, rest, "E_MODE");
    if !KnownMode(o.mode) {
      assert rest[0] in rest;
    }
  }

  /** For a known mode E_SIGNAL_SET is reported exactly when the set of names is not the mode's. */
  lemma SignalSetReported(o: TrialOutput)
    ensures Reports(TrialValidationOf(o).messages, "E_SIGNAL_SET") <==>
      KnownMode(o.mode) && NamesOf(o.signals) != ModeNames(o.mode)
  {
    HeadCodeReported(o, "E_SIGNAL_SET");
    var vm := VersionMessages(o);
    var rest := HeadMessages(o)[|vm|..];
    assert HeadMessages(o) == vm + rest;
    ReportsConcat(vm, rest, "E_SIGNAL_SET");
    if rest != [] {
      assert rest[0] in rest;
    }
  }

  /** For a known mode a signal code is reported exactly when some signal gets it. */
  lemma SignalCodeReported(o: TrialOutput, code: string)
    requires KnownMode(o.mode) && code in SignalCodes
    ensures Reports(TrialValidationOf(o).messages, code) <==>
      exists i :: 0 <= i < |o.signals| && Reports(SignalMessages(o.signals[i], o.mode), code)
  {
    MessagesSplit(o);
    var head := HeadMessages(o);
    ReportsConcat(head, SignalsMessages(o.signals, o.mode), code);
    SignalsReports(o.signals, o.mode, code);
    HeadCodes(o);
    if Reports(head, code) {
      var m :| m in head && m.code == code;
      assert m.code in {"E_VERSION", "E_SIGNAL_SET", "E_MODE"};
    }
  }

  /** The head messages carry only the version, mode and name-set codes. */
  lemma HeadCodes(o: TrialOutput)
    ensures forall m :: m in HeadMessages(o) ==> m.code in {"E_VERSION", "E_SIGNAL_SET", "E_MODE"}
  {
  }

  /**
   * For a known mode, E_REASON_CODES_EMPTY, W_REASON_CODE_FORMAT, E_LEVEL
   * and (evidence mode only) E_MAX_EVIDENCE are reported exactly when some
   * signal has that problem.
   */
  lemma EmptyCodesReported(o: TrialOutput)
    requires KnownMode(o.mode)
    ensures Reports(TrialValidationOf(o).messages, "E_REASON_CODES_EMPTY") <==>
      exists i :: 0 <= i < |o.signals| && o.signals[i].reasonCodes == []
  {
    SignalCodeReported(o, "E_REASON_CODES_EMPTY");
    forall i | 0 <= i < |o.signals| {
      SignalReports(o.signals[i], o.mode);
    }
  }

  lemma LevelReported(o: TrialOutput)
    requires KnownMode(o.mode)
    ensures Reports(TrialValidationOf(o).messages, "E_LEVEL") <==>
      exists i :: 0 <= i < |o.signals| && o.signals[i].level !in ModeLevels(o.mode)
  {
    SignalCodeReported(o, "E_LEVEL");
    forall i | 0 <= i < |o.signals| {
      SignalReports(o.signals[i], o.mode);
    }
  }

  lemma MaxEvidenceReported(o: TrialOutput)
    requires KnownMode(o.mode)
    ensures Reports(TrialValidationOf(o).messages, "E_MAX_EVIDENCE") <==>
      o.mode == "evidence" && exists i :: 0 <= i < |o.signals| && |o.signals[i].evidence| > 3
  {
    SignalCodeReported(o, "E_MAX_EVIDENCE");
    forall i | 0 <= i < |o.signals| {
      SignalReports(o.signals[i], o.mode);
    }
  }

  lemma FormatReported(o: TrialOutput)
    requires KnownMode(o.mode)
    ensures Reports(TrialValidationOf(o).messages, "W_REASON_CODE_FORMAT") <==>
      exists i, j :: 0 <= i < |o.signals| && 0 <= j < |o.signals[i].reasonCodes|
        && !ReasonCodeOk(o.signals[i].reasonCodes[j])
  {
    SignalCodeReported(o, "W_REASON_CODE_FORMAT");
    forall i | 0 <= i < |o.signals| {
      SignalReports(o.signals[i], o.mode);
    }
  }

  /**
   * PASS exactly for version "v0", a known mode, the mode's three names and
   * signals with well-formed, non-empty reason codes, the mode's levels
   * and, in evidence mode, at most three evidence items each.
   */
  lemma PassExactly(o: TrialOutput)
    ensures TrialValidationOf(o).status == Pass <==>
      && o.version == "v0" && KnownMode(o.mode) && NamesOf(o.signals) == ModeNames(o.mode)
      && forall i :: 0 <= i < |o.signals| ==> SignalClean(o.signals[i], o.mode)
  {
    if KnownMode(o.mode) {
      forall i | 0 <= i < |o.signals| {
        SignalReports(o.signals[i], o.mode);
      }
      SignalsSilent(o.signals, o.mode);
    }
  }
}
