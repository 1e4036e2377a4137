/**
 * The input adapters: `build_structuring_input_from_stt` copies a
 * transcript into a `StructuringInput`; `preprocess_ocr_segments` cleans
 * OCR lines and drops the empty and punctuation-only ones, and
 * `build_structuring_input_from_ocr` builds the input from what survives.
 *
 * The OCR builder passes `source_type="ocr"`, which the input model's
 * `Literal["stt"]` rejects, so it always raises `ValidationError`;
 * `OcrBuildAlwaysRaises` states this.
 */
module InputAdapters {
  import opened Outcomes
  import opened Text
  import opened StructuringTypes

  // ----- speech to text -----

  datatype SttSegment = SttSegment(start: real, end: real, text: string)

  datatype SttResult = SttResult(fullText: string, segments: seq<SttSegment>, language: Option<string>, engine: string)

  /** The segment list the STT builder passes, one per transcript segment. */
  function SttSegments(segs: seq<SttSegment>): (r: seq<StructuringSegment>)
    ensures |r| == |segs|
    ensures forall i :: 0 <= i < |segs| ==> r[i] == StructuringSegment(segs[i].text, segs[i].start, segs[i].end)
  {
    seq(|segs|, i requires 0 <= i < |segs| => StructuringSegment(segs[i].text, segs[i].start, segs[i].end))
  }

  /** `build_structuring_input_from_stt` */
  function BuildFromStt(stt: SttResult): Outcome<StructuringInput> {
    NewStructuringInput("text", "stt", stt.language, stt.fullText, SttSegments(stt.segments))
  }

  /**
   * The STT builder never raises: the input is text from "stt", with the
   * transcript's full text and language, and one segment per transcript
   * segment with its text, start and end, in order.
   */
  lemma SttBuildCopies(stt: SttResult)
    ensures BuildFromStt(stt).Ok?
    ensures var input := BuildFromStt(stt).value;
      && ValidInput(input)
      && input.modality == "text" && input.sourceType == "stt"
      && input.fullText == stt.fullText && input.language == stt.language
      && |input.segments| == |stt.segments|
      && forall i :: 0 <= i < |stt.segments| ==>
           input.segments[i].text == stt.segments[i].text
           && input.segments[i].start == stt.segments[i].start
           && input.segments[i].end == stt.segments[i].end
  {
  }

  // ----- OCR -----

  datatype OcrSegment = OcrSegment(text: string, page: Option<int>, line: Option<int>, start: Option<real>, end: Option<real>)

  datatype OcrResult = OcrResult(fullText: string, segments: seq<OcrSegment>, language: Option<string>, engine: string)

  /** `{**seg.model_dump(), "text": text, "start": start, "end": end}` */
  datatype ProcessedSegment = ProcessedSegment(text: string, page: Option<int>, line: Option<int>, start: real, end: real)

  /** The characters a segment may consist of and still be dropped (besides whitespace around it). */
  const Punctuation: string := "!@#$%^&*()_+=[]{}|;:'\",.<>?/\\ "

  /** `all(c in PUNCT for c in text)` */
  predicate AllPunctuation(text: string) {
    forall i :: 0 <= i < |text| ==> text[i] in Punctuation
  }

  /** `not text or all(c in PUNCT for c in text)` on the stripped text. */
  predicate Dropped(seg: OcrSegment) {
    var text := Strip(seg.text);
    text == [] || AllPunctuation(text)
  }

  /** A cleaned line: non-empty, no line breaks, no whitespace at either end. */
  predicate CleanLine(t: string) {
    && t != []
    && !IsSpace(t[0]) && !IsSpace(t[|t| - 1])
    && (forall i :: 0 <= i < |t| ==> t[i] != '\n' && t[i] != '\r')
  }

  /** `text.replace("\n", " ").replace("\r", " ").replace("  ", " ")` */
  function CleanText(text: string): string {
    ReplaceAll(ReplaceAll(ReplaceAll(text, "\n", " "), "\r", " "), "  ", " ")
  }

  /** One kept segment: cleaned text, missing times defaulted to 0.0. */
  function Process(seg: OcrSegment): ProcessedSegment {
    ProcessedSegment(CleanText(Strip(seg.text)), seg.page, seg.line,
                     if seg.start.Some? then seg.start.value else 0.0,
                     if seg.end.Some? then seg.end.value else 0.0)
  }

  /** What `preprocess_ocr_segments` returns. */
  function PreprocessSpec(segs: seq<OcrSegment>): (r: seq<ProcessedSegment>)
    ensures |r| <= |segs|
  {
    if segs == [] then []
    else
      var init := PreprocessSpec(segs[..|segs| - 1]);
      var last := segs[|segs| - 1];
      if Dropped(last) then init else init + [Process(last)]
  }

  /** `preprocess_ocr_segments`: the loop with `continue` for dropped segments. */
  method PreprocessOcrSegments(segs: seq<OcrSegment>) returns (processed: seq<ProcessedSegment>)
    ensures processed == PreprocessSpec(segs)
  {
    processed := [];
    for i := 0 to |segs|
      invariant processed == PreprocessSpec(segs[..i])
    {
      assert segs[..i + 1][..i] == segs[..i];
      var seg := segs[i];
      var text := Strip(seg.text);
      if text == [] || AllPunctuation(text) {
        continue;
      }
      text := CleanText(text);
      var start := if seg.start.Some? then seg.start.value else 0.0;
      var end := if seg.end.Some? then seg.end.value else 0.0;
      processed := processed + [ProcessedSegment(text, seg.page, seg.line, start, end)];
    }
    assert segs[..|segs|] == segs;
  }

  /** Replacing one character by another maps the string character by character. */
  lemma {:induction false} ReplaceCharPointwise(s: string, c: char, d: char)
    ensures |ReplaceAll(s, [c], [d])| == |s|
    ensures forall i :: 0 <= i < |s| ==> ReplaceAll(s, [c], [d])[i] == if s[i] == c then d else s[i]
    decreases |s|
  {
    if s != [] {
      ReplaceCharPointwise(s[1..], c, d);
    }
  }

  /** Every character of a replacement's result comes from the text or the replacement. */
  lemma {:induction false} ReplaceAllChars(s: string, pat: string, rep: string)
    requires pat != []
    ensures forall i :: 0 <= i < |ReplaceAll(s, pat, rep)| ==> ReplaceAll(s, pat, rep)[i] in s + rep
    decreases |s|
  {
    if |s| >= |pat| {
      var r := ReplaceAll(s, pat, rep);
      if s[..|pat|] == pat {
        ReplaceAllChars(s[|pat|..], pat, rep);
        forall i | 0 <= i < |r| ensures r[i] in s + rep {
          if i >= |rep| {
            assert r[i] == ReplaceAll(s[|pat|..], pat, rep)[i - |rep|];
          }
        }
      } else {
        ReplaceAllChars(s[1..], pat, rep);
        forall i | 0 <= i < |r| ensures r[i] in s + rep {
          if i >= 1 {
            assert r[i] == ReplaceAll(s[1..], pat, rep)[i - 1];
          }
        }
      }
    }
  }

  /** A text that does not start with the pattern's first character keeps its first character. */
  lemma ReplaceAllKeepsFirst(s: string, pat: string, rep: string)
    requires pat != [] && s != [] && s[0] != pat[0]
    ensures ReplaceAll(s, pat, rep) != [] && ReplaceAll(s, pat, rep)[0] == s[0]
  {
  }

  /** A text whose last character is not in the pattern keeps its last character. */
  lemma {:induction false} ReplaceAllKeepsLast(s: string, pat: string, rep: string)
    requires pat != [] && s != [] && s[|s| - 1] !in pat
    ensures var r := ReplaceAll(s, pat, rep); r != [] && r[|r| - 1] == s[|s| - 1]
    decreases |s|
  {
    if |s| >= |pat| {
      if s[..|pat|] == pat {
        assert s[|pat| - 1] in pat;
        ReplaceAllKeepsLast(s[|pat|..], pat, rep);
      } else if |s| > 1 {
        ReplaceAllKeepsLast(s[1..], pat, rep);
      }
    }
  }

  /** Replacing the line breaks keeps the length and both ends and leaves no line break. */
  lemma BreaksReplaced(t: string)
    requires t != [] && !IsSpace(t[0]) && !IsSpace(t[|t| - 1])
    ensures var b := ReplaceAll(ReplaceAll(t, "\n", " "), "\r", " ");
      && |b| == |t| && b[0] == t[0] && b[|b| - 1] == t[|t| - 1]
      && forall i :: 0 <= i < |b| ==> b[i] != '\n' && b[i] != '\r'
  {
    var a := ReplaceAll(t, "\n", " ");
    ReplaceCharPointwise(t, '\n', ' ');
    ReplaceCharPointwise(a, '\r', ' ');
  }

  /** Collapsing double spaces in a line without breaks and with non-space ends gives a clean line. */
  lemma SpacesCollapsed(b: string)
    requires b != [] && !IsSpace(b[0]) && !IsSpace(b[|b| - 1])
    requires forall i :: 0 <= i < |b| ==> b[i] != '\n' && b[i] != '\r'
    ensures CleanLine(ReplaceAll(b, "  ", " "))
  {
    var c := ReplaceAll(b, "  ", " ");
    ReplaceAllKeepsFirst(b, "  ", " ");
    ReplaceAllKeepsLast(b, "  ", " ");
    ReplaceAllChars(b, "  ", " ");
    forall i | 0 <= i < |c| ensures c[i] != '\n' && c[i] != '\r' {
      NoBreakIn(c[i], b);
    }
  }

  lemma NoBreakIn(x: char, b: string)
    requires forall i :: 0 <= i < |b| ==> b[i] != '\n' && b[i] != '\r'
    requires x in b + " "
    ensures x != '\n' && x != '\r'
  {
    var j :| 0 <= j < |b| + 1 && (b + " ")[j] == x;
    if j < |b| {
      assert b[j] == x;
    }
  }

  /** Cleaning a stripped, non-empty text gives a clean line. */
  lemma CleanTextIsClean(t: string)
    requires t != [] && !IsSpace(t[0]) && !IsSpace(t[|t| - 1])
    ensures CleanLine(CleanText(t))
  {
    BreaksReplaced(t);
    SpacesCollapsed(ReplaceAll(ReplaceAll(t, "\n", " "), "\r", " "));
  }

  /** Every processed segment holds a clean line. */
  predicate AllClean(ps: seq<ProcessedSegment>) {
    forall j :: 0 <= j < |ps| ==> CleanLine(ps[j].text)
  }

  /** A kept segment's text is a clean line. */
  lemma ProcessClean(seg: OcrSegment)
    requires Strip(seg.text) != []
    ensures CleanLine(Process(seg).text)
  {
    var t := Strip(seg.text);
    CleanTextIsClean(t);
    assert Process(seg).text == CleanText(t);
  }

  /** Every text `preprocess_ocr_segments` returns is a clean line. */
  lemma {:induction false} PreprocessClean(segs: seq<OcrSegment>)
    ensures AllClean(PreprocessSpec(segs))
  {
    if segs != [] {
      var init := segs[..|segs| - 1];
      PreprocessClean(init);
      var last := segs[|segs| - 1];
      if !Dropped(last) {
        ProcessClean(last);
      }
    }
  }

  /**
   * Preprocessing works segment by segment and keeps the order: the result
   * for `a + b` is the result for `a` followed by the result for `b`.
   */
  lemma {:induction false} PreprocessConcat(a: seq<OcrSegment>, b: seq<OcrSegment>)
    ensures PreprocessSpec(a + b) == PreprocessSpec(a) + PreprocessSpec(b)
    decreases |b|
  {
    if b == [] {
      assert a + b == a;
    } else {
      var init := b[..|b| - 1];
      assert (a + b)[..|a + b| - 1] == a + init;
      PreprocessConcat(a, init);
    }
  }

  /** A single segment is dropped exactly when its stripped text is empty or all punctuation. */
  lemma PreprocessOne(seg: OcrSegment)
    ensures PreprocessSpec([seg]) == if Dropped(seg) then [] else [Process(seg)]
    ensures PreprocessSpec([seg]) == [] <==> Dropped(seg)
  {
    assert [seg][..0] == [];
  }

  /** `"   ".replace("  ", " ")` is two spaces: one left-to-right pass, no rescan. */
  lemma SinglePassReplace()
    ensures CleanText("   ") == "  "
  {
    assert ReplaceAll("   ", "\n", " ") == "   ";
    assert ReplaceAll("   ", "\r", " ") == "   ";
    assert ReplaceAll("   ", "  ", " ") == " " + ReplaceAll(" ", "  ", " ");
  }

  /** The segment list the OCR builder passes: one per processed segment. */
  function OcrSegments(processed: seq<ProcessedSegment>): (r: seq<StructuringSegment>)
    ensures |r| == |processed|
    ensures forall i :: 0 <= i < |processed| ==>
      r[i] == StructuringSegment(processed[i].text, processed[i].start, processed[i].end)
  {
    seq(|processed|, i requires 0 <= i < |processed| =>
      StructuringSegment(processed[i].text, processed[i].start, processed[i].end))
  }

  /** `build_structuring_input_from_ocr` */
  function BuildFromOcr(ocr: OcrResult): Outcome<StructuringInput> {
    NewStructuringInput("text", "ocr", ocr.language, ocr.fullText, OcrSegments(PreprocessSpec(ocr.segments)))
  }

  /**
   * The OCR builder always raises `ValidationError`: the source type "ocr"
   * is not one the input model admits, whatever the segments are.
   */
  lemma OcrBuildAlwaysRaises(ocr: OcrResult)
    ensures BuildFromOcr(ocr) == Raise(ValidationError)
  {
  }

  /**
   * What the OCR builder hands to the input model: the full text verbatim
   * (not preprocessed), and one clean segment per surviving OCR segment;
   * with the source type "stt" the same arguments would be accepted.
   */
  lemma OcrArguments(ocr: OcrResult)
    ensures var segs := OcrSegments(PreprocessSpec(ocr.segments));
      && |segs| == |PreprocessSpec(ocr.segments)| <= |ocr.segments|
      && (forall i :: 0 <= i < |segs| ==> CleanLine(segs[i].text))
      && NewStructuringInput("text", "stt", ocr.language, ocr.fullText, segs).Ok?
      && NewStructuringInput("text", "stt", ocr.language, ocr.fullText, segs).value.fullText == ocr.fullText
  {
    PreprocessClean(ocr.segments);
  }
}
