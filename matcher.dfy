/**
 * The anchor matcher: locates an evidence span in the transcript.
 *
 * A span is anchored only when, after NFC normalisation and stripping,
 * it occurs exactly once in the normalised transcript; the anchor is then
 * the half-open character range of that occurrence.
 */
module AnchorMatcher {
  import opened Outcomes
  import opened JsonValues
  import opened Text

  /** A half-open character range `[startChar, endChar)` of the transcript. */
  datatype EvidenceAnchor = EvidenceAnchor(startChar: int, endChar: int)

  lemma TwoMembers(s: set<int>, a: int, b: int)
    requires a in s && b in s && a != b
    ensures |s| != 1
  {
    var t := s - {a, b};
    assert s == t + {a, b};
  }

  /**
   * The anchor of `span` in `full`: present exactly when `span` occurs once,
   * and then it is that occurrence.
   */
  ghost function UniqueAnchor(full: string, span: string): (r: Option<EvidenceAnchor>)
    ensures r.Some? <==> |Occurrences(full, span)| == 1
    ensures r.Some? ==>
      && OccursAt(full, span, r.value.startChar)
      && r.value.endChar == r.value.startChar + |span|
      && forall j :: OccursAt(full, span, j) ==> j == r.value.startChar
  {
    var occ := Occurrences(full, span);
    if |occ| == 1 then
      var i :| i in occ;
      assert forall j :: OccursAt(full, span, j) ==> j == i by {
        forall j | OccursAt(full, span, j) ensures j == i {
          assert j in occ;
          if j != i { TwoMembers(occ, i, j); }
        }
      }
      Some(EvidenceAnchor(i, i + |span|))
    else
      None
  }

  /**
   * What `AnchorMatcher.match` returns for the transcript `fullText` and
   * the value found under "evidence_span".  A falsy span gives no anchor; a
   * truthy value that is not a string makes `unicodedata.normalize` raise.
   */
  ghost function MatchSpec(nfc: Normalizer, fullText: string, evidenceSpan: Json)
    : (r: Outcome<Option<EvidenceAnchor>>)
    ensures r.Raise? <==> Truthy(evidenceSpan) && !evidenceSpan.Str?
    ensures r.Raise? ==> r.exc == TypeError
    ensures r.Ok? && r.value.Some? ==>
      evidenceSpan.Str? &&
      var span := Strip(nfc(evidenceSpan.s));
      var full := nfc(fullText);
      var a := r.value.value;
      && span != []
      && 0 <= a.startChar < a.endChar <= |full|
      && full[a.startChar..a.endChar] == span
      && forall j :: OccursAt(full, span, j) ==> j == a.startChar
    ensures r == Ok(None) <==>
      || !Truthy(evidenceSpan)
      || (evidenceSpan.Str? && Strip(nfc(evidenceSpan.s)) == [])
      || (evidenceSpan.Str? && |Occurrences(nfc(fullText), Strip(nfc(evidenceSpan.s)))| != 1)
  {
    if !Truthy(evidenceSpan) then Ok(None)
    else if !evidenceSpan.Str? then Raise(TypeError)
    else
      var span := Strip(nfc(evidenceSpan.s));
      if span == [] then Ok(None)
      else Ok(UniqueAnchor(nfc(fullText), span))
  }

  /** `AnchorMatcher.match` */
  method Match(nfc: Normalizer, fullText: string, evidenceSpan: Json)
    returns (r: Outcome<Option<EvidenceAnchor>>)
    ensures r == MatchSpec(nfc, fullText, evidenceSpan)
  {
    if !Truthy(evidenceSpan) {
      return Ok(None);
    }
    var full := nfc(fullText);
    if !evidenceSpan.Str? {
      return Raise(TypeError);
    }
    var span := Strip(nfc(evidenceSpan.s));
    if span == [] {
      return Ok(None);
    }
    var found := FindUnique(full, span);
    r := Ok(found);
  }

  /** The search loop of `AnchorMatcher.match`: stops at the second occurrence. */
  method FindUnique(full: string, span: string) returns (r: Option<EvidenceAnchor>)
    requires span != []
    ensures r == UniqueAnchor(full, span)
  {
    var matches: seq<int> := [];
    var start: nat := 0;
    while true
      invariant start <= |full| + 1
      invariant |matches| <= 1
      invariant forall k :: k in matches ==> OccursAt(full, span, k) && k < start
      invariant forall j :: 0 <= j < start && OccursAt(full, span, j) ==> j in matches
      decreases |full| + 1 - start
    {
      var idx := Find(full, span, start);
      if idx == -1 {
        break;
      }
      matches := matches + [idx];
      start := idx + 1;
      if |matches| > 1 {
        TwoOccurrences(full, span, matches[0], matches[1]);
        return None;
      }
    }
    if |matches| != 1 {
      NoOccurrence(full, span);
      return None;
    }
    OnlyOccurrence(full, span, matches[0]);
    return Some(EvidenceAnchor(matches[0], matches[0] + |span|));
  }

  lemma TwoOccurrences(full: string, span: string, a: int, b: int)
    requires OccursAt(full, span, a) && OccursAt(full, span, b) && a != b
    ensures UniqueAnchor(full, span) == None
  {
    TwoMembers(Occurrences(full, span), a, b);
  }

  lemma NoOccurrence(full: string, span: string)
    requires forall j :: !OccursAt(full, span, j)
    ensures UniqueAnchor(full, span) == None
  {
    assert Occurrences(full, span) == {};
  }

  lemma OnlyOccurrence(full: string, span: string, m: int)
    requires OccursAt(full, span, m)
    requires forall j :: OccursAt(full, span, j) ==> j == m
    ensures UniqueAnchor(full, span) == Some(EvidenceAnchor(m, m + |span|))
  {
    assert Occurrences(full, span) == {m};
  }
}
