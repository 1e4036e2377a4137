/**
 * Text-mode trial signals: repetition (whitespace tokens of four or more
 * characters counted in a dict), threat and refusal (the first pattern of a
 * fixed list, in list order, that occurs in the text).
 *
 * The regular expressions of the source are all of one simple kind: pieces
 * of literal text, some with a choice of endings (`죽(?:여|인다|이겠)`), some
 * separated by `\s*`.  `Pattern` represents exactly that kind; `MatchFrom`
 * commits to the first ending that fits and to the whole run of
 * whitespace, which is what the backtracking engine ends up with for the
 * listed patterns: their endings start with different characters and every
 * `\s*` is followed by a non-space character (`Committed`).
 */
module TrialTextSignals {
  import opened Outcomes
  import opened Text
  import opened TrialTypes
  import opened TrialTokens

  // ----- patterns and matching -----

  /** A piece of a pattern: literal text with a choice of endings, or `\s*`. */
  datatype Piece = Choice(alternatives: seq<string>) | Spaces

  type Pattern = seq<Piece>

  /** `re.escape(token)` */
  function Literal(s: string): Pattern {
    [Choice([s])]
  }

  /** `a` is found at `pos` in `text`, letters compared as `re.IGNORECASE` does. */
  predicate TextAt(text: string, pos: nat, a: string) {
    pos + |a| <= |text| && forall i :: 0 <= i < |a| ==> SameIgnoringCase(text[pos + i], a[i])
  }

  /** The first alternative found at `pos`. */
  function FirstChoice(text: string, pos: nat, alts: seq<string>): (r: Option<nat>)
    ensures r.Some? ==> r.value < |alts| && TextAt(text, pos, alts[r.value])
    ensures r.None? ==> forall i :: 0 <= i < |alts| ==> !TextAt(text, pos, alts[i])
    ensures r.Some? ==> forall i :: 0 <= i < r.value ==> !TextAt(text, pos, alts[i])
    decreases |alts|
  {
    if alts == [] then None
    else if TextAt(text, pos, alts[0]) then Some(0)
    else
      var r := FirstChoice(text, pos, alts[1..]);
      if r.None? then None else Some(r.value + 1)
  }

  /** The end of the run of whitespace that starts at `pos`. */
  function SkipSpaces(text: string, pos: nat): (r: nat)
    requires pos <= |text|
    ensures pos <= r <= |text|
    ensures forall i :: pos <= i < r ==> IsSpace(text[i])
    ensures r == |text| || !IsSpace(text[r])
    decreases |text| - pos
  {
    if pos < |text| && IsSpace(text[pos]) then SkipSpaces(text, pos + 1) else pos
  }

  /** The end of the match of `pat` that starts at `pos`, if any. */
  function MatchFrom(text: string, pat: Pattern, pos: nat): (r: Option<nat>)
    requires pos <= |text|
    ensures r.Some? ==> pos <= r.value <= |text|
    decreases |pat|
  {
    if pat == [] then Some(pos)
    else
      match pat[0]
      case Spaces => MatchFrom(text, pat[1..], SkipSpaces(text, pos))
      case Choice(alts) =>
        var c := FirstChoice(text, pos, alts);
        if c.None? then None else MatchFrom(text, pat[1..], pos + |alts[c.value]|)
  }

  /** `re.search(pat, text)`: the match that starts leftmost, from `start` on. */
  function SearchFrom(text: string, pat: Pattern, start: nat): (r: Option<(nat, nat)>)
    requires start <= |text|
    ensures r.Some? ==> start <= r.value.0 <= |text| && MatchFrom(text, pat, r.value.0) == Some(r.value.1)
    ensures r.Some? ==> forall p :: start <= p < r.value.0 ==> MatchFrom(text, pat, p).None?
    ensures r.None? ==> forall p :: start <= p <= |text| ==> MatchFrom(text, pat, p).None?
    decreases |text| - start
  {
    var m := MatchFrom(text, pat, start);
    if m.Some? then Some((start, m.value))
    else if start == |text| then None
    else
      var r := SearchFrom(text, pat, start + 1);
      assert r.Some? ==> forall p :: start <= p < r.value.0 ==> MatchFrom(text, pat, p).None?;
      r
  }

  function Search(text: string, pat: Pattern): Option<(nat, nat)> {
    SearchFrom(text, pat, 0)
  }

  /** `_SpanMatch(span, start, end)` */
  datatype SpanMatch = SpanMatch(span: string, start: nat, end: nat)

  /**
   * `_find_first_match`: the patterns are tried in list order, and the
   * first one whose leftmost match is non-empty wins.
   */
  function FirstMatch(text: string, patterns: seq<Pattern>): (r: Option<SpanMatch>)
    ensures r.Some? ==> r.value.start < r.value.end <= |text| && r.value.span == text[r.value.start..r.value.end]
    decreases |patterns|
  {
    if patterns == [] then None
    else
      var m := Search(text, patterns[0]);
      if m.Some? && m.value.0 < m.value.1 then Some(SpanMatch(text[m.value.0..m.value.1], m.value.0, m.value.1))
      else FirstMatch(text, patterns[1..])
  }

  /** A pattern wins exactly when no earlier pattern has a non-empty match. */
  lemma {:induction false} FirstPatternWins(text: string, patterns: seq<Pattern>, k: nat)
    requires k < |patterns|
    requires forall j :: 0 <= j < k ==> var m := Search(text, patterns[j]); m.None? || m.value.0 == m.value.1
    requires var m := Search(text, patterns[k]); m.Some? && m.value.0 < m.value.1
    ensures var m := Search(text, patterns[k]).value;
      FirstMatch(text, patterns) == Some(SpanMatch(text[m.0..m.1], m.0, m.1))
    decreases k
  {
    if k > 0 {
      var rest := patterns[1..];
      assert forall j :: 0 <= j < k - 1 ==> rest[j] == patterns[j + 1];
      FirstPatternWins(text, rest, k - 1);
    }
  }

  method FindFirstMatch(text: string, patterns: seq<Pattern>) returns (m: Option<SpanMatch>)
    ensures m == FirstMatch(text, patterns)
  {
    var i := 0;
    while i < |patterns|
      invariant 0 <= i <= |patterns|
      invariant FirstMatch(text, patterns) == FirstMatch(text, patterns[i..])
    {
      assert patterns[i..][1..] == patterns[i + 1..];
      var found := Search(text, patterns[i]);
      if found.Some? {
        var start, end := found.value.0, found.value.1;
        var span := text[start..end];
        if span != [] {
          return Some(SpanMatch(span, start, end));
        }
      }
      i := i + 1;
    }
    return None;
  }

  /** A literal that occurs at `p` is matched there, and wherever it is matched it is matched whole. */
  lemma LiteralMatch(text: string, t: string, p: nat)
    requires p <= |text|
    ensures MatchFrom(text, Literal(t), p).Some? <==> TextAt(text, p, t)
    ensures MatchFrom(text, Literal(t), p).Some? ==> MatchFrom(text, Literal(t), p) == Some(p + |t|)
  {
    assert Literal(t)[1..] == [];
  }

  lemma OccursIsTextAt(text: string, t: string, p: nat)
    requires OccursAt(text, t, p)
    ensures TextAt(text, p, t)
  {
    forall i | 0 <= i < |t| ensures SameIgnoringCase(text[p + i], t[i]) {
      assert text[p + i] == text[p..p + |t|][i];
    }
  }

  /** A token of the text is always found by the case-insensitive search for it. */
  lemma LiteralTokenFound(text: string, k: nat)
    requires k < |Tokens(text)|
    ensures var t := Tokens(text)[k];
      FirstMatch(text, [Literal(t)]).Some? && |FirstMatch(text, [Literal(t)]).value.span| == |t|
  {
    var t := Tokens(text)[k];
    TokensShape(text);
    TokenOccurs(text, k);
    var p :| OccursAt(text, t, p);
    OccursIsTextAt(text, t, p);
    LiteralMatch(text, t, p);
    var m := Search(text, Literal(t));
    var q := m.value.0;
    LiteralMatch(text, t, q);
    assert m.value.1 == q + |t|;
  }

  // ----- the three text signals -----

  /** `_make_text_evidence` */
  function TextEvidence(m: SpanMatch): TrialEvidence {
    TrialEvidence(m.span, Some(TrialAnchor(m.start, m.end)), FromText, None)
  }

  /** One signal's level, reason codes and evidence. */
  datatype Verdict = Verdict(level: string, codes: seq<string>, evidence: seq<TrialEvidence>)

  function EvidenceOf(m: Option<SpanMatch>): seq<TrialEvidence> {
    if m.Some? then [TextEvidence(m.value)] else []
  }

  /** `_repetition_level(full_text)` */
  function RepetitionSpec(text: string): Verdict {
    var ts := Tokens(text);
    if Keys(ts) == [] then Verdict(Insufficient, ["T_REPETITION_NO_TOKENS"], [])
    else
      FreqFacts(ts);
      var top := Top(ts);
      var count := FreqOf(ts)[top];
      if count >= 3 then Verdict(Sufficient, ["T_REPETITION_TOKEN_X3"], EvidenceOf(FirstMatch(text, [Literal(top)])))
      else if count == 2 then Verdict(Warning, ["T_REPETITION_TOKEN_X2"], EvidenceOf(FirstMatch(text, [Literal(top)])))
      else Verdict(Insufficient, ["T_REPETITION_TOKEN_X1"], [])
  }

  /**
   * The repetition level follows how often the first most frequent long
   * token occurs (`TopIsFirstMostFrequent`); at 충분 or 경고 there is exactly
   * one evidence item, as long as that token, at its first case-insensitive
   * occurrence.
   */
  lemma RepetitionLevels(text: string)
    ensures var ts := Tokens(text);
      var v := RepetitionSpec(text);
      && ((forall i :: 0 <= i < |ts| ==> !Counted(ts[i])) <==> v.codes == ["T_REPETITION_NO_TOKENS"])
      && (Keys(ts) == [] ==> v == Verdict(Insufficient, ["T_REPETITION_NO_TOKENS"], []))
      && (Keys(ts) != [] ==>
            var n := CountOf(ts, Top(ts));
            && (n >= 3 ==> v.level == Sufficient && v.codes == ["T_REPETITION_TOKEN_X3"])
            && (n == 2 ==> v.level == Warning && v.codes == ["T_REPETITION_TOKEN_X2"])
            && (n < 2 ==> v == Verdict(Insufficient, ["T_REPETITION_TOKEN_X1"], []))
            && (n >= 2 ==>
                  (|v.evidence| == 1 && v.evidence[0] == TextEvidence(FirstMatch(text, [Literal(Top(ts))]).value)
                   && |v.evidence[0].span| == |Top(ts)|)))
  {
    var ts := Tokens(text);
    NoKeysNoLongTokens(ts);
    if Keys(ts) != [] {
      TopIsFirstMostFrequent(ts);
      var k := FirstIndex(ts, Top(ts));
      if CountOf(ts, Top(ts)) >= 2 {
        LiteralTokenFound(text, k);
      }
    }
  }

  /** `_THREAT_PATTERNS`, in order. */
  const ThreatPatterns: seq<Pattern> := [
    [Choice(["죽"]), Choice(["여", "인다", "이겠"])],
    [Choice(["가만두지"]), Spaces, Choice(["않"])],
    [Choice(["해코지"])],
    [Choice(["찾아가"]), Choice(["겠", "서"])],
    [Choice(["때리"]), Choice(["겠", "고"])],
    [Choice(["폭로"])]
  ]

  /** `_REFUSAL_PATTERNS`, in order. */
  const RefusalPatterns: seq<Pattern> := [
    [Choice(["그만"])],
    [Choice(["하지"]), Spaces, Choice(["마"])],
    [Choice(["싫어"])],
    [Choice(["연락"]), Spaces, Choice(["하지"]), Spaces, Choice(["마"])],
    [Choice(["차단"])],
    [Choice(["거절"])]
  ]

  /**
   * Patterns for which committing to the first ending and to the whole run
   * of whitespace is the only way to match: the endings of a choice start
   * with different characters, and `\s*` is followed by a choice whose
   * endings start with non-space characters.
   */
  predicate Committed(pat: Pattern) {
    forall i :: 0 <= i < |pat| ==> PieceCommitted(pat, i)
  }

  predicate PieceCommitted(pat: Pattern, i: nat)
    requires i < |pat|
  {
    if pat[i].Choice? then
      var alts := pat[i].alternatives;
      (forall a :: 0 <= a < |alts| ==> alts[a] != [])
      && forall a, b :: 0 <= a < b < |alts| ==> FoldCase(alts[a][0]) != FoldCase(alts[b][0])
    else
      i + 1 < |pat| && pat[i + 1].Choice?
      && var next := pat[i + 1].alternatives;
      forall a :: 0 <= a < |next| ==> next[a] != [] && !IsSpace(next[a][0])
  }

  lemma PatternsCommitted()
    ensures forall k :: 0 <= k < |ThreatPatterns| ==> Committed(ThreatPatterns[k])
    ensures forall k :: 0 <= k < |RefusalPatterns| ==> Committed(RefusalPatterns[k])
  {
  }

  /**
   * What the backtracking engine may match: any alternative of a choice
   * that fits, and any number of the whitespace characters at hand for
   * `\s*`.
   */
  ghost predicate RegexMatches(text: string, pat: Pattern, pos: nat, end: nat)
    requires pos <= |text|
    decreases |pat|, 1
  {
    if pat == [] then end == pos
    else if pat[0].Choice? then SomeChoiceMatches(text, pat, pos, end)
    else SomeRunMatches(text, pat, pos, end)
  }

  /** Some alternative of the leading choice fits, and the rest matches after it. */
  ghost predicate SomeChoiceMatches(text: string, pat: Pattern, pos: nat, end: nat)
    requires pos <= |text| && pat != [] && pat[0].Choice?
    decreases |pat|, 0
  {
    var alts := pat[0].alternatives;
    exists a :: 0 <= a < |alts| && TextAt(text, pos, alts[a]) && RegexMatches(text, pat[1..], pos + |alts[a]|, end)
  }

  /** The leading `\s*` takes some of the whitespace at hand, and the rest matches after it. */
  ghost predicate SomeRunMatches(text: string, pat: Pattern, pos: nat, end: nat)
    requires pos <= |text| && pat != []
    decreases |pat|, 0
  {
    exists k :: pos <= k <= SkipSpaces(text, pos) && RegexMatches(text, pat[1..], k, end)
  }

  lemma CommittedSuffix(pat: Pattern)
    requires pat != [] && Committed(pat)
    ensures Committed(pat[1..])
  {
    forall i | 0 <= i < |pat[1..]| ensures PieceCommitted(pat[1..], i) {
      assert PieceCommitted(pat, i + 1);
    }
  }

  /** Case folding leaves whitespace alone and never makes whitespace. */
  lemma FoldKeepsSpace(c: char, d: char)
    requires IsSpace(c) && !IsSpace(d)
    ensures !SameIgnoringCase(c, d)
  {
  }

  /** Endings with different first letters: at most one fits, the one `FirstChoice` takes. */
  lemma OnlyChoice(text: string, pos: nat, alts: seq<string>)
    requires forall a :: 0 <= a < |alts| ==> alts[a] != []
    requires forall a, b :: 0 <= a < b < |alts| ==> FoldCase(alts[a][0]) != FoldCase(alts[b][0])
    ensures forall a :: 0 <= a < |alts| && TextAt(text, pos, alts[a]) ==> FirstChoice(text, pos, alts) == Some(a)
  {
    var c := FirstChoice(text, pos, alts);
    forall a | 0 <= a < |alts| && TextAt(text, pos, alts[a])
      ensures c == Some(a)
    {
    }
  }

  /** No ending that starts with a non-space character fits at a whitespace character. */
  lemma NoChoiceAtSpace(text: string, k: nat, alts: seq<string>)
    requires k < |text| && IsSpace(text[k])
    requires forall a :: 0 <= a < |alts| ==> alts[a] != [] && !IsSpace(alts[a][0])
    ensures forall a :: 0 <= a < |alts| ==> !TextAt(text, k, alts[a])
  {
    forall a | 0 <= a < |alts| ensures !TextAt(text, k, alts[a]) {
      FoldKeepsSpace(text[k], alts[a][0]);
    }
  }

  /**
   * For a committed pattern, the committed match is the only one: the
   * backtracking engine, whatever order it tries things in, ends where
   * `MatchFrom` does, and fails where it fails.
   */
  lemma {:induction false} CommittedMatchIsOnlyMatch(text: string, pat: Pattern, pos: nat, end: nat)
    requires pos <= |text| && Committed(pat)
    ensures RegexMatches(text, pat, pos, end) <==> MatchFrom(text, pat, pos) == Some(end)
    decreases |pat|, 1
  {
    if pat != [] {
      if pat[0].Choice? {
        ChoiceOnlyMatch(text, pat, pos, end);
      } else {
        SpacesOnlyMatch(text, pat, pos, end);
      }
    }
  }

  lemma {:induction false} ChoiceOnlyMatch(text: string, pat: Pattern, pos: nat, end: nat)
    requires pos <= |text| && Committed(pat) && pat != [] && pat[0].Choice?
    ensures RegexMatches(text, pat, pos, end) <==> MatchFrom(text, pat, pos) == Some(end)
    decreases |pat|, 0
  {
    CommittedSuffix(pat);
    assert PieceCommitted(pat, 0);
    var alts := pat[0].alternatives;
    OnlyChoice(text, pos, alts);
    var c := FirstChoice(text, pos, alts);
    if c.Some? {
      var next := pos + |alts[c.value]|;
      CommittedMatchIsOnlyMatch(text, pat[1..], next, end);
      assert MatchFrom(text, pat, pos) == MatchFrom(text, pat[1..], next);
      if RegexMatches(text, pat, pos, end) {
        assert SomeChoiceMatches(text, pat, pos, end);
        var a :| 0 <= a < |alts| && TextAt(text, pos, alts[a]) && RegexMatches(text, pat[1..], pos + |alts[a]|, end);
        assert a == c.value;
      }
      if MatchFrom(text, pat, pos) == Some(end) {
        assert TextAt(text, pos, alts[c.value]) && RegexMatches(text, pat[1..], next, end);
        assert SomeChoiceMatches(text, pat, pos, end);
      }
    } else {
      assert MatchFrom(text, pat, pos).None?;
    }
  }

  lemma {:induction false} SpacesOnlyMatch(text: string, pat: Pattern, pos: nat, end: nat)
    requires pos <= |text| && Committed(pat) && pat != [] && pat[0].Spaces?
    ensures RegexMatches(text, pat, pos, end) <==> MatchFrom(text, pat, pos) == Some(end)
    decreases |pat|, 0
  {
    CommittedSuffix(pat);
    assert PieceCommitted(pat, 0);
    var run := SkipSpaces(text, pos);
    var rest := pat[1..];
    assert rest[0] == pat[1] && rest[0].Choice?;
    CommittedMatchIsOnlyMatch(text, rest, run, end);
    assert MatchFrom(text, pat, pos) == MatchFrom(text, rest, run);
    if RegexMatches(text, pat, pos, end) {
      assert SomeRunMatches(text, pat, pos, end);
      var k :| pos <= k <= run && RegexMatches(text, rest, k, end);
      if k < run {
        NoChoiceAtSpace(text, k, rest[0].alternatives);
        assert SomeChoiceMatches(text, rest, k, end);
        assert false;
      }
    }
    if MatchFrom(text, pat, pos) == Some(end) {
      assert RegexMatches(text, rest, run, end);
      assert SomeRunMatches(text, pat, pos, end);
    }
  }

  /**
   * `re.search` on a committed pattern: `Search` finds the leftmost position
   * where the backtracking engine can match at all, and the only end it can
   * reach from there; no match at all is reported as none.
   */
  lemma SearchIsRegexSearch(text: string, pat: Pattern)
    requires Committed(pat)
    ensures var m := Search(text, pat);
      && (m.Some? ==>
            && RegexMatches(text, pat, m.value.0, m.value.1)
            && (forall e: nat :: RegexMatches(text, pat, m.value.0, e) ==> e == m.value.1)
            && (forall p: nat, e: nat :: p < m.value.0 ==> !RegexMatches(text, pat, p, e)))
      && (m.None? ==> forall p: nat, e: nat :: p <= |text| ==> !RegexMatches(text, pat, p, e))
  {
    var m := Search(text, pat);
    forall p: nat, e: nat | p <= |text|
      ensures RegexMatches(text, pat, p, e) <==> MatchFrom(text, pat, p) == Some(e)
    {
      CommittedMatchIsOnlyMatch(text, pat, p, e);
    }
  }

  /** A search stops at the first pattern of the list with a non-empty match. */
  lemma {:induction false} FirstMatchPrefix(text: string, patterns: seq<Pattern>, n: nat, k: nat)
    requires k < n <= |patterns|
    requires var m := Search(text, patterns[k]); m.Some? && m.value.0 < m.value.1
    ensures FirstMatch(text, patterns) == FirstMatch(text, patterns[..n])
    ensures FirstMatch(text, patterns).Some?
    decreases k
  {
    assert patterns[..n][0] == patterns[0];
    if k > 0 {
      var m := Search(text, patterns[0]);
      if !(m.Some? && m.value.0 < m.value.1) {
        assert patterns[..n][1..] == patterns[1..][..n - 1];
        FirstMatchPrefix(text, patterns[1..], n - 1, k - 1);
      }
    }
  }

  /**
   * `연락\s*하지\s*마` never decides the refusal signal: wherever it
   * matches, the earlier pattern `하지\s*마` matches too, so the first match
   * always comes from `그만` or `하지\s*마`.
   */
  lemma ContactRefusalShadowed(text: string)
    requires Search(text, RefusalPatterns[3]).Some?
    ensures FirstMatch(text, RefusalPatterns).Some?
    ensures FirstMatch(text, RefusalPatterns) == FirstMatch(text, RefusalPatterns[..2])
  {
    var p := Search(text, RefusalPatterns[3]).value.0;
    var contact := RefusalPatterns[3];
    var dont := RefusalPatterns[1];
    assert contact[1..][1..] == dont;
    assert FirstChoice(text, p, ["연락"]) == Some(0);
    var q := SkipSpaces(text, p + 2);
    assert MatchFrom(text, contact, p) == MatchFrom(text, dont, q);
    var m := Search(text, dont);
    assert m.Some?;
    assert FirstChoice(text, m.value.0, ["하지"]) == Some(0);
    assert m.value.0 + 2 <= m.value.1;
    FirstMatchPrefix(text, RefusalPatterns, 2, 1);
  }

  /** `_threat_level` and `_refusal_level`: a match is 충분, no match is 부족; never 경고. */
  function KeywordSpec(text: string, patterns: seq<Pattern>, matched: string, unmatched: string): (v: Verdict)
    ensures v.level != Warning
    ensures |v.evidence| <= 1
    ensures v.level == Sufficient <==> FirstMatch(text, patterns).Some?
    ensures v.level == Sufficient ==> v.codes == [matched] && v.evidence == [TextEvidence(FirstMatch(text, patterns).value)]
    ensures v.level == Insufficient ==> v.codes == [unmatched] && v.evidence == []
  {
    var m := FirstMatch(text, patterns);
    if m.None? then Verdict(Insufficient, [unmatched], [])
    else Verdict(Sufficient, [matched], [TextEvidence(m.value)])
  }

  function ThreatSpec(text: string): Verdict {
    KeywordSpec(text, ThreatPatterns, "T_THREAT_KEYWORD_MATCH", "T_THREAT_NO_MATCH")
  }

  function RefusalSpec(text: string): Verdict {
    KeywordSpec(text, RefusalPatterns, "T_REFUSAL_KEYWORD_MATCH", "T_REFUSAL_NO_MATCH")
  }

  /** `generate_trial_signals_v0_from_text(full_text)` */
  function TextSignalsSpec(text: string): TrialOutput {
    var rep := RepetitionSpec(text);
    var thr := ThreatSpec(text);
    var ref := RefusalSpec(text);
    TrialOutput("text", "v0", "TRIAL signals v0 (text)", [
      TrialSignal("repetition", rep.level, rep.codes, rep.evidence),
      TrialSignal("threat", thr.level, thr.codes, thr.evidence),
      TrialSignal("refusal", ref.level, ref.codes, ref.evidence)])
  }

  /** `_repetition_level`: the `freq` dict is filled token by token, then its top item decides. */
  method RepetitionLevel(text: string) returns (v: Verdict)
    ensures v == RepetitionSpec(text)
  {
    var ts := Tokens(text);
    var freq, order := CountTokens(ts);
    if order == [] {
      return Verdict(Insufficient, ["T_REPETITION_NO_TOKENS"], []);
    }
    FreqFacts(ts);
    var top := TopToken(order, freq);
    var count := freq[top];
    if count >= 3 {
      var m := FindFirstMatch(text, [Literal(top)]);
      return Verdict(Sufficient, ["T_REPETITION_TOKEN_X3"], EvidenceOf(m));
    }
    if count == 2 {
      var m := FindFirstMatch(text, [Literal(top)]);
      return Verdict(Warning, ["T_REPETITION_TOKEN_X2"], EvidenceOf(m));
    }
    return Verdict(Insufficient, ["T_REPETITION_TOKEN_X1"], []);
  }

  method KeywordLevel(text: string, patterns: seq<Pattern>, matched: string, unmatched: string)
    returns (v: Verdict)
    ensures v == KeywordSpec(text, patterns, matched, unmatched)
  {
    var m := FindFirstMatch(text, patterns);
    if m.None? {
      return Verdict(Insufficient, [unmatched], []);
    }
    return Verdict(Sufficient, [matched], [TextEvidence(m.value)]);
  }

  method GenerateTrialSignalsFromText(text: string) returns (o: TrialOutput)
    ensures o == TextSignalsSpec(text)
  {
    var rep := RepetitionLevel(text);
    var thr := KeywordLevel(text, ThreatPatterns, "T_THREAT_KEYWORD_MATCH", "T_THREAT_NO_MATCH");
    var ref := KeywordLevel(text, RefusalPatterns, "T_REFUSAL_KEYWORD_MATCH", "T_REFUSAL_NO_MATCH");
    o := TrialOutput("text", "v0", "TRIAL signals v0 (text)", [
      TrialSignal("repetition", rep.level, rep.codes, rep.evidence),
      TrialSignal("threat", thr.level, thr.codes, thr.evidence),
      TrialSignal("refusal", ref.level, ref.codes, ref.evidence)]);
  }

  /** Evidence found in the text: it quotes exactly the characters its anchor points at. */
  predicate AnchoredIn(text: string, e: TrialEvidence) {
    && e.source == FromText && e.sourceField.None? && e.anchor.Some?
    && 0 <= e.anchor.value.startChar < e.anchor.value.endChar <= |text|
    && e.span == text[e.anchor.value.startChar..e.anchor.value.endChar]
  }

  /** A text-mode verdict: a text level, one reason code, at most one anchored evidence item. */
  predicate TextVerdict(text: string, v: Verdict) {
    && v.level in TextLevels && |v.codes| == 1 && |v.evidence| <= 1
    && forall j :: 0 <= j < |v.evidence| ==> AnchoredIn(text, v.evidence[j])
  }

  lemma EvidenceOfAnchored(text: string, patterns: seq<Pattern>)
    ensures |EvidenceOf(FirstMatch(text, patterns))| <= 1
    ensures forall j :: 0 <= j < |EvidenceOf(FirstMatch(text, patterns))| ==>
      AnchoredIn(text, EvidenceOf(FirstMatch(text, patterns))[j])
  {
  }

  lemma RepetitionIsTextVerdict(text: string)
    ensures TextVerdict(text, RepetitionSpec(text))
  {
    var ts := Tokens(text);
    if Keys(ts) != [] {
      EvidenceOfAnchored(text, [Literal(Top(ts))]);
    }
  }

  lemma KeywordIsTextVerdict(text: string, patterns: seq<Pattern>, matched: string, unmatched: string)
    ensures TextVerdict(text, KeywordSpec(text, patterns, matched, unmatched))
  {
    EvidenceOfAnchored(text, patterns);
  }

  /**
   * Text mode always gives the three signals repetition, threat and refusal
   * in that order, each with a text level, one reason code and at most one
   * evidence item, anchored at the span it quotes; threat and refusal are
   * never 경고.
   */
  lemma TextSignalsShape(text: string)
    ensures var o := TextSignalsSpec(text);
      && WellFormed(o) && o.mode == "text"
      && |o.signals| == 3
      && o.signals[0].name == "repetition" && o.signals[1].name == "threat" && o.signals[2].name == "refusal"
      && (forall i :: 0 <= i < 3 ==>
            TextVerdict(text, Verdict(o.signals[i].level, o.signals[i].reasonCodes, o.signals[i].evidence)))
      && o.signals[1].level != Warning && o.signals[2].level != Warning
  {
    RepetitionIsTextVerdict(text);
    KeywordIsTextVerdict(text, ThreatPatterns, "T_THREAT_KEYWORD_MATCH", "T_THREAT_NO_MATCH");
    KeywordIsTextVerdict(text, RefusalPatterns, "T_REFUSAL_KEYWORD_MATCH", "T_REFUSAL_NO_MATCH");
    TextRecordShape(text, RepetitionSpec(text), ThreatSpec(text), RefusalSpec(text));
  }

  /** The text-mode record built from three text verdicts. */
  lemma TextRecordShape(text: string, rep: Verdict, thr: Verdict, ref: Verdict)
    requires TextVerdict(text, rep) && TextVerdict(text, thr) && TextVerdict(text, ref)
    ensures var o := TrialOutput("text", "v0", "TRIAL signals v0 (text)", [
        TrialSignal("repetition", rep.level, rep.codes, rep.evidence),
        TrialSignal("threat", thr.level, thr.codes, thr.evidence),
        TrialSignal("refusal", ref.level, ref.codes, ref.evidence)]);
      && WellFormed(o)
      && forall i :: 0 <= i < 3 ==>
           TextVerdict(text, Verdict(o.signals[i].level, o.signals[i].reasonCodes, o.signals[i].evidence))
  {
    var o := TrialOutput("text", "v0", "TRIAL signals v0 (text)", [
        TrialSignal("repetition", rep.level, rep.codes, rep.evidence),
        TrialSignal("threat", thr.level, thr.codes, thr.evidence),
        TrialSignal("refusal", ref.level, ref.codes, ref.evidence)]);
    forall i | 0 <= i < 3
      ensures TextVerdict(text, Verdict(o.signals[i].level, o.signals[i].reasonCodes, o.signals[i].evidence))
    {
      var v := if i == 0 then rep else if i == 1 then thr else ref;
      assert Verdict(o.signals[i].level, o.signals[i].reasonCodes, o.signals[i].evidence) == v;
    }
  }
}
