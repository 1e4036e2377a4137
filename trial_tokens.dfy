/**
 * The tokens of a transcript and the frequency dict the repetition signal
 * builds from them: runs of non-whitespace characters, and the counts of
 * those of four or more characters in order of first occurrence.
 */
module TrialTokens {
  import opened Text
  // ----- tokens -----

  /**
   * `[t.strip() for t in re.split(r"\s+", full_text) if t.strip()]`: the
   * maximal runs of non-whitespace characters, in order.
   */
  function Tokens(s: string): (r: seq<string>)
    ensures s != [] && !IsSpace(s[|s| - 1]) ==> r != []
    decreases |s|
  {
    if s == [] then []
    else
      var init := s[..|s| - 1];
      var c := s[|s| - 1];
      var ts := Tokens(init);
      if IsSpace(c) then ts
      else if init != [] && !IsSpace(init[|init| - 1]) then
        ts[..|ts| - 1] + [ts[|ts| - 1] + [c]]
      else
        ts + [[c]]
  }

  /** A text that ends in a non-space character ends with its last token. */
  lemma {:induction false} LastTokenEnds(s: string)
    requires s != [] && !IsSpace(s[|s| - 1])
    ensures EndsWith(s, Tokens(s)[|Tokens(s)| - 1])
    decreases |s|
  {
    var init := s[..|s| - 1];
    var c := s[|s| - 1];
    var r := Tokens(s);
    assert s == init + [c];
    if init != [] && !IsSpace(init[|init| - 1]) {
      LastTokenEnds(init);
      var t := Tokens(init)[|Tokens(init)| - 1];
      assert r[|r| - 1] == t + [c];
      assert s[|s| - |t| - 1..] == init[|init| - |t|..] + [c];
    } else {
      assert r[|r| - 1] == [c];
    }
  }

  /** Tokens are non-empty and hold no whitespace. */
  lemma {:induction false} TokensShape(s: string)
    ensures forall i :: 0 <= i < |Tokens(s)| ==> Tokens(s)[i] != [] && NoSpace(Tokens(s)[i])
    decreases |s|
  {
    if s != [] {
      var init := s[..|s| - 1];
      var c := s[|s| - 1];
      var ts := Tokens(init);
      var r := Tokens(s);
      TokensShape(init);
      if IsSpace(c) {
        assert r == ts;
      } else if init != [] && !IsSpace(init[|init| - 1]) {
        forall i | 0 <= i < |r| ensures r[i] != [] && NoSpace(r[i]) {
          if i < |r| - 1 {
            assert r[i] == ts[i];
          } else {
            assert r[i] == ts[|ts| - 1] + [c];
          }
        }
      } else {
        forall i | 0 <= i < |r| ensures r[i] != [] && NoSpace(r[i]) {
          if i < |ts| {
            assert r[i] == ts[i];
          } else {
            assert r[i] == [c];
          }
        }
      }
    }
  }

  predicate NoSpace(t: string) {
    forall j :: 0 <= j < |t| ==> !IsSpace(t[j])
  }

  predicate EndsWith(s: string, t: string) {
    |t| <= |s| && s[|s| - |t|..] == t
  }

  /** The characters of `s` that are not whitespace, in order. */
  function NonSpace(s: string): string
    decreases |s|
  {
    if s == [] then []
    else NonSpace(s[..|s| - 1]) + (if IsSpace(s[|s| - 1]) then [] else [s[|s| - 1]])
  }

  function Concat(ts: seq<string>): string
    decreases |ts|
  {
    if ts == [] then [] else Concat(ts[..|ts| - 1]) + ts[|ts| - 1]
  }

  /** Tokenising loses only whitespace: the tokens put together are the text without its spaces. */
  lemma {:induction false} TokensKeepText(s: string)
    ensures Concat(Tokens(s)) == NonSpace(s)
    decreases |s|
  {
    if s != [] {
      var init := s[..|s| - 1];
      var c := s[|s| - 1];
      var ts := Tokens(init);
      TokensKeepText(init);
      if !IsSpace(c) && init != [] && !IsSpace(init[|init| - 1]) {
        var r := Tokens(s);
        assert r[..|r| - 1] == ts[..|ts| - 1];
        assert ts[..|ts| - 1] + [ts[|ts| - 1]] == ts;
        assert Concat(ts) == Concat(ts[..|ts| - 1]) + ts[|ts| - 1];
        assert Concat(r) == Concat(ts[..|ts| - 1]) + (ts[|ts| - 1] + [c]);
      } else if !IsSpace(c) {
        assert Tokens(s)[..|Tokens(s)| - 1] == ts;
      }
    }
  }

  /** Every token occurs in the text. */
  lemma {:induction false} TokenOccurs(s: string, k: nat)
    requires k < |Tokens(s)|
    ensures exists p :: OccursAt(s, Tokens(s)[k], p)
    decreases |s|
  {
    var ts := Tokens(s);
    var init := s[..|s| - 1];
    var c := s[|s| - 1];
    if k == |ts| - 1 && !IsSpace(c) {
      LastTokenEnds(s);
      var p := |s| - |ts[k]|;
      assert s[p..p + |ts[k]|] == ts[k];
      assert OccursAt(s, ts[k], p);
    } else {
      EarlierTokenKept(s, k);
      TokenOccurs(init, k);
      var p :| OccursAt(init, Tokens(init)[k], p);
      OccursInLonger(init, s, ts[k], p);
    }
  }

  /** A token other than a last one the final character extends is a token of the text without it. */
  lemma EarlierTokenKept(s: string, k: nat)
    requires k < |Tokens(s)|
    requires !(k == |Tokens(s)| - 1 && !IsSpace(s[|s| - 1]))
    ensures k < |Tokens(s[..|s| - 1])| && Tokens(s)[k] == Tokens(s[..|s| - 1])[k]
  {
  }

  /** An occurrence in a prefix is an occurrence in the whole text. */
  lemma OccursInLonger(init: string, s: string, t: string, p: int)
    requires init <= s && OccursAt(init, t, p)
    ensures OccursAt(s, t, p)
  {
    assert s[p..p + |t|] == init[p..p + |t|];
  }

  // ----- the frequency dict -----

  /** Only tokens of four or more characters are counted. */
  predicate Counted(t: string) {
    |t| >= 4
  }

  function CountOf(ts: seq<string>, t: string): nat
    decreases |ts|
  {
    if ts == [] then 0 else CountOf(ts[..|ts| - 1], t) + (if ts[|ts| - 1] == t then 1 else 0)
  }

  /** The values of `freq` after the loop over `ts`. */
  function FreqOf(ts: seq<string>): map<string, nat>
    decreases |ts|
  {
    if ts == [] then map[]
    else
      var f := FreqOf(ts[..|ts| - 1]);
      var t := ts[|ts| - 1];
      if !Counted(t) then f else f[t := (if t in f then f[t] else 0) + 1]
  }

  /** The keys of `freq` in insertion order. */
  function Keys(ts: seq<string>): seq<string>
    decreases |ts|
  {
    if ts == [] then []
    else
      var k := Keys(ts[..|ts| - 1]);
      var t := ts[|ts| - 1];
      if !Counted(t) || t in k then k else k + [t]
  }

  /** Index of the first occurrence of `t`. */
  function FirstIndex(ts: seq<string>, t: string): (r: nat)
    requires t in ts
    ensures r < |ts| && ts[r] == t && forall i :: 0 <= i < r ==> ts[i] != t
    decreases |ts|
  {
    var init := ts[..|ts| - 1];
    if t in init then FirstIndex(init, t) else |ts| - 1
  }

  /**
   * The dict counts the long tokens: its keys are the long tokens, each once,
   * in order of first occurrence, and each maps to its number of occurrences.
   */
  lemma {:induction false} FreqFacts(ts: seq<string>)
    ensures forall t :: t in FreqOf(ts) <==> Counted(t) && t in ts
    ensures forall t :: t in FreqOf(ts) ==> FreqOf(ts)[t] == CountOf(ts, t)
    ensures forall t :: t in Keys(ts) <==> t in FreqOf(ts)
    ensures forall a, b :: 0 <= a < b < |Keys(ts)| ==>
      Keys(ts)[a] != Keys(ts)[b] && FirstIndex(ts, Keys(ts)[a]) < FirstIndex(ts, Keys(ts)[b])
    decreases |ts|
  {
    if ts != [] {
      var init := ts[..|ts| - 1];
      var t := ts[|ts| - 1];
      FreqFacts(init);
      assert forall u :: u in ts <==> u in init || u == t;
      forall u | u in FreqOf(ts)
        ensures FreqOf(ts)[u] == CountOf(ts, u)
      {
        if u != t && u in init {
          assert CountOf(ts, u) == CountOf(init, u);
        }
        if u == t && t !in init {
          assert CountOf(init, t) == 0 by { CountAbsent(init, t); }
        }
      }
      var k := Keys(init);
      forall a, b | 0 <= a < b < |Keys(ts)|
        ensures Keys(ts)[a] != Keys(ts)[b] && FirstIndex(ts, Keys(ts)[a]) < FirstIndex(ts, Keys(ts)[b])
      {
        assert Keys(ts)[a] in k && Keys(ts)[a] in init;
        assert FirstIndex(ts, Keys(ts)[a]) == FirstIndex(init, Keys(ts)[a]) < |init|;
        if b < |k| {
          assert Keys(ts)[b] in init;
        } else {
          assert Keys(ts)[b] == t && t !in init;
        }
      }
    }
  }

  lemma {:induction false} CountAbsent(ts: seq<string>, t: string)
    requires t !in ts
    ensures CountOf(ts, t) == 0
    decreases |ts|
  {
    if ts != [] {
      assert forall u :: u in ts[..|ts| - 1] ==> u in ts;
      CountAbsent(ts[..|ts| - 1], t);
    }
  }

  /**
   * `max(freq.items(), key=lambda kv: kv[1])`: the first key, in insertion
   * order, with the largest count.
   */
  function TopToken(keys: seq<string>, freq: map<string, nat>): (r: string)
    requires keys != [] && forall k :: k in keys ==> k in freq
    ensures r in keys
    decreases |keys|
  {
    if |keys| == 1 then keys[0]
    else
      var best := TopToken(keys[..|keys| - 1], freq);
      var last := keys[|keys| - 1];
      if freq[last] > freq[best] then last else best
  }

  /** The top key has the largest count, and every key before it a smaller one. */
  lemma {:induction false} TopTokenIsFirstMaximum(keys: seq<string>, freq: map<string, nat>)
    requires keys != [] && forall k :: k in keys ==> k in freq
    requires forall a, b :: 0 <= a < b < |keys| ==> keys[a] != keys[b]
    ensures var top := TopToken(keys, freq);
      && (forall k :: k in keys ==> freq[k] <= freq[top])
      && (forall a :: 0 <= a < |keys| && keys[a] != top && (forall b :: 0 <= b < |keys| && keys[b] == top ==> a < b) ==>
            freq[keys[a]] < freq[top])
    decreases |keys|
  {
    if |keys| > 1 {
      var init := keys[..|keys| - 1];
      assert forall k :: k in init ==> k in keys;
      TopTokenIsFirstMaximum(init, freq);
      var top := TopToken(keys, freq);
      var best := TopToken(init, freq);
      forall a | 0 <= a < |keys| && keys[a] != top && (forall b :: 0 <= b < |keys| && keys[b] == top ==> a < b)
        ensures freq[keys[a]] < freq[top]
      {
        if top == best {
          var bi :| 0 <= bi < |init| && init[bi] == best;
          assert keys[bi] == top;
          assert a < bi;
          assert init[a] == keys[a];
        } else {
          assert top == keys[|keys| - 1];
          assert keys[a] in init by { assert a < |keys| - 1; assert init[a] == keys[a]; }
        }
      }
    }
  }

  /** The token `_repetition_level` reports: the first most frequent long token. */
  function Top(ts: seq<string>): (r: string)
    requires Keys(ts) != []
    ensures r in Keys(ts) && r in FreqOf(ts)
  {
    FreqFacts(ts);
    TopToken(Keys(ts), FreqOf(ts))
  }

  /** There is a long token exactly when the dict has a key. */
  lemma NoKeysNoLongTokens(ts: seq<string>)
    ensures Keys(ts) == [] <==> forall i :: 0 <= i < |ts| ==> !Counted(ts[i])
  {
    FreqFacts(ts);
    if Keys(ts) != [] {
      assert Keys(ts)[0] in FreqOf(ts);
    } else {
      forall i | 0 <= i < |ts| ensures !Counted(ts[i]) {
        assert ts[i] in ts;
      }
    }
  }

  /**
   * The reported token is a long token that occurs at least as often as any
   * other, and every long token seen before its first occurrence occurs
   * strictly less often.
   */
  lemma TopIsFirstMostFrequent(ts: seq<string>)
    requires Keys(ts) != []
    ensures var top := Top(ts);
      && top in ts && Counted(top) && FreqOf(ts)[top] == CountOf(ts, top)
      && (forall i :: 0 <= i < |ts| && Counted(ts[i]) ==> CountOf(ts, ts[i]) <= CountOf(ts, top))
      && (forall i :: 0 <= i < FirstIndex(ts, top) && Counted(ts[i]) ==> CountOf(ts, ts[i]) < CountOf(ts, top))
  {
    var keys := Keys(ts);
    FreqFacts(ts);
    var freq := FreqOf(ts);
    var top := Top(ts);
    TopTokenIsFirstMaximum(keys, freq);
    forall i | 0 <= i < |ts| && Counted(ts[i])
      ensures CountOf(ts, ts[i]) <= CountOf(ts, top)
    {
      assert ts[i] in ts && ts[i] in keys;
    }
    forall i | 0 <= i < FirstIndex(ts, top) && Counted(ts[i])
      ensures CountOf(ts, ts[i]) < CountOf(ts, top)
    {
      assert ts[i] in ts && ts[i] in keys;
      var a :| 0 <= a < |keys| && keys[a] == ts[i];
      var b :| 0 <= b < |keys| && keys[b] == top;
      assert FirstIndex(ts, ts[i]) <= i;
      assert ts[i] != top;
      forall b' | 0 <= b' < |keys| && keys[b'] == top ensures a < b' {
        assert b' == b;
      }
    }
  }

  /** One more token: the dict and its key order after `ts[..i + 1]`. */
  lemma FreqStep(ts: seq<string>, i: nat)
    requires i < |ts|
    ensures var t := ts[i];
      var f := FreqOf(ts[..i]);
      && (t in f <==> t in Keys(ts[..i]))
      && FreqOf(ts[..i + 1]) == (if !Counted(t) then f else f[t := (if t in f then f[t] else 0) + 1])
      && Keys(ts[..i + 1]) == (if !Counted(t) || t in f then Keys(ts[..i]) else Keys(ts[..i]) + [t])
  {
    assert ts[..i + 1][..i] == ts[..i];
    FreqFacts(ts[..i]);
  }

  /** The counting loop of `_repetition_level`: `freq[t] = freq.get(t, 0) + 1` for each long token. */
  method CountTokens(ts: seq<string>) returns (freq: map<string, nat>, order: seq<string>)
    ensures freq == FreqOf(ts) && order == Keys(ts)
  {
    freq := map[];
    order := [];
    var i := 0;
    while i < |ts|
      invariant 0 <= i <= |ts|
      invariant freq == FreqOf(ts[..i]) && order == Keys(ts[..i])
    {
      FreqStep(ts, i);
      var t := ts[i];
      if |t| >= 4 {
        if t !in freq {
          order := order + [t];
        }
        freq := freq[t := (if t in freq then freq[t] else 0) + 1];
      }
      i := i + 1;
    }
    assert ts[..i] == ts;
  }
}
