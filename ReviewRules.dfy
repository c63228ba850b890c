/** The four scoring rules of the review engine, each stated as a value: the points the
    rule adds and the gaps and hints it appends. `RuleOutcome` runs them in the engine's
    fixed order (title, description, structural markers, technical keywords); the engine's
    step-by-step method is proved to compute exactly this. */
module ReviewRules {
  import opened Text

  /** What one rule contributes: its points, and the gaps and hints it appends, in order. */
  datatype Outcome = Outcome(points: int, gaps: seq<string>, hints: seq<string>)

  const NoFindings := Outcome(0, [], [])

  /** Running one rule after another: points add up, findings are appended in order. */
  function Then(a: Outcome, b: Outcome): Outcome {
    Outcome(a.points + b.points, a.gaps + b.gaps, a.hints + b.hints)
  }

  const BriefTitleGap := "Brief title reduces context."
  const BriefTitleHint := "Expand title to 40+ characters."
  const ThinDescriptionGap := "Minimal description substance."
  const ThinDescriptionHint := "Provide detailed technical context."
  const LowSpecificityGap := "Low technical specificity."
  const LowSpecificityHint := "Include technical implementation details."

  /** The structural markers, in the order they are checked. */
  const Markers: seq<string> := ["requirement", "objective", "constraint"]

  /** The technical vocabulary, in the order it is checked. */
  const TechKeywords: seq<string> :=
    ["api", "database", "schema", "validation", "security", "async", "cache", "frontend"]

  const MarkerGapPrefix := "Missing logical marker: '"

  /** The gap text for an absent marker: the marker, quoted, after a fixed prefix. The
      marker can be read back out of it. */
  function MarkerGap(marker: string): (g: string)
    ensures |g| == |MarkerGapPrefix| + |marker| + 1
    ensures g[|MarkerGapPrefix|..|g| - 1] == marker
  {
    var g := MarkerGapPrefix + marker + "'";
    assert g[|MarkerGapPrefix|..|g| - 1] == marker;
    g
  }

  /** The hint for an absent marker: the marker's plural after a fixed request. */
  function MarkerHint(marker: string): (h: string)
    ensures |h| == |marker| + 14
    ensures IsPrefix("Define task ", h) && h[|h| - 2..] == "s."
    ensures h[12..|h| - 2] == marker
  {
    var h := "Define task " + marker + "s.";
    assert h[12..|h| - 2] == marker;
    h
  }

  /** Different markers give different gap texts. */
  lemma MarkerGapInjective(a: string, b: string)
    requires MarkerGap(a) == MarkerGap(b)
    ensures a == b
  {
    var n := |MarkerGapPrefix|;
    assert a == MarkerGap(a)[n..|MarkerGap(a)| - 1];
    assert b == MarkerGap(b)[n..|MarkerGap(b)| - 1];
  }

  /** A gap and the hint beside it come from the same rule: the hint is that gap's remedy. */
  ghost predicate IsFinding(gap: string, hint: string) {
    || (gap == BriefTitleGap && hint == BriefTitleHint)
    || (gap == ThinDescriptionGap && hint == ThinDescriptionHint)
    || (gap == LowSpecificityGap && hint == LowSpecificityHint)
    || (exists m :: gap == MarkerGap(m) && hint == MarkerHint(m))
  }

  /** Gaps and hints have grown in lock step. */
  ghost predicate Paired(gaps: seq<string>, hints: seq<string>) {
    |gaps| == |hints| && forall i :: 0 <= i < |gaps| ==> IsFinding(gaps[i], hints[i])
  }

  /** What every rule keeps: non-negative points in steps of five, and paired findings. */
  ghost predicate WellFormed(o: Outcome) {
    0 <= o.points && o.points % 5 == 0 && Paired(o.gaps, o.hints)
  }

  lemma ThenAssociative(a: Outcome, b: Outcome, c: Outcome)
    ensures Then(Then(a, b), c) == Then(a, Then(b, c))
  {
    assert (a.gaps + b.gaps) + c.gaps == a.gaps + (b.gaps + c.gaps);
    assert (a.hints + b.hints) + c.hints == a.hints + (b.hints + c.hints);
  }

  lemma ThenWellFormed(a: Outcome, b: Outcome)
    requires WellFormed(a) && WellFormed(b)
    ensures WellFormed(Then(a, b))
  {
    var t := Then(a, b);
    forall i | 0 <= i < |t.gaps|
      ensures IsFinding(t.gaps[i], t.hints[i])
    {
      if i >= |a.gaps| {
        assert t.gaps[i] == b.gaps[i - |a.gaps|] && t.hints[i] == b.hints[i - |a.gaps|];
      }
    }
  }

  /** Rule 1, title depth. */
  function TitleRule(title: string): (o: Outcome)
    ensures WellFormed(o) && o.points <= 15
  {
    var n := |title|;
    if n > 40 then Outcome(15, [], [])
    else if n > 20 then Outcome(10, [], [])
    else Outcome(5, [BriefTitleGap], [BriefTitleHint])
  }

  /** Rule 2, description detail. */
  function DescriptionRule(description: string): (o: Outcome)
    ensures WellFormed(o) && o.points <= 30
  {
    var n := |description|;
    if n > 500 then Outcome(30, [], [])
    else if n > 200 then Outcome(20, [], [])
    else if n > 50 then Outcome(10, [], [])
    else Outcome(0, [ThinDescriptionGap], [ThinDescriptionHint])
  }

  /** Rule 3 for one marker, against the lower-cased description. */
  function MarkerCheck(lower: string, marker: string): (o: Outcome)
    ensures WellFormed(o)
    ensures o.points + 10 * |o.gaps| == 10
    ensures o.gaps == [] <==> Contains(lower, marker)
  {
    if Contains(lower, marker) then Outcome(10, [], [])
    else
      assert IsFinding(MarkerGap(marker), MarkerHint(marker));
      Outcome(0, [MarkerGap(marker)], [MarkerHint(marker)])
  }

  /** Rule 3 over a list of markers, checked first to last. Each marker either scores ten
      points or leaves one gap. */
  function MarkerScan(lower: string, markers: seq<string>): (o: Outcome)
    ensures WellFormed(o)
    ensures |o.gaps| <= |markers|
    ensures o.points + 10 * |o.gaps| == 10 * |markers|
    decreases |markers|
  {
    if markers == [] then NoFindings
    else
      var front := MarkerScan(lower, markers[..|markers| - 1]);
      var last := MarkerCheck(lower, markers[|markers| - 1]);
      ThenWellFormed(front, last);
      Then(front, last)
  }

  /** Scanning one more marker appends that marker's check. */
  lemma MarkerScanStep(lower: string, markers: seq<string>, i: nat)
    requires i < |markers|
    ensures MarkerScan(lower, markers[..i + 1]) == Then(MarkerScan(lower, markers[..i]), MarkerCheck(lower, markers[i]))
  {
    assert markers[..i + 1][..i] == markers[..i];
  }

  /** Rule 3, structural markers, matched case-insensitively. */
  function MarkerRule(description: string): (o: Outcome)
    ensures WellFormed(o) && o.points <= 30
  {
    MarkerScan(ToLower(description), Markers)
  }

  /** The vocabulary words found in the lower-cased description, in vocabulary order. */
  function FoundKeywords(lower: string, keywords: seq<string>): (found: seq<string>)
    ensures |found| <= |keywords|
    decreases |keywords|
  {
    if keywords == [] then []
    else (if Contains(lower, keywords[0]) then [keywords[0]] else []) + FoundKeywords(lower, keywords[1..])
  }

  /** The words found are exactly the vocabulary words that occur in the text. */
  lemma {:induction false} FoundKeywordsMembers(lower: string, keywords: seq<string>, k: string)
    ensures k in FoundKeywords(lower, keywords) <==> k in keywords && Contains(lower, k)
    decreases |keywords|
  {
    if keywords != [] {
      FoundKeywordsMembers(lower, keywords[1..], k);
      assert k in keywords <==> k == keywords[0] || k in keywords[1..];
    }
  }

  function Min(a: int, b: int): int {
    if a <= b then a else b
  }

  /** Five points a keyword found, capped at 25. */
  function KeywordPoints(count: nat): (p: int)
    ensures 0 <= p <= 25 && p % 5 == 0
  {
    var p := Min(25, count * 5);
    assert count < 5 ==> p == 5 * count;
    p
  }

  lemma KeywordPointsMonotone(count1: nat, count2: nat)
    requires count1 <= count2
    ensures KeywordPoints(count1) <= KeywordPoints(count2)
  {
  }

  /** Rule 4 once the matching words have been counted. */
  function KeywordOutcome(count: nat): (o: Outcome)
    ensures WellFormed(o) && o.points <= 25
    ensures o.points == 25 <==> count >= 5
    ensures count < 5 ==> o.points == 5 * count
    ensures o.gaps != [] <==> count < 2
  {
    if count < 2 then Outcome(KeywordPoints(count), [LowSpecificityGap], [LowSpecificityHint])
    else Outcome(KeywordPoints(count), [], [])
  }

  /** Rule 4, technical keywords, matched case-insensitively. */
  function KeywordRule(description: string): (o: Outcome)
    ensures WellFormed(o) && o.points <= 25
    ensures o.gaps == [] ==> o.points >= 10
    ensures o.gaps != [] ==> o.points <= 5
  {
    KeywordOutcome(|FoundKeywords(ToLower(description), TechKeywords)|)
  }

  /** The four rules, in the engine's order, before clamping. */
  function RuleOutcome(title: string, description: string): (o: Outcome)
    ensures WellFormed(o)
    ensures 5 <= o.points <= 100
  {
    var t := TitleRule(title);
    var d := DescriptionRule(description);
    var m := MarkerRule(description);
    var k := KeywordRule(description);
    ThenWellFormed(t, d);
    ThenWellFormed(Then(t, d), m);
    ThenWellFormed(Then(Then(t, d), m), k);
    Then(Then(Then(t, d), m), k)
  }

  // ---------------------------------------------------------------------------
  // Properties of the individual rules

  /** The title rule's three bands; it never scores zero and flags a gap exactly for a
      title of at most 20 characters. */
  lemma TitleRuleBands(title: string)
    ensures TitleRule(title).points == 15 <==> |title| > 40
    ensures TitleRule(title).points == 10 <==> 20 < |title| <= 40
    ensures TitleRule(title).points == 5 <==> |title| <= 20
    ensures TitleRule(title).gaps == [BriefTitleGap] <==> |title| <= 20
    ensures TitleRule(title).gaps == [] <==> |title| > 20
  {
  }

  /** A longer description never scores fewer description points; the gap appears exactly
      for a description of at most 50 characters. */
  lemma DescriptionRuleMonotone(shorter: string, longer: string)
    requires |shorter| <= |longer|
    ensures DescriptionRule(shorter).points <= DescriptionRule(longer).points
    ensures DescriptionRule(longer).gaps == [ThinDescriptionGap] <==> |longer| <= 50
    ensures DescriptionRule(longer).gaps == [] <==> |longer| > 50
  {
  }

  /** The description rule's four bands: 30 points over 500 characters, 20 for 201-500,
      10 for 51-200, and none at 50 or fewer. */
  lemma DescriptionRuleBands(description: string)
    ensures DescriptionRule(description).points == 30 <==> |description| > 500
    ensures DescriptionRule(description).points == 20 <==> 200 < |description| <= 500
    ensures DescriptionRule(description).points == 10 <==> 50 < |description| <= 200
    ensures DescriptionRule(description).points == 0 <==> |description| <= 50
  {
  }

  /** The marker rule's points plus ten for each of its gaps is always 30. */
  lemma MarkerPointsAndGaps(description: string)
    ensures MarkerRule(description).points + 10 * |MarkerRule(description).gaps| == 30
    ensures |MarkerRule(description).gaps| == |MarkerRule(description).hints| <= 3
  {
  }

  /** The gaps of a marker scan are exactly the gap texts of the absent markers. */
  lemma {:induction false} MarkerScanGaps(lower: string, markers: seq<string>, gap: string)
    ensures gap in MarkerScan(lower, markers).gaps <==>
            exists m :: m in markers && !Contains(lower, m) && gap == MarkerGap(m)
    decreases |markers|
  {
    if markers != [] {
      var front := markers[..|markers| - 1];
      var last := markers[|markers| - 1];
      MarkerScanGaps(lower, front, gap);
      var lastGaps := MarkerCheck(lower, last).gaps;
      assert MarkerScan(lower, markers).gaps == MarkerScan(lower, front).gaps + lastGaps;
      assert markers == front + [last];
      if gap in lastGaps {
        assert gap == MarkerGap(last) && !Contains(lower, last);
      }
      forall m | m in markers && !Contains(lower, m) && gap == MarkerGap(m)
        ensures gap in MarkerScan(lower, markers).gaps
      {
        if m == last {
          assert lastGaps == [gap];
        } else {
          assert m in front;
        }
      }
    }
  }

  /** One "Missing logical marker" gap for each absent marker, and none for a present one. */
  lemma MarkerGapIffAbsent(description: string, marker: string)
    requires marker in Markers
    ensures MarkerGap(marker) in MarkerRule(description).gaps <==> !Contains(ToLower(description), marker)
  {
    var lower := ToLower(description);
    MarkerScanGaps(lower, Markers, MarkerGap(marker));
    forall m | m in Markers && !Contains(lower, m) && MarkerGap(marker) == MarkerGap(m)
      ensures !Contains(lower, marker)
    {
      MarkerGapInjective(marker, m);
    }
  }

  /** No entry of `s` appears twice. */
  ghost predicate NoRepeats(s: seq<string>) {
    forall i, j :: 0 <= i < j < |s| ==> s[i] != s[j]
  }

  /** Scanning markers that are all different never reports the same gap twice. */
  lemma {:induction false} MarkerScanGapsDistinct(lower: string, markers: seq<string>)
    requires NoRepeats(markers)
    ensures NoRepeats(MarkerScan(lower, markers).gaps)
    decreases |markers|
  {
    if markers != [] {
      var front := markers[..|markers| - 1];
      var last := markers[|markers| - 1];
      MarkerScanGapsDistinct(lower, front);
      var fg := MarkerScan(lower, front).gaps;
      var g := MarkerScan(lower, markers).gaps;
      forall i | 0 <= i < |fg|
        ensures fg[i] != MarkerGap(last)
      {
        MarkerScanGaps(lower, front, fg[i]);
        var m :| m in front && !Contains(lower, m) && fg[i] == MarkerGap(m);
        var k :| 0 <= k < |front| && front[k] == m;
        assert markers[k] == m;
      }
      forall i, j | 0 <= i < j < |g|
        ensures g[i] != g[j]
      {
        if j < |fg| {
          assert g[i] == fg[i] && g[j] == fg[j];
        } else {
          assert g[i] == fg[i] && g[j] == MarkerGap(last);
        }
      }
    }
  }

  /** The marker rule never reports the same gap twice: the three markers are checked once
      each, and they are all different. */
  lemma MarkerRuleGapsDistinct(description: string)
    ensures NoRepeats(MarkerRule(description).gaps)
  {
    MarkerScanGapsDistinct(ToLower(description), Markers);
  }

  /** Filtering a vocabulary without repeats finds each word at most once. */
  lemma {:induction false} FoundKeywordsNoRepeats(lower: string, keywords: seq<string>)
    requires NoRepeats(keywords)
    ensures NoRepeats(FoundKeywords(lower, keywords))
    decreases |keywords|
  {
    if keywords != [] {
      var rest := keywords[1..];
      FoundKeywordsNoRepeats(lower, rest);
      FoundKeywordsMembers(lower, rest, keywords[0]);
      var f := FoundKeywords(lower, keywords);
      var fr := FoundKeywords(lower, rest);
      if Contains(lower, keywords[0]) {
        assert f == [keywords[0]] + fr;
        forall i, j | 0 <= i < j < |f|
          ensures f[i] != f[j]
        {
          if i == 0 {
            assert f[j] == fr[j - 1] && f[j] in fr;
          } else {
            assert f[i] == fr[i - 1] && f[j] == fr[j - 1];
          }
        }
      } else {
        assert f == fr;
      }
    }
  }

  /** Each vocabulary word present in the description is counted once. */
  lemma TechKeywordsCountedOnce(description: string)
    ensures NoRepeats(FoundKeywords(ToLower(description), TechKeywords))
  {
    FoundKeywordsNoRepeats(ToLower(description), TechKeywords);
  }

  /** A description with every vocabulary word keeps the whole vocabulary. */
  lemma {:induction false} FoundAllKeywords(lower: string, keywords: seq<string>)
    requires forall k :: k in keywords ==> Contains(lower, k)
    ensures FoundKeywords(lower, keywords) == keywords
    decreases |keywords|
  {
    if keywords != [] {
      FoundAllKeywords(lower, keywords[1..]);
    }
  }

  /** The keyword rule gives min(25, 5 x count) and flags a gap exactly when fewer than two
      words are found. */
  lemma KeywordRuleBands(description: string)
    ensures var count := |FoundKeywords(ToLower(description), TechKeywords)|;
            && (KeywordRule(description).points == 25 <==> count >= 5)
            && (count < 5 ==> KeywordRule(description).points == 5 * count)
            && (KeywordRule(description).gaps != [] <==> count < 2)
  {
  }

  /** The cap: a description naming all eight words still earns 25 points, not 40. */
  lemma KeywordCap(description: string)
    requires forall k :: k in TechKeywords ==> Contains(ToLower(description), k)
    ensures KeywordRule(description).points == 25
    ensures KeywordRule(description).gaps == []
  {
    FoundAllKeywords(ToLower(description), TechKeywords);
  }

  /** The marker rule can only gain points when every marker it found is still found. */
  lemma {:induction false} MarkerScanMonotone(lower1: string, lower2: string, markers: seq<string>)
    requires forall m :: m in markers && Contains(lower1, m) ==> Contains(lower2, m)
    ensures MarkerScan(lower1, markers).points <= MarkerScan(lower2, markers).points
    decreases |markers|
  {
    if markers != [] {
      MarkerScanMonotone(lower1, lower2, markers[..|markers| - 1]);
    }
  }

  /** The keyword rule finds at least as many words when every word it found is still found. */
  lemma {:induction false} FoundKeywordsMonotone(lower1: string, lower2: string, keywords: seq<string>)
    requires forall k :: k in keywords && Contains(lower1, k) ==> Contains(lower2, k)
    ensures |FoundKeywords(lower1, keywords)| <= |FoundKeywords(lower2, keywords)|
    decreases |keywords|
  {
    if keywords != [] {
      FoundKeywordsMonotone(lower1, lower2, keywords[1..]);
    }
  }

  /** Every word found in a description is still found once text is appended to it. */
  lemma LowerAppendKeepsWords(description: string, extra: string, w: string)
    requires Contains(ToLower(description), w)
    ensures Contains(ToLower(description + extra), w)
  {
    ToLowerAppend(description, extra);
    ContainsAppend(ToLower(description), ToLower(extra), w);
  }

  lemma MarkerRuleAppend(description: string, extra: string)
    ensures MarkerRule(description).points <= MarkerRule(description + extra).points
  {
    forall w | Contains(ToLower(description), w)
      ensures Contains(ToLower(description + extra), w)
    {
      LowerAppendKeepsWords(description, extra, w);
    }
    MarkerScanMonotone(ToLower(description), ToLower(description + extra), Markers);
  }

  lemma KeywordRuleAppend(description: string, extra: string)
    ensures KeywordRule(description).points <= KeywordRule(description + extra).points
  {
    var lower1 := ToLower(description);
    var lower2 := ToLower(description + extra);
    forall w | Contains(lower1, w)
      ensures Contains(lower2, w)
    {
      LowerAppendKeepsWords(description, extra, w);
    }
    FoundKeywordsMonotone(lower1, lower2, TechKeywords);
    KeywordPointsMonotone(|FoundKeywords(lower1, TechKeywords)|, |FoundKeywords(lower2, TechKeywords)|);
  }

  /** Appending text to a description never lowers the rule total: it can only lengthen the
      description and add markers or keywords. */
  lemma AppendNeverLowersScore(title: string, description: string, extra: string)
    ensures RuleOutcome(title, description).points <= RuleOutcome(title, description + extra).points
  {
    DescriptionRuleMonotone(description, description + extra);
    MarkerRuleAppend(description, extra);
    KeywordRuleAppend(description, extra);
  }

  /** The description is matched case-insensitively: descriptions that agree once
      lower-cased get the same findings and points. */
  lemma RuleOutcomeCaseInsensitive(title: string, description1: string, description2: string)
    requires ToLower(description1) == ToLower(description2)
    ensures RuleOutcome(title, description1) == RuleOutcome(title, description2)
  {
  }
}
