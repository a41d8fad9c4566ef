/**
 The topic classifier's ranking: a score per topic profile, a stable descending sort,
 and the cut-offs that pick the primary and the secondary topics.
 */
module TopicClassifier {
  import opened Common

  /** A topic's name, keywords, number of patterns and weight. */
  datatype Profile = Profile(name: string, keywords: seq<string>, patterns: nat, weight: real)

  /** Which keywords of a profile match the mail, and the text each pattern matches, if any. */
  datatype Hits = Hits(keyword: nat -> bool, pattern: nat -> Option<string>)

  /** A topic that scored, with what matched. */
  datatype Scored = Scored(profile: Profile, score: real, matched: seq<string>)

  datatype TopicResult = TopicResult(primary: string, secondary: seq<string>, confidence: real, matched: seq<string>)

  const GENERAL := TopicResult("general", [], 0.0, [])

  /** The matching ones among the first `n` keywords. */
  function KeywordHits(p: Profile, h: Hits, n: nat): seq<string>
    requires n <= |p.keywords|
  {
    if n == 0 then [] else KeywordHits(p, h, n - 1) + if h.keyword(n - 1) then [p.keywords[n - 1]] else []
  }

  /** The matches of the first `n` patterns, as they are listed. */
  function PatternHits(h: Hits, n: nat): seq<string> {
    if n == 0 then []
    else
      var hit := h.pattern(n - 1);
      PatternHits(h, n - 1) + if hit.Some? then ["[pattern: " + hit.value + "]"] else []
  }

  function Weighted(points: nat, p: Profile): real {
    points as real * p.weight
  }

  function ScoreOf(p: Profile, h: Hits): Scored {
    var keywords, patterns := KeywordHits(p, h, |p.keywords|), PatternHits(h, p.patterns);
    Scored(p, Weighted(|keywords| + 2 * |patterns|, p), keywords + patterns)
  }

  /** The topics with a positive score, in profile order. */
  function Scores(profiles: seq<Profile>, hits: nat -> Hits, k: nat): seq<Scored>
    requires k <= |profiles|
  {
    if k == 0 then []
    else
      var scored := ScoreOf(profiles[k - 1], hits(k - 1));
      Scores(profiles, hits, k - 1) + if scored.score > 0.0 then [scored] else []
  }

  // ---- The sort --------------------------------------------------------------------

  /** Inserts after every topic that scores at least as high. */
  function Place(ranked: seq<Scored>, x: Scored): seq<Scored> {
    if ranked == [] || ranked[|ranked| - 1].score >= x.score then ranked + [x]
    else Place(ranked[..|ranked| - 1], x) + [ranked[|ranked| - 1]]
  }

  function Ranked(s: seq<Scored>): seq<Scored> {
    if s == [] then [] else Place(Ranked(s[..|s| - 1]), s[|s| - 1])
  }

  predicate Descending(s: seq<Scored>) {
    forall i, j :: 0 <= i < j < |s| ==> s[i].score >= s[j].score
  }

  lemma {:induction false} PlaceKeeps(r: seq<Scored>, x: Scored)
    ensures multiset(Place(r, x)) == multiset(r) + multiset{x}
  {
    if r != [] && r[|r| - 1].score < x.score {
      assert r == r[..|r| - 1] + [r[|r| - 1]];
      PlaceKeeps(r[..|r| - 1], x);
    }
  }

  lemma {:induction false} PlaceDescending(r: seq<Scored>, x: Scored)
    requires Descending(r)
    ensures Descending(Place(r, x))
  {
    if r != [] && r[|r| - 1].score < x.score {
      var init, last := r[..|r| - 1], r[|r| - 1];
      PlaceDescending(init, x);
      PlaceKeeps(init, x);
      var p := Place(init, x);
      forall k | 0 <= k < |p| ensures p[k].score >= last.score {
        assert p[k] in multiset(init) + multiset{x};
      }
    }
  }

  /** The ranking lists the same topics by falling score. */
  lemma {:induction false} RankedSorts(s: seq<Scored>)
    ensures Descending(Ranked(s)) && multiset(Ranked(s)) == multiset(s)
  {
    if s != [] {
      assert s == s[..|s| - 1] + [s[|s| - 1]];
      RankedSorts(s[..|s| - 1]);
      PlaceDescending(Ranked(s[..|s| - 1]), s[|s| - 1]);
      PlaceKeeps(Ranked(s[..|s| - 1]), s[|s| - 1]);
    }
  }

  /** The topics of one score, in order. */
  function Level(s: seq<Scored>, score: real): seq<Scored> {
    if s == [] then [] else Level(s[..|s| - 1], score) + if s[|s| - 1].score == score then [s[|s| - 1]] else []
  }

  lemma LevelAppend(s: seq<Scored>, x: Scored, score: real)
    ensures Level(s + [x], score) == Level(s, score) + if x.score == score then [x] else []
  {
    assert (s + [x])[..|s|] == s;
  }

  lemma {:induction false} PlaceStable(r: seq<Scored>, x: Scored, score: real)
    requires Descending(r)
    ensures Level(Place(r, x), score) == Level(r, score) + if x.score == score then [x] else []
  {
    if r == [] || r[|r| - 1].score >= x.score {
      LevelAppend(r, x, score);
    } else {
      var init, last := r[..|r| - 1], r[|r| - 1];
      assert r == init + [last];
      PlaceStable(init, x, score);
      LevelAppend(Place(init, x), last, score);
      LevelAppend(init, last, score);
    }
  }

  /** Topics of equal score keep their profile order. */
  lemma {:induction false} RankedStable(s: seq<Scored>, score: real)
    ensures Level(Ranked(s), score) == Level(s, score)
  {
    if s != [] {
      var init, last := s[..|s| - 1], s[|s| - 1];
      assert s == init + [last];
      RankedStable(init, score);
      RankedSorts(init);
      PlaceStable(Ranked(init), last, score);
      LevelAppend(init, last, score);
    }
  }

  // ---- The choice --------------------------------------------------------------------

  /** At least 30% of the primary's score. */
  predicate Close(x: Scored, primary: Scored) {
    x.score >= primary.score * 0.3
  }

  function Qualified(ranked: seq<Scored>, primary: Scored): seq<string> {
    if ranked == [] then []
    else Qualified(ranked[..|ranked| - 1], primary)
         + if Close(ranked[|ranked| - 1], primary) then [ranked[|ranked| - 1].profile.name] else []
  }

  const MAX_LISTED := 3
  const MAX_MATCHED := 5

  function Choose(scores: seq<Scored>): TopicResult {
    if scores == [] then GENERAL
    else
      var ranked := Ranked(scores);
      if ranked == [] then GENERAL
      else
        var secondary := Qualified(ranked[1..], ranked[0]);
        TopicResult(ranked[0].profile.name, secondary[..Min(MAX_LISTED, |secondary|)], Confidence(ranked[0]),
                    ranked[0].matched[..Min(MAX_MATCHED, |ranked[0].matched|)])
  }

  /** The points a profile could reach, counted as the confidence counts them. */
  function Possible(p: Profile): nat {
    Max(|p.keywords| + 2 * p.patterns, 1)
  }

  /** Three times the primary's share of what was possible, at most 1. */
  function Share(primary: Scored): real {
    var share := primary.score / Possible(primary.profile) as real * 3.0;
    if share <= 1.0 then share else 1.0
  }

  /** The share rounded to two decimals. */
  function Confidence(primary: Scored): real {
    RoundHalfEven(Share(primary) * 100.0) as real / 100.0
  }

  /** A point per matching keyword, two per matching pattern, times the weight. */
  method ScoreTopic(p: Profile, h: Hits) returns (scored: Scored)
    ensures scored == ScoreOf(p, h)
  {
    hide Weighted;
    var points := 0;
    var matched: seq<string> := [];
    for i := 0 to |p.keywords|
      invariant matched == KeywordHits(p, h, i) && points == |matched|
    {
      if h.keyword(i) { matched, points := matched + [p.keywords[i]], points + 1; }
    }
    ghost var keywords := matched;
    for i := 0 to p.patterns
      invariant matched == keywords + PatternHits(h, i) && points == |keywords| + 2 * |PatternHits(h, i)|
    {
      var hit := h.pattern(i);
      if hit.Some? { matched, points := matched + ["[pattern: " + hit.value + "]"], points + 2; }
    }
    scored := Scored(p, Weighted(points, p), matched);
  }

  /** Scores every profile, then ranks. */
  method ClassifyTopic(profiles: seq<Profile>, emptyMail: bool, hits: nat -> Hits) returns (r: TopicResult)
    ensures r == if emptyMail then GENERAL else Choose(Scores(profiles, hits, |profiles|))
    ensures emptyMail || Scores(profiles, hits, |profiles|) == [] ==> r == TopicResult("general", [], 0.0, [])
  {
    assert Choose([]) == GENERAL;
    hide ScoreOf, Choose;
    if emptyMail { return GENERAL; }
    var scores: seq<Scored> := [];
    for k := 0 to |profiles|
      invariant scores == Scores(profiles, hits, k)
    {
      var scored := ScoreTopic(profiles[k], hits(k));
      if scored.score > 0.0 { scores := scores + [scored]; }
    }
    r := Choose(scores);
  }

  ghost predicate DistinctNames(s: seq<Scored>) {
    forall i, j :: 0 <= i < j < |s| ==> s[i].profile.name != s[j].profile.name
  }

  /** The primary is the first topic, in profile order, of the highest score. */
  lemma PrimaryIsFirstMax(scores: seq<Scored>, i: nat)
    requires i < |scores|
    requires forall j :: 0 <= j < i ==> scores[j].score < scores[i].score
    requires forall j :: i < j < |scores| ==> scores[j].score <= scores[i].score
    ensures Ranked(scores) != [] && Ranked(scores)[0] == scores[i] && Choose(scores).primary == scores[i].profile.name
  {
    hide Ranked, Level, Qualified, Confidence;
    var r, top := Ranked(scores), scores[i].score;
    RankedSorts(scores);
    assert r != [] && r[0].score == top by {
      assert scores[i] in multiset(r);
      var m :| 0 <= m < |r| && r[m] == scores[i];
      assert r[0] in multiset(scores);
      var n :| 0 <= n < |scores| && scores[n] == r[0];
    }
    hide Descending;
    RankedStable(scores, top);
    FirstOfLevel(scores, i, top);
    FirstOfLevel(r, 0, top);
  }

  lemma {:induction false} FirstOfLevel(s: seq<Scored>, i: nat, score: real)
    requires i < |s| && s[i].score == score && forall j :: 0 <= j < i ==> s[j].score != score
    ensures Level(s, score) != [] && Level(s, score)[0] == s[i]
  {
    var init := s[..|s| - 1];
    if i < |s| - 1 {
      FirstOfLevel(init, i, score);
    } else {
      NoLevel(init, score);
    }
  }

  lemma {:induction false} NoLevel(s: seq<Scored>, score: real)
    requires forall j :: 0 <= j < |s| ==> s[j].score != score
    ensures Level(s, score) == []
  {
    if s != [] {
      NoLevel(s[..|s| - 1], score);
    }
  }

  /** The secondaries are the topics ranked right after the primary: all that reach
      30% of its score, cut at three. */
  lemma SecondaryIsNext(scores: seq<Scored>)
    requires scores != []
    ensures var r, c := Ranked(scores), Choose(scores);
            var n := |c.secondary|;
            && n <= 3 && n < |r|
            && (forall k :: 0 <= k < n ==>
                 c.secondary[k] == r[1 + k].profile.name && 10.0 * r[1 + k].score >= 3.0 * r[0].score)
            && (n < 3 && 1 + n < |r| ==> 10.0 * r[1 + n].score < 3.0 * r[0].score)
  {
    hide Ranked, Confidence;
    RankedSorts(scores);
    var r := Ranked(scores);
    assert |r| == |multiset(r)| == |scores|;
    QualifiedPrefix(r[1..], r[0]);
  }

  lemma {:induction false} QualifiedPrefix(s: seq<Scored>, primary: Scored)
    requires Descending(s)
    ensures var q := Qualified(s, primary);
            && |q| <= |s|
            && (forall k :: 0 <= k < |q| ==> q[k] == s[k].profile.name && Close(s[k], primary))
            && (forall k :: |q| <= k < |s| ==> !Close(s[k], primary))
  {
    if s != [] {
      QualifiedPrefix(s[..|s| - 1], primary);
    }
  }

  lemma Twice(r: seq<Scored>, i: nat, j: nat)
    requires i < j < |r| && r[i] == r[j]
    ensures multiset(r)[r[i]] >= 2
  {
    assert r == r[..j] + [r[j]] + r[j + 1..];
    assert r[i] in multiset(r[..j]);
  }

  lemma RankedDistinct(s: seq<Scored>)
    requires DistinctNames(s)
    ensures DistinctNames(Ranked(s))
  {
    hide Ranked;
    RankedSorts(s);
    var r := Ranked(s);
    forall i, j | 0 <= i < j < |r| ensures r[i].profile.name != r[j].profile.name {
      assert r[i] in multiset(s) && r[j] in multiset(s);
      if r[i] == r[j] {
        OncePerTopic(s, r[i]);
        Twice(r, i, j);
      }
    }
  }

  lemma {:induction false} OncePerTopic(s: seq<Scored>, x: Scored)
    requires DistinctNames(s)
    ensures multiset(s)[x] <= 1
  {
    if s != [] {
      var init, last := s[..|s| - 1], s[|s| - 1];
      assert s == init + [last];
      OncePerTopic(init, x);
      assert last !in multiset(init);
    }
  }

  /** No topic is named twice in a result. */
  lemma ChoiceDistinct(scores: seq<Scored>)
    requires DistinctNames(scores)
    ensures Distinct([Choose(scores).primary] + Choose(scores).secondary)
  {
    hide Ranked, Qualified, Confidence;
    if scores != [] {
      RankedDistinct(scores);
      SecondaryIsNext(scores);
    }
  }

  /** Three times the score over the points the topic's profile lists, a keyword for one
      and a pattern for two, and never above 1. */
  ghost predicate IsShare(share: real, x: Scored) {
    var listed := Max(1, |x.profile.keywords| + 2 * x.profile.patterns) as real;
    && (3.0 * x.score >= listed ==> share == 1.0)
    && (3.0 * x.score < listed ==> share * listed == 3.0 * x.score)
  }

  lemma ShareIs(x: Scored)
    requires x.score > 0.0
    ensures IsShare(Share(x), x)
  {
    var listed := Max(1, |x.profile.keywords| + 2 * x.profile.patterns) as real;
    assert Possible(x.profile) as real == listed >= 1.0;
    ScaledBack(x.score, listed);
  }

  lemma ScaledBack(score: real, listed: real)
    requires listed >= 1.0
    ensures (score / listed * 3.0) * listed == 3.0 * score
    ensures 3.0 * score >= listed <==> score / listed * 3.0 >= 1.0
  {
    var q := score / listed;
    assert q * listed == score;
    assert (q * 3.0 - 1.0) * listed == 3.0 * score - listed;
    if q * 3.0 >= 1.0 {
      assert (q * 3.0 - 1.0) * listed >= 0.0;
    } else {
      assert (1.0 - q * 3.0) * listed > 0.0;
    }
  }

  /** The confidence is the share to the nearest hundredth, between 0 and 1. It is 0 for
      general mail and for a share of at most half a hundredth, which no topic has whose
      profile lists fewer points than 600 times its weight. */
  lemma ConfidenceIsShare(profiles: seq<Profile>, hits: nat -> Hits)
    ensures var scores := Scores(profiles, hits, |profiles|);
            var c := Choose(scores).confidence;
            && 0.0 <= c <= 1.0
            && (scores == [] ==> c == 0.0)
            && (scores != [] ==>
                 && Ranked(scores) != []
                 && var top := Ranked(scores)[0];
                 && IsShare(Share(top), top)
                 && -0.005 <= c - Share(top) <= 0.005
                 && (c == 0.0 <==> Share(top) <= 0.005))
            && ((forall p :: p in profiles ==>
                  Max(1, |p.keywords| + 2 * p.patterns) as real < 600.0 * p.weight) ==>
                 (c == 0.0 <==> scores == []))
  {
    hide Ranked, Qualified, Confidence, Share, ScoreOf, Scores, IsShare;
    var s := Scores(profiles, hits, |profiles|);
    if s != [] {
      RankedSorts(s);
      ScoresFromProfiles(profiles, hits, |profiles|);
      assert |Ranked(s)| == |multiset(Ranked(s))| == |s|;
      var top := Ranked(s)[0];
      assert top in multiset(s);
      ConfidenceOf(top);
      ShareIs(top);
      var i :| 0 <= i < |profiles| && top == ScoreOf(profiles[i], hits(i)) && top.score > 0.0;
      ShareOf(profiles[i], hits(i));
    }
  }

  lemma ConfidenceOf(x: Scored)
    requires x.score > 0.0
    ensures 0.0 <= Confidence(x) <= 1.0 && -0.005 <= Confidence(x) - Share(x) <= 0.005
    ensures Confidence(x) == 0.0 <==> Share(x) <= 0.005
  {
    hide Possible;
    SharePositive(x);
    RoundsToNearest(Share(x) * 100.0);
  }

  lemma SharePositive(x: Scored)
    requires x.score > 0.0
    ensures 0.0 < Share(x) <= 1.0
  {
    hide Possible;
    assert Possible(x.profile) >= 1 by { PossiblePositive(x.profile); }
  }

  lemma PossiblePositive(p: Profile)
    ensures Possible(p) >= 1
  {
  }

  lemma ShareOf(p: Profile, h: Hits)
    requires ScoreOf(p, h).score > 0.0
    ensures Possible(p) as real < 600.0 * p.weight ==> Share(ScoreOf(p, h)) > 0.005
  {
    hide Possible, Weighted, KeywordHits, PatternHits;
    PossiblePositive(p);
    var points := |KeywordHits(p, h, |p.keywords|)| + 2 * |PatternHits(h, p.patterns)|;
    PointsCount(points, p);
    RatioAbove(Weighted(points, p), p.weight, Possible(p) as real);
  }

  lemma PointsCount(points: nat, p: Profile)
    ensures p.weight > 0.0 && Weighted(points, p) > 0.0 ==> Weighted(points, p) >= p.weight
  {
    if points > 0 && p.weight > 0.0 {
      assert (points - 1) as real * p.weight >= 0.0;
    }
  }

  lemma RatioAbove(score: real, weight: real, possible: real)
    requires possible >= 1.0
    ensures score >= weight && possible < 600.0 * weight ==> score / possible * 3.0 > 0.005
  {
    var q := score / possible;
    assert q * possible == score;
    if q <= 0.005 / 3.0 {
      assert (0.005 / 3.0 - q) * possible >= 0.0;
    }
  }

  /** What scores is a profile's own score, and positive. */
  lemma {:induction false} ScoresFromProfiles(profiles: seq<Profile>, hits: nat -> Hits, k: nat)
    requires k <= |profiles|
    ensures forall x :: x in Scores(profiles, hits, k) ==>
      x.score > 0.0 && exists i :: 0 <= i < k && x == ScoreOf(profiles[i], hits(i))
  {
    if k > 0 {
      hide ScoreOf;
      ScoresFromProfiles(profiles, hits, k - 1);
    }
  }

  /** The listed matches are the first five of the primary's, and they account for its score. */
  lemma MatchedExplains(profiles: seq<Profile>, hits: nat -> Hits)
    ensures var scores := Scores(profiles, hits, |profiles|);
            scores != [] ==>
              && Ranked(scores) != []
              && Choose(scores).matched != [] && Choose(scores).matched <= Ranked(scores)[0].matched
              && |Choose(scores).matched| <= 5
              && (|Choose(scores).matched| < 5 ==> Choose(scores).matched == Ranked(scores)[0].matched)
              && exists i :: 0 <= i < |profiles| && Ranked(scores)[0] == ScoreOf(profiles[i], hits(i))
  {
    hide Ranked, Qualified, Confidence, ScoreOf;
    var s := Scores(profiles, hits, |profiles|);
    if s != [] {
      RankedSorts(s);
      ScoresFromProfiles(profiles, hits, |profiles|);
      assert |Ranked(s)| == |multiset(Ranked(s))| == |s|;
      var top := Ranked(s)[0];
      assert top in multiset(s);
      var i :| 0 <= i < |profiles| && top == ScoreOf(profiles[i], hits(i)) && top.score > 0.0;
      PointsMatched(profiles[i], hits(i));
    }
  }

  /** The keywords among the first `n` that match. */
  function KeywordSet(h: Hits, n: nat): set<nat> {
    set i | 0 <= i < n && h.keyword(i)
  }

  function PatternSet(h: Hits, n: nat): set<nat> {
    set i | 0 <= i < n && h.pattern(i).Some?
  }

  /** The points of a profile: one for every keyword that matches, two for every pattern. */
  lemma ScoreCounts(p: Profile, h: Hits)
    ensures var keywords, patterns := |KeywordSet(h, |p.keywords|)|, |PatternSet(h, p.patterns)|;
            && ScoreOf(p, h).score == (keywords + 2 * patterns) as real * p.weight
            && |ScoreOf(p, h).matched| == keywords + patterns
  {
    KeywordsCount(p, h, |p.keywords|);
    PatternsCount(h, p.patterns);
  }

  lemma {:induction false} KeywordsCount(p: Profile, h: Hits, n: nat)
    requires n <= |p.keywords|
    ensures |KeywordHits(p, h, n)| == |KeywordSet(h, n)|
  {
    if n > 0 {
      KeywordsCount(p, h, n - 1);
      assert KeywordSet(h, n) == KeywordSet(h, n - 1) + if h.keyword(n - 1) then {n - 1} else {};
    }
  }

  lemma {:induction false} PatternsCount(h: Hits, n: nat)
    ensures |PatternHits(h, n)| == |PatternSet(h, n)|
  {
    if n > 0 {
      PatternsCount(h, n - 1);
      assert PatternSet(h, n) == PatternSet(h, n - 1) + if h.pattern(n - 1).Some? then {n - 1} else {};
    }
  }

  lemma PointsMatched(p: Profile, h: Hits)
    ensures ScoreOf(p, h).score > 0.0 ==> ScoreOf(p, h).matched != []
  {
  }
}
