/** The learning insights panel: the decision logs are counted by suggestion
    type, the most frequently accepted and rejected types and the strongest
    type preference become at most three insights, and fewer than three
    decisions in all show a learning-status panel instead. The icons, which
    only repeat the colour, are left out. */
module LearningInsights {
  import opened Util
  import opened Text
  import opened Records

  datatype Insight = Insight(color: string, text: string, strength: real)

  /** What the component renders: the status panel with the decision count and
      progress bar width, or the list of insights. */
  datatype Panel = LearningStatus(decisions: nat, progress: real) | InsightList(insights: seq<Insight>)

  // --------------------------------------------------------- counting

  /** How many logged decisions have type `t`. */
  function Occurrences(ps: seq<Pattern>, t: string): nat
    decreases |ps|
  {
    if |ps| == 0 then 0
    else Occurrences(ps[..|ps| - 1], t) + (if ps[|ps| - 1].pType == t then 1 else 0)
  }

  /** `byType[pattern.type] = (byType[pattern.type] || 0) + 1` over the log, in
      order: the types in order of first appearance with their counts. */
  function TypeCounts(ps: seq<Pattern>): Dict<string, real>
    decreases |ps|
  {
    if |ps| == 0 then []
    else Accumulate(TypeCounts(ps[..|ps| - 1]), ps[|ps| - 1].pType, 1.0)
  }

  /** The counting loop of `getTopInsights`. */
  method CountTypes(ps: seq<Pattern>) returns (counts: Dict<string, real>)
    ensures counts == TypeCounts(ps)
    ensures forall t :: Get(counts, t) == (if Occurrences(ps, t) == 0 then None else Some(Occurrences(ps, t) as real))
  {
    counts := [];
    var i := 0;
    while i < |ps|
      invariant 0 <= i <= |ps|
      invariant counts == TypeCounts(ps[..i])
    {
      assert ps[..i + 1][..i] == ps[..i];
      counts := Accumulate(counts, ps[i].pType, 1.0);
      i := i + 1;
    }
    assert ps[..i] == ps;
    forall t ensures Get(counts, t) == (if Occurrences(ps, t) == 0 then None else Some(Occurrences(ps, t) as real)) {
      TypeCountsGet(ps, t);
    }
  }

  /** The count stored under a type is its number of occurrences, and a type
      that never occurs has no entry. */
  lemma {:induction false} TypeCountsGet(ps: seq<Pattern>, t: string)
    ensures Get(TypeCounts(ps), t) == (if Occurrences(ps, t) == 0 then None else Some(Occurrences(ps, t) as real))
    decreases |ps|
  {
    if |ps| > 0 {
      TypeCountsGet(ps[..|ps| - 1], t);
    }
  }

  /** The counts are positive, one entry per type, empty exactly for an empty
      log, and they add up to the length of the log. */
  lemma {:induction false} TypeCountsShape(ps: seq<Pattern>)
    ensures AllPositive(TypeCounts(ps)) && DistinctKeys(TypeCounts(ps))
    ensures ValuesSum(TypeCounts(ps)) == |ps| as real
    ensures |TypeCounts(ps)| == 0 <==> |ps| == 0
    decreases |ps|
  {
    if |ps| > 0 {
      var d := TypeCounts(ps[..|ps| - 1]);
      var k := ps[|ps| - 1].pType;
      TypeCountsShape(ps[..|ps| - 1]);
      GetPositive(d, k);
      PutPositive(d, k, Get(d, k).GetOr(0.0) + 1.0);
      PutDistinct(d, k, Get(d, k).GetOr(0.0) + 1.0);
      AccumulateSum(d, k, 1.0);
      assert Get(TypeCounts(ps), k).Some?;
    }
  }

  lemma {:induction false} HasKeyIndex(d: Dict<string, real>, k: string)
    ensures HasKey(d, k) <==> exists i :: 0 <= i < |d| && d[i].0 == k
    decreases |d|
  {
    if |d| > 0 {
      HasKeyIndex(d[1..], k);
      if HasKey(d[1..], k) {
        var i :| 0 <= i < |d[1..]| && d[1..][i].0 == k;
        assert d[i + 1].0 == k;
      }
      if exists i :: 0 <= i < |d| && d[i].0 == k {
        var i :| 0 <= i < |d| && d[i].0 == k;
        if i > 0 {
          assert d[1..][i - 1].0 == k;
        }
      }
    }
  }

  lemma PutDistinct(d: Dict<string, real>, k: string, v: real)
    requires DistinctKeys(d)
    ensures DistinctKeys(Put(d, k, v))
  {
    var r := Put(d, k, v);
    if HasKey(d, k) {
      assert forall i :: 0 <= i < |r| ==> r[i].0 == Keys(r)[i] == Keys(d)[i] == d[i].0;
    } else {
      HasKeyIndex(d, k);
    }
  }

  /** In a dictionary with distinct keys every entry is what a lookup of its key finds. */
  lemma {:induction false} DistinctGet(d: Dict<string, real>, i: int)
    requires DistinctKeys(d) && 0 <= i < |d|
    ensures Get(d, d[i].0) == Some(d[i].1)
    decreases i
  {
    if i > 0 {
      assert d[0].0 != d[i].0;
      DistinctGet(d[1..], i - 1);
    }
  }

  lemma {:induction false} EntryAtMostSum(d: Dict<string, real>, i: int)
    requires AllPositive(d) && 0 <= i < |d|
    ensures d[i].1 <= ValuesSum(d)
    decreases i
  {
    if i > 0 {
      EntryAtMostSum(d[1..], i - 1);
    }
    if |d| > 1 {
      assert AllPositive(d[1..]);
      ValuesSumNonNegative(d[1..]);
    }
  }

  lemma {:induction false} ValuesSumNonNegative(d: Dict<string, real>)
    requires AllPositive(d)
    ensures ValuesSum(d) >= 0.0
    decreases |d|
  {
    if |d| > 0 {
      ValuesSumNonNegative(d[1..]);
    }
  }

  // ---------------------------------------------------------- ranking

  /** The first type among the most frequent ones, in order of first appearance:
      the head of the counts sorted by descending count. */
  function TopType(ps: seq<Pattern>): (t: string)
    requires |ps| > 0
    ensures Occurrences(ps, t) > 0
    ensures forall u :: Occurrences(ps, u) <= Occurrences(ps, t)
    ensures |TypeCounts(ps)| > 0 && t == TypeCounts(ps)[ArgMaxFirst(Values(TypeCounts(ps)))].0
  {
    TypeCountsShape(ps);
    var d := TypeCounts(ps);
    var i := ArgMaxFirst(Values(d));
    SortDescHead(d);
    TopTypeIsMostFrequent(ps, i);
    SortDesc(d)[0].0
  }

  lemma TopTypeIsMostFrequent(ps: seq<Pattern>, i: int)
    requires |ps| > 0 && |TypeCounts(ps)| > 0 && i == ArgMaxFirst(Values(TypeCounts(ps)))
    ensures Occurrences(ps, TypeCounts(ps)[i].0) > 0
    ensures Occurrences(ps, TypeCounts(ps)[i].0) as real == TypeCounts(ps)[i].1
    ensures forall u :: Occurrences(ps, u) <= Occurrences(ps, TypeCounts(ps)[i].0)
  {
    var d := TypeCounts(ps);
    TypeCountsShape(ps);
    DistinctGet(d, i);
    TypeCountsGet(ps, d[i].0);
    forall u ensures Occurrences(ps, u) <= Occurrences(ps, d[i].0) {
      TypeCountsGet(ps, u);
      if Occurrences(ps, u) > 0 {
        HasKeyIndex(d, u);
        var j :| 0 <= j < |d| && d[j].0 == u;
        DistinctGet(d, j);
        assert Values(d)[j] <= Values(d)[i];
      }
    }
  }

  /** The share of the log taken by the most frequent type, as a percentage:
      `count / log.length * 100`, in (0, 100]. */
  function TopShare(ps: seq<Pattern>): (s: real)
    requires |ps| > 0
    ensures s == Occurrences(ps, TopType(ps)) as real / |ps| as real * 100.0
    ensures 0.0 < s <= 100.0
  {
    var d := TypeCounts(ps);
    TypeCountsShape(ps);
    var i := ArgMaxFirst(Values(d));
    SortDescHead(d);
    TopTypeIsMostFrequent(ps, i);
    EntryAtMostSum(d, i);
    ShareBounds(d[i].1, |ps| as real);
    SortDesc(d)[0].1 / |ps| as real * 100.0
  }

  lemma ShareBounds(c: real, n: real)
    requires 0.0 < c <= n
    ensures 0.0 < c / n * 100.0 <= 100.0
  {
    DivAtMost(c, 1.0, n);
  }

  /** The accepted or rejected insight: the top type of a log with its share,
      absent for an empty log. */
  function LogInsight(ps: seq<Pattern>, color: string, verb: string): (r: Option<Insight>)
    ensures r.None? <==> |ps| == 0
    ensures r.Some? ==> r.value.color == color
    ensures r.Some? ==> r.value.text == verb + ReplaceFirst(TopType(ps), '_', ' ') + " suggestions"
    ensures r.Some? ==> 0.0 < r.value.strength <= 100.0
    ensures r.Some? ==> r.value.strength == Occurrences(ps, TopType(ps)) as real / |ps| as real * 100.0
  {
    if |ps| == 0 then None
    else Some(Insight(color, verb + ReplaceFirst(TopType(ps), '_', ' ') + " suggestions", TopShare(ps)))
  }

  /** Each type with its distance from the neutral weight, `|w - 1|`. */
  function Deviations(d: Dict<string, real>): (r: Dict<string, real>)
    ensures |r| == |d|
    ensures forall i :: 0 <= i < |d| ==> r[i] == (d[i].0, Abs(d[i].1 - 1.0))
  {
    seq(|d|, i requires 0 <= i < |d| => (d[i].0, Abs(d[i].1 - 1.0)))
  }

  /** The strongest-preference insight: the first type whose weight is furthest
      from neutral, reported only when that distance exceeds 0.2. */
  function StrongestInsight(types: Dict<string, real>): (r: Option<Insight>)
    ensures r.Some? <==> exists i :: 0 <= i < |types| && Abs(types[i].1 - 1.0) > 0.2
    ensures r.Some? ==> r.value.color == "blue" && r.value.strength > 20.0
    ensures r.Some? ==>
      var i := ArgMaxFirst(Values(Deviations(types)));
      && r.value.text == "Strong preference for " + ReplaceFirst(types[i].0, '_', ' ') + " suggestions"
      && r.value.strength == Abs(types[i].1 - 1.0) * 100.0
      && (forall j :: 0 <= j < |types| ==> Abs(types[j].1 - 1.0) <= Abs(types[i].1 - 1.0))
  {
    if |types| == 0 then None
    else
      var dev := Deviations(types);
      SortDescHead(dev);
      var i := ArgMaxFirst(Values(dev));
      assert forall j :: 0 <= j < |types| ==> Values(dev)[j] == Abs(types[j].1 - 1.0);
      var top := SortDesc(dev)[0];
      if top.1 > 0.2 then
        Some(Insight("blue", "Strong preference for " + ReplaceFirst(top.0, '_', ' ') + " suggestions", top.1 * 100.0))
      else None
  }

  function Present(o: Option<Insight>): seq<Insight> {
    if o.Some? then [o.value] else []
  }

  /** `getTopInsights`: the accepted, rejected and strongest-preference insights
      that exist, in that order; `slice(0, 3)` never cuts anything. */
  function TopInsights(w: LearningWeights): (r: seq<Insight>)
    ensures |r| <= 3
    ensures r == Present(LogInsight(w.acceptedPatterns, "green", "You frequently accept "))
      + Present(LogInsight(w.rejectedPatterns, "red", "You often reject "))
      + Present(StrongestInsight(w.suggestionTypes))
  {
    var insights := Present(LogInsight(w.acceptedPatterns, "green", "You frequently accept "))
      + Present(LogInsight(w.rejectedPatterns, "red", "You often reject "))
      + Present(StrongestInsight(w.suggestionTypes));
    insights[..if |insights| < 3 then |insights| else 3]
  }

  /** The insight a counted log yields: the head of its counts sorted by
      descending count, its count over the log length as a percentage. */
  function CountedInsight(counts: Dict<string, real>, ps: seq<Pattern>, color: string, verb: string): (r: Option<Insight>)
    requires counts == TypeCounts(ps)
    ensures r == LogInsight(ps, color, verb)
  {
    TypeCountsShape(ps);
    if |counts| == 0 then None
    else
      SortDescHead(counts);
      var top := SortDesc(counts)[0];
      Some(Insight(color, verb + ReplaceFirst(top.0, '_', ' ') + " suggestions", top.1 / |ps| as real * 100.0))
  }

  /** `getTopInsights` as the component runs it: both logs counted by loop, then
      the insights pushed in order. */
  method GetTopInsights(w: LearningWeights) returns (insights: seq<Insight>)
    ensures insights == TopInsights(w)
  {
    insights := [];
    var accepted := CountTypes(w.acceptedPatterns);
    var topAccepted := CountedInsight(accepted, w.acceptedPatterns, "green", "You frequently accept ");
    if topAccepted.Some? {
      insights := insights + [topAccepted.value];
    }
    var rejected := CountTypes(w.rejectedPatterns);
    var topRejected := CountedInsight(rejected, w.rejectedPatterns, "red", "You often reject ");
    if topRejected.Some? {
      insights := insights + [topRejected.value];
    }
    var strongest := StrongestInsight(w.suggestionTypes);
    if strongest.Some? {
      insights := insights + [strongest.value];
    }
  }

  // ------------------------------------------------------------ panel

  /** The rendered panel: fewer than three decisions in all show the status
      panel with a progress of `decisions / 3 * 100` percent. */
  function PanelOf(w: LearningWeights): (p: Panel)
    ensures p.LearningStatus? <==> |w.acceptedPatterns| + |w.rejectedPatterns| < 3
    ensures p.LearningStatus? ==>
      (p.decisions == |w.acceptedPatterns| + |w.rejectedPatterns| && 0.0 <= p.progress < 100.0)
    ensures p.InsightList? ==> p.insights == TopInsights(w)
  {
    var total := |w.acceptedPatterns| + |w.rejectedPatterns|;
    if total < 3 then LearningStatus(total, total as real / 3.0 * 100.0)
    else InsightList(TopInsights(w))
  }

  /** Once the panel shows insights, at least one decision log is non-empty, so
      an accepted or a rejected insight is always among them. */
  lemma InsightsNeverEmptyPastGate(w: LearningWeights)
    requires |w.acceptedPatterns| + |w.rejectedPatterns| >= 3
    ensures PanelOf(w).InsightList? && |PanelOf(w).insights| >= 1
    ensures PanelOf(w).insights[0].color == "green" || PanelOf(w).insights[0].color == "red"
  {
  }

  /** A log in which one type makes up every decision gives that type at full strength. */
  lemma UniformLogFullStrength(ps: seq<Pattern>, t: string)
    requires |ps| > 0 && forall i :: 0 <= i < |ps| ==> ps[i].pType == t
    ensures TopType(ps) == t
    ensures LogInsight(ps, "green", "You frequently accept ").value.strength == 100.0
  {
    OccurrencesAll(ps, t);
    var top := TopType(ps);
    if top != t {
      OccurrencesNone(ps, t, top);
    }
  }

  lemma {:induction false} OccurrencesAll(ps: seq<Pattern>, t: string)
    requires forall i :: 0 <= i < |ps| ==> ps[i].pType == t
    ensures Occurrences(ps, t) == |ps|
    decreases |ps|
  {
    if |ps| > 0 {
      OccurrencesAll(ps[..|ps| - 1], t);
    }
  }

  lemma {:induction false} OccurrencesNone(ps: seq<Pattern>, t: string, u: string)
    requires forall i :: 0 <= i < |ps| ==> ps[i].pType == t
    requires u != t
    ensures Occurrences(ps, u) == 0
    decreases |ps|
  {
    if |ps| > 0 {
      OccurrencesNone(ps[..|ps| - 1], t, u);
    }
  }
}
