/**
 The weekly bar chart and its per-day alert: one pass counts every emotion
 string, and separately counts, per calendar day, the sad or angry entries
 whose confidence exceeds 0.8; a day reaching three such entries is a danger
 day.
 */
module EmotionStats {
  import opened Entries
  import opened InsertionMap

  /** Confidence an entry must exceed to count towards a danger day. */
  const HighConfidence: real := 0.8

  /** High-confidence entries a day needs to become a danger day. */
  const DangerDayMinimum: nat := 3

  predicate HighRisk(e: Entry) {
    (e.emotion == "sad" || e.emotion == "angry") && e.confidence > HighConfidence
  }

  /** Reference count: high-risk entries recorded on `day`. */
  function HighRiskOn(es: seq<Entry>, day: string): (n: nat)
    ensures n <= |es|
  {
    if |es| == 0 then 0
    else
      var e := es[|es| - 1];
      HighRiskOn(es[..|es| - 1], day) + (if HighRisk(e) && e.dayKey == day then 1 else 0)
  }

  /** `emotionCounts` (key order observed by the chart) and `dailySadAngryCounts`. */
  datatype Stats = Stats(counts: IMap<nat>, daily: map<string, nat>)

  function DayCount(daily: map<string, nat>, day: string): nat {
    if day in daily then daily[day] else 0
  }

  /** A count as a bar height. */
  function Height(n: nat): nat {
    n
  }

  /** One step of the `forEach`. */
  function Step(s: Stats, e: Entry): Stats {
    var counts := s.counts.Put(e.emotion, s.counts.GetOr(e.emotion, 0) + 1);
    var daily := if HighRisk(e) then s.daily[e.dayKey := DayCount(s.daily, e.dayKey) + 1] else s.daily;
    Stats(counts, daily)
  }

  /** The fold over all entries. */
  function Collect(es: seq<Entry>): (s: Stats)
    ensures |s.daily| <= |es|
  {
    if |es| == 0 then Stats(Empty(), map[]) else Step(Collect(es[..|es| - 1]), es[|es| - 1])
  }

  /** The count record stays well formed. */
  lemma {:induction false} CollectValid(es: seq<Entry>)
    ensures Collect(es).counts.Valid()
  {
    if |es| > 0 {
      var s, e := Collect(es[..|es| - 1]), es[|es| - 1];
      CollectValid(es[..|es| - 1]);
      s.counts.PutValid(e.emotion, s.counts.GetOr(e.emotion, 0) + 1);
    }
  }

  /** The bar keys are the distinct emotions in order of first appearance. */
  lemma {:induction false} CountsOrder(es: seq<Entry>)
    ensures Collect(es).counts.keys == FirstOccurrences(Emotions(es))
  {
    if |es| > 0 {
      var init, e := es[..|es| - 1], es[|es| - 1];
      CountsOrder(init);
      assert es == init + [e];
      OrderStep(init, e);
    }
  }

  lemma OrderStep(es: seq<Entry>, e: Entry)
    requires Collect(es).counts.keys == FirstOccurrences(Emotions(es))
    ensures Collect(es + [e]).counts.keys == FirstOccurrences(Emotions(es + [e]))
  {
    var s := Collect(es);
    CollectValid(es);
    CollectAppend(es, e);
    AppendPrefix(es, e);
    PutFollowsFirstOccurrences(s.counts, Emotions(es), e.emotion, s.counts.GetOr(e.emotion, 0) + 1);
  }

  /** The bar heights add up to the number of entries. */
  lemma {:induction false} CountsTotal(es: seq<Entry>)
    ensures SumBy(Collect(es).counts, Height) == |es|
  {
    if |es| > 0 {
      var init, e := es[..|es| - 1], es[|es| - 1];
      CountsTotal(init);
      assert es == init + [e];
      TotalStep(init, e);
    }
  }

  lemma TotalStep(es: seq<Entry>, e: Entry)
    ensures SumBy(Collect(es + [e]).counts, Height) == SumBy(Collect(es).counts, Height) + 1
  {
    CollectValid(es);
    CollectAppend(es, e);
    CountOneMore(Collect(es).counts, e.emotion);
  }

  /** Counting one more occurrence of `k` adds one to the sum of the counts. */
  lemma CountOneMore(counts: IMap<nat>, k: string)
    requires counts.Valid()
    ensures SumBy(counts.Put(k, counts.GetOr(k, 0) + 1), Height) == SumBy(counts, Height) + 1
  {
    var n := counts.GetOr(k, 0);
    assert (if k in counts.vals then Height(counts.vals[k]) else 0) == n;
    SumByPut(counts, Height, k, n + 1);
  }

  lemma CollectAppend(es: seq<Entry>, e: Entry)
    ensures Collect(es + [e]) == Step(Collect(es), e)
  {
    AppendPrefix(es, e);
  }

  /** Each emotion's bar height is its number of occurrences; only emotions that occur get a bar. */
  lemma {:induction false} CountsAreOccurrences(es: seq<Entry>, x: string)
    ensures x in Collect(es).counts.vals <==> Occurrences(es, x) > 0
    ensures x in Collect(es).counts.vals ==> Collect(es).counts.vals[x] == Occurrences(es, x)
  {
    if |es| > 0 {
      var init := es[..|es| - 1];
      CountsAreOccurrences(init, x);
      assert es == init + [es[|es| - 1]];
      CollectAppend(init, es[|es| - 1]);
    }
  }

  /** Each day's high-confidence sad/angry tally is the reference count; only days that have one are keyed. */
  lemma {:induction false} DailyCountsAreHighRisk(es: seq<Entry>, day: string)
    ensures day in Collect(es).daily <==> HighRiskOn(es, day) > 0
    ensures DayCount(Collect(es).daily, day) == HighRiskOn(es, day)
  {
    if |es| > 0 {
      var init := es[..|es| - 1];
      DailyCountsAreHighRisk(init, day);
      assert es == init + [es[|es| - 1]];
      CollectAppend(init, es[|es| - 1]);
    }
  }

  /**
   An appended entry raises its own day's tally by one exactly when it is
   sad or angry with confidence above 0.8; no other day's tally changes, and
   any other entry leaves the tallies untouched.
   */
  lemma AppendDailyEffect(es: seq<Entry>, e: Entry, day: string)
    ensures DayCount(Collect(es + [e]).daily, day)
            == DayCount(Collect(es).daily, day) + (if HighRisk(e) && e.dayKey == day then 1 else 0)
    ensures !HighRisk(e) ==> Collect(es + [e]).daily == Collect(es).daily
    ensures HighRisk(e) ==> Collect(es + [e]).daily != Collect(es).daily
  {
    CollectAppend(es, e);
    if HighRisk(e) {
      assert DayCount(Collect(es + [e]).daily, e.dayKey) != DayCount(Collect(es).daily, e.dayKey);
    }
  }

  /** `dangerDays`: the days whose tally reached the minimum. */
  function DangerDays(s: Stats): (days: set<string>)
    ensures forall d :: d in days <==> DayCount(s.daily, d) >= DangerDayMinimum
  {
    set d | d in s.daily && s.daily[d] >= DangerDayMinimum
  }

  lemma DangerDayIff(es: seq<Entry>, day: string)
    ensures day in DangerDays(Collect(es)) <==> HighRiskOn(es, day) >= DangerDayMinimum
  {
    DailyCountsAreHighRisk(es, day);
  }

  /** Number of danger days reported in the alert. */
  function DangerDayCount(es: seq<Entry>): nat {
    |DangerDays(Collect(es))|
  }

  /** The alert is shown when there is a danger day; otherwise the all-clear. */
  predicate ShowsAlert(es: seq<Entry>)
    ensures ShowsAlert(es) ==> |es| >= DangerDayMinimum
  {
    AlertNeedsEntries(es);
    DangerDayCount(es) > 0
  }

  /** A danger day needs three high-risk entries, so an alert needs at least three entries. */
  lemma AlertNeedsEntries(es: seq<Entry>)
    ensures DangerDayCount(es) > 0 ==> |es| >= DangerDayMinimum
  {
    if DangerDayCount(es) > 0 {
      var d :| d in DangerDays(Collect(es));
      DangerDayIff(es, d);
    }
  }

  lemma AlertIff(es: seq<Entry>)
    ensures ShowsAlert(es) <==> exists i :: 0 <= i < |es| && HighRiskOn(es, es[i].dayKey) >= DangerDayMinimum
  {
    var days := DangerDays(Collect(es));
    if ShowsAlert(es) {
      var d :| d in days;
      DangerDayIff(es, d);
      DayHasEntry(es, d);
    } else {
      forall i | 0 <= i < |es| ensures HighRiskOn(es, es[i].dayKey) < DangerDayMinimum {
        DangerDayIff(es, es[i].dayKey);
      }
    }
  }

  lemma {:induction false} DayHasEntry(es: seq<Entry>, day: string)
    requires HighRiskOn(es, day) > 0
    ensures exists i :: 0 <= i < |es| && es[i].dayKey == day
  {
    var n := |es| - 1;
    if HighRisk(es[n]) && es[n].dayKey == day {
    } else {
      DayHasEntry(es[..n], day);
      var i :| 0 <= i < n && es[..n][i].dayKey == day;
      assert es[i].dayKey == day;
    }
  }

  /** A new entry never takes a danger day away, so the alert count never drops. */
  lemma DangerDaysGrow(es: seq<Entry>, e: Entry)
    ensures DangerDays(Collect(es)) <= DangerDays(Collect(es + [e]))
    ensures DangerDayCount(es) <= DangerDayCount(es + [e])
  {
    forall d | d in DangerDays(Collect(es)) ensures d in DangerDays(Collect(es + [e])) {
      AppendDailyEffect(es, e, d);
    }
    SubsetSize(DangerDays(Collect(es)), DangerDays(Collect(es + [e])));
  }

  lemma {:induction false} SubsetSize(a: set<string>, b: set<string>)
    requires a <= b
    ensures |a| <= |b|
    decreases |a|
  {
    if a != {} {
      var x :| x in a;
      SubsetSize(a - {x}, b - {x});
    }
  }

  /** One bar of the chart. */
  datatype Bar = Bar(emotion: string, count: nat)

  function BarNames(bars: seq<Bar>): (names: seq<string>)
    ensures |names| == |bars| && forall i :: 0 <= i < |bars| ==> names[i] == bars[i].emotion
  {
    seq(|bars|, i requires 0 <= i < |bars| => bars[i].emotion)
  }

  /** Sum of the bar heights. */
  function SumBars(bars: seq<Bar>): nat {
    if |bars| == 0 then 0 else SumBars(bars[..|bars| - 1]) + bars[|bars| - 1].count
  }

  lemma {:induction false} BarsSumKeys(bars: seq<Bar>, keys: seq<string>, vals: map<string, nat>)
    requires |bars| == |keys|
    requires forall i :: 0 <= i < |bars| ==> keys[i] in vals && bars[i] == Bar(keys[i], vals[keys[i]])
    ensures SumBars(bars) == SumKeys(keys, vals, Height)
  {
    if |bars| > 0 {
      BarsSumKeys(bars[..|bars| - 1], keys[..|keys| - 1], vals);
    }
  }

  /**
   `chartData`: one bar per distinct emotion, in order of first appearance,
   each as tall as that emotion's number of occurrences.
   */
  function ChartData(es: seq<Entry>): (bars: seq<Bar>)
    ensures BarNames(bars) == FirstOccurrences(Emotions(es))
    ensures forall i :: 0 <= i < |bars| ==> bars[i].count == Occurrences(es, bars[i].emotion) > 0
  {
    var counts := Collect(es).counts;
    var keys := counts.keys;
    CollectValid(es);
    var bars := seq(|keys|, i requires 0 <= i < |keys| => Bar(keys[i], counts.vals[keys[i]]));
    CountsOrder(es);
    assert BarNames(bars) == keys;
    assert forall i :: 0 <= i < |bars| ==> bars[i].count == Occurrences(es, bars[i].emotion) > 0 by {
      forall i | 0 <= i < |bars| ensures bars[i].count == Occurrences(es, bars[i].emotion) > 0 {
        CountsAreOccurrences(es, keys[i]);
      }
    }
    bars
  }

  /**
   The chart has one bar per distinct emotion, each named once, in order of
   first appearance, and the bars add up to the number of entries.
   */
  lemma ChartShape(es: seq<Entry>)
    ensures FirstOccurrenceOrder(BarNames(ChartData(es)), Emotions(es))
    ensures SumBars(ChartData(es)) == |es|
  {
    FirstOccurrencesOrder(Emotions(es));
    CountsTotal(es);
    CollectValid(es);
    BarsSumKeys(ChartData(es), Collect(es).counts.keys, Collect(es).counts.vals);
  }
}
