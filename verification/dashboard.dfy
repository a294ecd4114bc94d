/**
 The dashboard's input normalisation: keep the entries whose emotion is one
 of the four moods, in their original order, each with its fields unchanged.
 The filtered list feeds the heat map and the bar chart.
 */
module Dashboard {
  import opened Entries
  import EmotionStats
  import EmotionSummary

  /** `typedEmotions`. */
  function Normalize(es: seq<Entry>): (kept: seq<Entry>)
    ensures |kept| <= |es|
  {
    if |es| == 0 then []
    else
      var init, e := es[..|es| - 1], es[|es| - 1];
      if IsKnown(e.emotion) then Normalize(init) + [e] else Normalize(init)
  }

  /** One entry kept per known entry, so never more than the input. */
  lemma {:induction false} NormalizeLength(es: seq<Entry>)
    ensures |Normalize(es)| == KnownCount(es) <= |es|
  {
    if |es| > 0 {
      NormalizeLength(es[..|es| - 1]);
    }
  }

  lemma NormalizeAppend(es: seq<Entry>, e: Entry)
    ensures Normalize(es + [e]) == if IsKnown(e.emotion) then Normalize(es) + [e] else Normalize(es)
  {
    AppendPrefix(es, e);
  }

  /** Every kept entry has one of the four moods, so the graphs may read the result. */
  lemma {:induction false} NormalizeKeepsKnown(es: seq<Entry>)
    ensures AllKnown(Normalize(es))
  {
    if |es| > 0 {
      NormalizeKeepsKnown(es[..|es| - 1]);
    }
  }

  /** `xs` can be obtained from `ys` by deleting elements. */
  ghost predicate SubsequenceOf(xs: seq<Entry>, ys: seq<Entry>) {
    exists idx: seq<int> ::
      && |idx| == |xs|
      && (forall i :: 0 <= i < |idx| ==> 0 <= idx[i] < |ys| && xs[i] == ys[idx[i]])
      && (forall i, j :: 0 <= i < j < |idx| ==> idx[i] < idx[j])
  }

  lemma SubsequenceGrows(xs: seq<Entry>, ys: seq<Entry>, e: Entry, keep: bool)
    requires SubsequenceOf(xs, ys)
    ensures SubsequenceOf(if keep then xs + [e] else xs, ys + [e])
  {
    var idx: seq<int> :| && |idx| == |xs|
                         && (forall i :: 0 <= i < |idx| ==> 0 <= idx[i] < |ys| && xs[i] == ys[idx[i]])
                         && (forall i, j :: 0 <= i < j < |idx| ==> idx[i] < idx[j]);
    var idx' := if keep then idx + [|ys|] else idx;
    var xs' := if keep then xs + [e] else xs;
    assert forall i :: 0 <= i < |idx'| ==> 0 <= idx'[i] < |ys + [e]| && xs'[i] == (ys + [e])[idx'[i]];
  }

  /** The kept entries appear in the result in their original order. */
  lemma {:induction false} NormalizeIsSubsequence(es: seq<Entry>)
    ensures SubsequenceOf(Normalize(es), es)
  {
    if |es| == 0 {
      assert SubsequenceOf([], es) by {
        var idx: seq<int> := [];
        assert |idx| == 0;
      }
    } else {
      var init, e := es[..|es| - 1], es[|es| - 1];
      assert es == init + [e];
      NormalizeIsSubsequence(init);
      SubsequenceGrows(Normalize(init), init, e, IsKnown(e.emotion));
    }
  }

  /** Each entry is kept as often as it occurs when its mood is known, and dropped otherwise. */
  lemma {:induction false} NormalizeContents(es: seq<Entry>, x: Entry)
    ensures multiset(Normalize(es))[x] == if IsKnown(x.emotion) then multiset(es)[x] else 0
  {
    if |es| > 0 {
      var init, e := es[..|es| - 1], es[|es| - 1];
      assert es == init + [e];
      NormalizeContents(init, x);
      NormalizeAppend(init, e);
    }
  }

  /** A list of known moods is left as it is. */
  lemma {:induction false} NormalizeKeepsAllKnown(es: seq<Entry>)
    requires AllKnown(es)
    ensures Normalize(es) == es
  {
    if |es| > 0 {
      var init, e := es[..|es| - 1], es[|es| - 1];
      assert es == init + [e];
      assert IsKnown(e.emotion);
      AllKnownPrefix(es, |es| - 1);
      NormalizeKeepsAllKnown(init);
    }
  }

  /** Normalising twice is normalising once. */
  lemma NormalizeIdempotent(es: seq<Entry>)
    ensures Normalize(Normalize(es)) == Normalize(es)
  {
    NormalizeKeepsKnown(es);
    NormalizeKeepsAllKnown(Normalize(es));
  }

  /** The filter keeps every entry of a known mood, so each mood occurs as often as before. */
  lemma {:induction false} NormalizeKeepsOccurrences(es: seq<Entry>, m: Mood)
    ensures Occurrences(Normalize(es), m.Name()) == Occurrences(es, m.Name())
  {
    if |es| > 0 {
      var init, e := es[..|es| - 1], es[|es| - 1];
      assert es == init + [e];
      NormalizeKeepsOccurrences(init, m);
      NormalizeAppend(init, e);
      AppendPrefix(Normalize(init), e);
      ParseName(m);
    }
  }

  /** The filter drops only entries the summary ignores, so the summary is the same either way. */
  lemma NormalizeKeepsSummary(es: seq<Entry>)
    ensures EmotionSummary.Summarize(Normalize(es)) == EmotionSummary.Summarize(es)
  {
    var t, u := EmotionSummary.Summarize(Normalize(es)), EmotionSummary.Summarize(es);
    NormalizeKeepsOccurrences(es, Happy);
    NormalizeKeepsOccurrences(es, Sad);
    NormalizeKeepsOccurrences(es, Angry);
    NormalizeKeepsOccurrences(es, Neutral);
    assert t.happy == u.happy && t.sad == u.sad && t.angry == u.angry && t.neutral == u.neutral;
  }

  /** Every high-confidence sad or angry entry survives the filter, so each day's danger count does too. */
  lemma {:induction false} NormalizeKeepsHighRisk(es: seq<Entry>, day: string)
    ensures EmotionStats.HighRiskOn(Normalize(es), day) == EmotionStats.HighRiskOn(es, day)
  {
    if |es| > 0 {
      var init, e := es[..|es| - 1], es[|es| - 1];
      assert es == init + [e];
      NormalizeKeepsHighRisk(init, day);
      NormalizeAppend(init, e);
      if IsKnown(e.emotion) {
        AppendPrefix(Normalize(init), e);
      }
    }
  }

  /** The filter never hides or invents a danger day. */
  lemma NormalizeKeepsDangerDays(es: seq<Entry>)
    ensures EmotionStats.DangerDays(EmotionStats.Collect(Normalize(es)))
            == EmotionStats.DangerDays(EmotionStats.Collect(es))
  {
    forall d
      ensures d in EmotionStats.DangerDays(EmotionStats.Collect(Normalize(es)))
              <==> d in EmotionStats.DangerDays(EmotionStats.Collect(es))
    {
      EmotionStats.DangerDayIff(Normalize(es), d);
      EmotionStats.DangerDayIff(es, d);
      NormalizeKeepsHighRisk(es, d);
    }
  }
}
