/**
 The weekly summary card: counts of the four known moods, starting from zero,
 with every other emotion string ignored, and a whole-dataset danger flag
 raised when sad and angry entries together number four or more.
 */
module EmotionSummary {
  import opened Entries

  /** Sad plus angry entries at which the summary raises its flag. */
  const DangerTotal: nat := 4

  /** One step of the `forEach`: bump the entry's mood if it has one of the four. */
  function Count(t: Tally, e: Entry): Tally {
    match Parse(e.emotion)
    case Some(m) => t.Bump(m)
    case None => t
  }

  /** The summary counts: each mood's counter is its number of occurrences; other emotions add nothing. */
  function Summarize(es: seq<Entry>): (t: Tally)
    ensures |es| == 0 ==> t == Zero
    ensures Tallies(t, es)
  {
    if |es| == 0 then Zero
    else
      var init, e := es[..|es| - 1], es[|es| - 1];
      var t := Summarize(init);
      assert es == init + [e];
      match Parse(e.emotion)
      case Some(m) => TalliesBump(t, init, e, m); Count(t, e)
      case None => TalliesSkip(t, init, e); Count(t, e)
  }

  lemma SummaryStep(t: Tally, e: Entry)
    ensures Count(t, e).Total() == t.Total() + (if IsKnown(e.emotion) then 1 else 0)
  {
  }

  /**
   The four counters add up to the number of known entries: at most the
   length of the list, and all of it exactly when every entry is one of the
   four moods.
   */
  lemma {:induction false} SummaryTotal(es: seq<Entry>)
    ensures Summarize(es).Total() == KnownCount(es) <= |es|
    ensures Summarize(es).Total() == |es| <==> AllKnown(es)
  {
    if |es| > 0 {
      var init, e := es[..|es| - 1], es[|es| - 1];
      SummaryTotal(init);
      SummaryStep(Summarize(init), e);
    }
    KnownCountIsLengthIff(es);
  }

  /** `dangerZone`. */
  predicate DangerZone(t: Tally)
    ensures DangerZone(t) ==> t.Total() >= DangerTotal
  {
    t.sad + t.angry >= DangerTotal
  }

  /** The flag is exactly the threshold on sad plus angry entries; confidence is never read. */
  lemma DangerZoneIff(es: seq<Entry>)
    ensures DangerZone(Summarize(es)) <==> Occurrences(es, "sad") + Occurrences(es, "angry") >= DangerTotal
  {
  }

  /**
   Two lists that carry the same emotions in the same order get the same
   counts and the same flag, whatever their timestamps and confidences.
   */
  lemma SummaryIgnoresConfidence(es: seq<Entry>, fs: seq<Entry>)
    requires Emotions(es) == Emotions(fs)
    ensures Summarize(es) == Summarize(fs)
    ensures DangerZone(Summarize(es)) <==> DangerZone(Summarize(fs))
  {
    OccurrencesFollowEmotions(es, fs, "happy");
    OccurrencesFollowEmotions(es, fs, "sad");
    OccurrencesFollowEmotions(es, fs, "angry");
    OccurrencesFollowEmotions(es, fs, "neutral");
  }

  /** Adding an entry never lowers a counter, so the flag, once raised, stays raised. */
  lemma DangerZoneStays(es: seq<Entry>, e: Entry)
    ensures forall m: Mood :: Summarize(es).Get(m) <= Summarize(es + [e]).Get(m)
    ensures DangerZone(Summarize(es)) ==> DangerZone(Summarize(es + [e]))
  {
    forall m: Mood ensures Summarize(es).Get(m) <= Summarize(es + [e]).Get(m) {
      OccurrencesGrow(es, e, m.Name());
      TalliesGet(Summarize(es), es, m);
      TalliesGet(Summarize(es + [e]), es + [e], m);
    }
  }

  lemma OccurrencesGrow(es: seq<Entry>, e: Entry, s: string)
    ensures Occurrences(es, s) <= Occurrences(es + [e], s)
  {
    AppendPrefix(es, e);
  }
}
