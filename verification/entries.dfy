/**
 The emotion entries every dashboard view reduces, already decomposed: the
 browser's `Date` parsing (weekday, hour, calendar-day key) is taken as given,
 so the views below are pure folds over a sequence of these records.
 */
module Entries {

  datatype Option<+T> = None | Some(value: T)

  /** Day of the week numbered as `Date.getDay` numbers it: 0 is Sunday. */
  type Weekday = d: int | 0 <= d < 7

  /** Hour of the day as `Date.getHours` reports it. */
  type Hour = h: int | 0 <= h < 24

  /**
   One recorded mood. `dayKey`, `weekday` and `hour` are what the views
   derive from `timestamp`; `emotion` is the raw string of the data file,
   which may lie outside the four known moods.
   */
  datatype Entry = Entry(
    timestamp: string,
    dayKey: string,
    weekday: Weekday,
    hour: Hour,
    emotion: string,
    confidence: real
  )

  /** The four moods the typed views know about. */
  datatype Mood = Happy | Sad | Angry | Neutral {
    function Name(): string {
      match this
      case Happy => "happy"
      case Sad => "sad"
      case Angry => "angry"
      case Neutral => "neutral"
    }
  }

  /** The moods in the order the dashboard lists them. */
  const Moods: seq<Mood> := [Happy, Sad, Angry, Neutral]

  /** Reads a raw emotion string as one of the four moods, if it is one. */
  function Parse(s: string): (m: Option<Mood>)
    ensures m.Some? ==> m.value.Name() == s
  {
    if s == "happy" then Some(Happy)
    else if s == "sad" then Some(Sad)
    else if s == "angry" then Some(Angry)
    else if s == "neutral" then Some(Neutral)
    else None
  }

  predicate IsKnown(s: string) {
    Parse(s).Some?
  }

  lemma ParseName(m: Mood)
    ensures Parse(m.Name()) == Some(m)
    ensures IsKnown(m.Name())
  {
  }

  /** Distinct moods have distinct names (their first letters already differ). */
  lemma NameInjective(m1: Mood, m2: Mood)
    ensures m1.Name() == m2.Name() ==> m1 == m2
  {
    if m1 != m2 {
      assert m1.Name()[0] != m2.Name()[0];
    }
  }

  lemma MoodsListsEveryMoodOnce()
    ensures |Moods| == 4
    ensures forall m: Mood :: m in Moods
    ensures forall i, j :: 0 <= i < j < |Moods| ==> Moods[i] != Moods[j]
  {
    forall m: Mood ensures m in Moods {
      match m
      case Happy => assert Moods[0] == m;
      case Sad => assert Moods[1] == m;
      case Angry => assert Moods[2] == m;
      case Neutral => assert Moods[3] == m;
    }
  }

  /** Number of entries whose emotion string is exactly `s`. */
  function Occurrences(es: seq<Entry>, s: string): (n: nat)
    ensures n <= |es|
  {
    if |es| == 0 then 0
    else Occurrences(es[..|es| - 1], s) + (if es[|es| - 1].emotion == s then 1 else 0)
  }

  /** Number of entries whose emotion is one of the four moods. */
  function KnownCount(es: seq<Entry>): (n: nat)
    ensures n <= |es|
  {
    if |es| == 0 then 0
    else KnownCount(es[..|es| - 1]) + (if IsKnown(es[|es| - 1].emotion) then 1 else 0)
  }

  /** Every entry has one of the four moods. */
  predicate AllKnown(es: seq<Entry>) {
    forall i :: 0 <= i < |es| ==> IsKnown(es[i].emotion)
  }

  lemma AllKnownPrefix(es: seq<Entry>, n: nat)
    requires AllKnown(es) && n <= |es|
    ensures AllKnown(es[..n])
  {
    forall i | 0 <= i < n ensures IsKnown(es[..n][i].emotion) {
      assert es[..n][i] == es[i];
    }
  }

  /** The known entries are all of them exactly when every entry has one of the four moods. */
  lemma {:induction false} KnownCountIsLengthIff(es: seq<Entry>)
    ensures KnownCount(es) == |es| <==> AllKnown(es)
  {
    if |es| > 0 {
      var init, e := es[..|es| - 1], es[|es| - 1];
      assert es == init + [e];
      KnownCountIsLengthIff(init);
      assert forall i :: 0 <= i < |init| ==> init[i] == es[i];
    }
  }

  /** The emotion of every entry, in list order. */
  function Emotions(es: seq<Entry>): (r: seq<string>)
    ensures |r| == |es|
    ensures forall i :: 0 <= i < |es| ==> r[i] == es[i].emotion
  {
    seq(|es|, i requires 0 <= i < |es| => es[i].emotion)
  }

  /** The calendar-day key of every entry, in list order. */
  function DayKeys(es: seq<Entry>): (r: seq<string>)
    ensures |r| == |es|
    ensures forall i :: 0 <= i < |es| ==> r[i] == es[i].dayKey
  {
    seq(|es|, i requires 0 <= i < |es| => es[i].dayKey)
  }

  lemma AppendPrefix(es: seq<Entry>, e: Entry)
    ensures (es + [e])[..|es|] == es
    ensures Emotions(es + [e]) == Emotions(es) + [e.emotion]
    ensures DayKeys(es + [e]) == DayKeys(es) + [e.dayKey]
  {
    assert (es + [e])[..|es|] == es;
    assert Emotions(es + [e]) == Emotions(es) + [e.emotion];
    assert DayKeys(es + [e]) == DayKeys(es) + [e.dayKey];
  }

  /** Counting depends on the emotions alone: timestamps and confidences play no part. */
  lemma {:induction false} OccurrencesFollowEmotions(es: seq<Entry>, fs: seq<Entry>, s: string)
    requires Emotions(es) == Emotions(fs)
    ensures Occurrences(es, s) == Occurrences(fs, s)
    decreases |es|
  {
    if |es| > 0 {
      var n := |es| - 1;
      assert |fs| == |es|;
      assert es[n].emotion == Emotions(es)[n] == fs[n].emotion;
      assert Emotions(es[..n]) == Emotions(fs[..n]) by {
        forall i | 0 <= i < n ensures Emotions(es[..n])[i] == Emotions(fs[..n])[i] {
          assert Emotions(es)[i] == Emotions(fs)[i];
        }
      }
      OccurrencesFollowEmotions(es[..n], fs[..n], s);
    }
  }

  /**
   Four counters, one per mood: the shape of `SummaryType`, of the pie counts
   and of each line-chart row.
   */
  datatype Tally = Tally(happy: nat, sad: nat, angry: nat, neutral: nat) {

    function Get(m: Mood): nat {
      match m
      case Happy => happy
      case Sad => sad
      case Angry => angry
      case Neutral => neutral
    }

    /** One more entry of mood `m`; the other three counters are untouched (see BumpLeavesOthers). */
    function Bump(m: Mood): (t: Tally)
      ensures t.Get(m) == Get(m) + 1
      ensures t.Total() == Total() + 1
    {
      Tally(happy + (if m == Happy then 1 else 0), sad + (if m == Sad then 1 else 0),
            angry + (if m == Angry then 1 else 0), neutral + (if m == Neutral then 1 else 0))
    }

    lemma BumpLeavesOthers(m: Mood, k: Mood)
      requires k != m
      ensures Bump(m).Get(k) == Get(k)
    {
    }

    function Total(): nat {
      happy + sad + angry + neutral
    }
  }

  const Zero: Tally := Tally(0, 0, 0, 0)

  /** `t` holds, for each of the four moods, the number of entries of `es` with that mood. */
  predicate Tallies(t: Tally, es: seq<Entry>) {
    && t.happy == Occurrences(es, "happy")
    && t.sad == Occurrences(es, "sad")
    && t.angry == Occurrences(es, "angry")
    && t.neutral == Occurrences(es, "neutral")
  }

  /** Counting one more entry of a known mood bumps exactly that mood's counter. */
  lemma TalliesBump(t: Tally, es: seq<Entry>, e: Entry, m: Mood)
    requires Tallies(t, es) && Parse(e.emotion) == Some(m)
    ensures Tallies(t.Bump(m), es + [e])
  {
    AppendPrefix(es, e);
  }

  /** An entry outside the four moods leaves every counter as it was. */
  lemma TalliesSkip(t: Tally, es: seq<Entry>, e: Entry)
    requires Tallies(t, es) && Parse(e.emotion).None?
    ensures Tallies(t, es + [e])
  {
    AppendPrefix(es, e);
  }

  lemma TalliesGet(t: Tally, es: seq<Entry>, m: Mood)
    requires Tallies(t, es)
    ensures t.Get(m) == Occurrences(es, m.Name())
  {
  }

}
