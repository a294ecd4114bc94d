/**
 The month calendar: each date key is coloured by the emotion of the last
 entry recorded on it, and a day of the month with no entry (or an empty
 emotion) is shown as neutral.
 */
module CalendarView {
  import opened Entries

  /** The colour a day falls back to. */
  const Fallback: string := "neutral"

  /** `emotionByDate`: a later entry on the same date overwrites an earlier one. */
  function LatestByDate(es: seq<Entry>): (byDate: map<string, string>)
    ensures |byDate| <= |es|
    ensures byDate == map[] <==> |es| == 0
  {
    if |es| == 0 then map[]
    else
      var e := es[|es| - 1];
      LatestByDate(es[..|es| - 1])[e.dayKey := e.emotion]
  }

  /** Entry `i` is on date `k` and no later entry is. */
  predicate LastOnDay(es: seq<Entry>, k: string, i: int) {
    && 0 <= i < |es|
    && es[i].dayKey == k
    && forall j :: i < j < |es| ==> es[j].dayKey != k
  }

  /** `emotionByDate[k]`, or nothing when the date has no key. */
  function Lookup(byDate: map<string, string>, k: string): Option<string> {
    if k in byDate then Some(byDate[k]) else None
  }

  /** Appending an entry sets its own date and leaves every other date as it was. */
  lemma AppendChangesOnlyOwnDay(es: seq<Entry>, e: Entry, k: string)
    ensures Lookup(LatestByDate(es + [e]), k)
            == if e.dayKey == k then Some(e.emotion) else Lookup(LatestByDate(es), k)
  {
    AppendPrefix(es, e);
  }

  /** A date has a key exactly when some entry has that date. */
  lemma {:induction false} KeyIffEntry(es: seq<Entry>, k: string)
    ensures k in LatestByDate(es) <==> k in DayKeys(es)
  {
    if |es| > 0 {
      var init, e := es[..|es| - 1], es[|es| - 1];
      assert es == init + [e];
      AppendPrefix(init, e);
      KeyIffEntry(init, k);
    }
  }

  /** A date's value is the emotion of the last entry on that date. */
  lemma {:induction false} ValueIsLast(es: seq<Entry>, k: string, i: int)
    requires LastOnDay(es, k, i)
    ensures Lookup(LatestByDate(es), k) == Some(es[i].emotion)
  {
    var init, e := es[..|es| - 1], es[|es| - 1];
    if i < |es| - 1 {
      assert LastOnDay(init, k, i);
      ValueIsLast(init, k, i);
    }
  }

  /** `emotionByDate[dateKey] || 'neutral'`: a missing or empty emotion falls back to neutral. */
  function DayEmotion(byDate: map<string, string>, k: string): (emotion: string)
    ensures emotion != ""
    ensures k !in byDate ==> emotion == Fallback
    ensures k in byDate ==> emotion == if byDate[k] == "" then Fallback else byDate[k]
  {
    if k in byDate && byDate[k] != "" then byDate[k] else Fallback
  }

  /** One square of the calendar: the date key and the emotion it is coloured by. */
  datatype Day = Day(date: string, emotion: string)

  /**
   The month view for the given date keys (the month's days, supplied by the
   caller): one square per day, in the given order.
   */
  function Month(days: seq<string>, es: seq<Entry>): (squares: seq<Day>)
    ensures |squares| == |days|
    ensures forall d :: 0 <= d < |days| ==> squares[d].date == days[d]
  {
    var byDate := LatestByDate(es);
    seq(|days|, d requires 0 <= d < |days| => Day(days[d], DayEmotion(byDate, days[d])))
  }

  /** A day with no entry is neutral. */
  lemma UnrecordedDayIsNeutral(days: seq<string>, es: seq<Entry>, d: int)
    requires 0 <= d < |days| && days[d] !in DayKeys(es)
    ensures Month(days, es)[d].emotion == Fallback
  {
    KeyIffEntry(es, days[d]);
  }

  /** A day with entries shows the last one's emotion, or neutral if that emotion is empty. */
  lemma RecordedDayShowsLast(days: seq<string>, es: seq<Entry>, d: int, i: int)
    requires 0 <= d < |days| && LastOnDay(es, days[d], i)
    ensures Month(days, es)[d].emotion == if es[i].emotion == "" then Fallback else es[i].emotion
  {
    ValueIsLast(es, days[d], i);
  }

  /** Appending an entry recolours only the squares of its own date. */
  lemma AppendRecoloursOwnDay(days: seq<string>, es: seq<Entry>, e: Entry, d: int)
    requires 0 <= d < |days| && days[d] != e.dayKey
    ensures Month(days, es + [e])[d] == Month(days, es)[d]
  {
    AppendChangesOnlyOwnDay(es, e, days[d]);
  }
}
