/**
 The trend and distribution charts: one row per calendar day, in the order
 days first appear, counting each mood on that day; and a four-slice pie of
 the mood totals. EmotionGraphs.tsx indexes its counters by the raw emotion
 string, so the charts only mean something for lists whose emotions are all
 among the four moods, which every member reading entries here requires.
 */
module EmotionGraphs {
  import opened Entries
  import opened InsertionMap

  function MoodOf(e: Entry): (m: Mood)
    requires IsKnown(e.emotion)
    ensures m.Name() == e.emotion
  {
    Parse(e.emotion).value
  }

  /** What both charts read from an entry: its date and its mood. */
  datatype Point = Point(day: string, mood: Mood)

  function Points(es: seq<Entry>): (ps: seq<Point>)
    requires AllKnown(es)
    ensures |ps| == |es|
    ensures forall i :: 0 <= i < |es| ==> ps[i] == Point(es[i].dayKey, MoodOf(es[i]))
  {
    seq(|es|, i requires 0 <= i < |es| => Point(es[i].dayKey, MoodOf(es[i])))
  }

  lemma PointsAppend(es: seq<Entry>, e: Entry)
    requires AllKnown(es) && IsKnown(e.emotion)
    ensures AllKnown(es + [e])
    ensures Points(es + [e]) == Points(es) + [Point(e.dayKey, MoodOf(e))]
  {
    AppendPrefix(es, e);
  }

  function Days(ps: seq<Point>): (ds: seq<string>)
    ensures |ds| == |ps| && forall i :: 0 <= i < |ps| ==> ds[i] == ps[i].day
  {
    seq(|ps|, i requires 0 <= i < |ps| => ps[i].day)
  }

  lemma DaysAppend(ps: seq<Point>, p: Point)
    ensures Days(ps + [p]) == Days(ps) + [p.day]
  {
  }

  lemma DaysAreDayKeys(es: seq<Entry>)
    requires AllKnown(es)
    ensures Days(Points(es)) == DayKeys(es)
  {
  }

  /** Reference count: points on `day` with mood `m`. */
  function OnDay(ps: seq<Point>, day: string, m: Mood): (n: nat)
    ensures n <= |ps|
  {
    if |ps| == 0 then 0
    else OnDay(ps[..|ps| - 1], day, m) + (if ps[|ps| - 1] == Point(day, m) then 1 else 0)
  }

  /** Reference count: points on `day`. */
  function EntriesOn(ps: seq<Point>, day: string): (n: nat)
    ensures n <= |ps|
  {
    if |ps| == 0 then 0
    else EntriesOn(ps[..|ps| - 1], day) + (if ps[|ps| - 1].day == day then 1 else 0)
  }

  /** Reference count: points with mood `m`. */
  function WithMood(ps: seq<Point>, m: Mood): (n: nat)
    ensures n <= |ps|
  {
    if |ps| == 0 then 0
    else WithMood(ps[..|ps| - 1], m) + (if ps[|ps| - 1].mood == m then 1 else 0)
  }

  lemma {:induction false} OnDayAtMostEntriesOn(ps: seq<Point>, day: string, m: Mood)
    ensures OnDay(ps, day, m) <= EntriesOn(ps, day)
  {
    if |ps| > 0 {
      OnDayAtMostEntriesOn(ps[..|ps| - 1], day, m);
    }
  }

  /** The mood count of the points is the count, among the entries, of that mood's name. */
  lemma {:induction false} WithMoodIsOccurrences(es: seq<Entry>, m: Mood)
    requires AllKnown(es)
    ensures WithMood(Points(es), m) == Occurrences(es, m.Name())
  {
    if |es| > 0 {
      var init, e := es[..|es| - 1], es[|es| - 1];
      AllKnownPrefix(es, |es| - 1);
      assert es == init + [e];
      PointsAppend(init, e);
      WithMoodIsOccurrences(init, m);
      assert Points(es)[..|es| - 1] == Points(init);
      NameInjective(m, MoodOf(e));
    }
  }

  /** One point of the line chart: the day and its four mood counts. */
  datatype Row = Row(date: string, counts: Tally)

  /** One step of the first `forEach`: open the day's row at zero if needed, then bump its mood. */
  function AddToRow(rows: IMap<Row>, p: Point): IMap<Row> {
    var row := rows.GetOr(p.day, Row(p.day, Zero));
    rows.Put(p.day, row.(counts := row.counts.Bump(p.mood)))
  }

  /** `lineDataMap`. */
  function RowsByDate(ps: seq<Point>): (rows: IMap<Row>)
    ensures |rows.keys| <= |ps|
  {
    if |ps| == 0 then Empty() else AddToRow(RowsByDate(ps[..|ps| - 1]), ps[|ps| - 1])
  }

  /** The day-to-row record stays well formed. */
  lemma {:induction false} RowsByDateValid(ps: seq<Point>)
    ensures RowsByDate(ps).Valid()
  {
    if |ps| > 0 {
      var rows, p := RowsByDate(ps[..|ps| - 1]), ps[|ps| - 1];
      RowsByDateValid(ps[..|ps| - 1]);
      var row := rows.GetOr(p.day, Row(p.day, Zero));
      rows.PutValid(p.day, row.(counts := row.counts.Bump(p.mood)));
    }
  }

  /** Every row carries its own date key, as `{ date, ... }` writes it. */
  lemma {:induction false} RowDatesAreKeys(ps: seq<Point>, k: string)
    ensures k in RowsByDate(ps).vals ==> RowsByDate(ps).vals[k].date == k
  {
    if |ps| > 0 {
      RowDatesAreKeys(ps[..|ps| - 1], k);
    }
  }

  /** `lineData = Object.values(lineDataMap)`. */
  function LineData(es: seq<Entry>): (rows: seq<Row>)
    requires AllKnown(es)
    ensures |rows| <= |es|
  {
    RowsByDateValid(Points(es));
    RowsByDate(Points(es)).Values()
  }

  function Dates(rows: seq<Row>): (ds: seq<string>)
    ensures |ds| == |rows| && forall i :: 0 <= i < |rows| ==> ds[i] == rows[i].date
  {
    seq(|rows|, i requires 0 <= i < |rows| => rows[i].date)
  }

  lemma KeyStep(rows: IMap<Row>, seen: seq<string>, p: Point)
    requires rows.Valid() && rows.keys == FirstOccurrences(seen)
    ensures AddToRow(rows, p).keys == FirstOccurrences(seen + [p.day])
  {
    var row := rows.GetOr(p.day, Row(p.day, Zero));
    PutFollowsFirstOccurrences(rows, seen, p.day, row.(counts := row.counts.Bump(p.mood)));
  }

  lemma {:induction false} OneKeyPerDate(ps: seq<Point>)
    ensures RowsByDate(ps).keys == FirstOccurrences(Days(ps))
  {
    if |ps| > 0 {
      var init, p := ps[..|ps| - 1], ps[|ps| - 1];
      assert ps == init + [p];
      DaysAppend(init, p);
      OneKeyPerDate(init);
      RowsByDateValid(init);
      KeyStep(RowsByDate(init), Days(init), p);
    }
  }

  /**
   The rows' dates are the distinct day keys, each once, in order of first
   appearance.
   */
  lemma OneRowPerDate(es: seq<Entry>)
    requires AllKnown(es)
    ensures Dates(LineData(es)) == FirstOccurrences(DayKeys(es))
    ensures FirstOccurrenceOrder(Dates(LineData(es)), DayKeys(es))
  {
    var rows := RowsByDate(Points(es));
    RowsByDateValid(Points(es));
    OneKeyPerDate(Points(es));
    DaysAreDayKeys(es);
    forall i | 0 <= i < |rows.keys| ensures Dates(LineData(es))[i] == rows.keys[i] {
      RowDatesAreKeys(Points(es), rows.keys[i]);
    }
    assert Dates(LineData(es)) == rows.keys;
    FirstOccurrencesOrder(DayKeys(es));
  }

  /** Adding a point opens a row for its own day and for no other. */
  lemma RowStepKeys(rows: IMap<Row>, p: Point, day: string)
    ensures day in AddToRow(rows, p).vals <==> day in rows.vals || day == p.day
  {
  }

  /** Adding a point raises its own day's count of its own mood by one and no other count. */
  lemma RowStepMood(rows: IMap<Row>, p: Point, day: string, m: Mood)
    requires day in AddToRow(rows, p).vals
    ensures AddToRow(rows, p).vals[day].counts.Get(m)
            == (if day in rows.vals then rows.vals[day].counts.Get(m) else 0)
               + (if Point(day, m) == p then 1 else 0)
  {
    if day == p.day && m != p.mood {
      rows.GetOr(p.day, Row(p.day, Zero)).counts.BumpLeavesOthers(p.mood, m);
    }
  }

  /** Adding a point raises its own day's total by one and no other day's. */
  lemma RowStepTotal(rows: IMap<Row>, p: Point, day: string)
    requires day in AddToRow(rows, p).vals
    ensures AddToRow(rows, p).vals[day].counts.Total()
            == (if day in rows.vals then rows.vals[day].counts.Total() else 0)
               + (if day == p.day then 1 else 0)
  {
  }

  /** A date has a row exactly when some point has that date. */
  lemma {:induction false} RowIffEntries(ps: seq<Point>, day: string)
    ensures day in RowsByDate(ps).vals <==> EntriesOn(ps, day) > 0
  {
    if |ps| > 0 {
      var init, p := ps[..|ps| - 1], ps[|ps| - 1];
      RowIffEntries(init, day);
      RowStepKeys(RowsByDate(init), p, day);
    }
  }

  /** A date's row counts, for each mood, the points of that date with that mood. */
  lemma {:induction false} RowCountsMood(ps: seq<Point>, day: string, m: Mood)
    requires day in RowsByDate(ps).vals
    ensures RowsByDate(ps).vals[day].counts.Get(m) == OnDay(ps, day, m)
  {
    var init := ps[..|ps| - 1];
    if day in RowsByDate(init).vals {
      RowCountsMood(init, day, m);
    } else {
      RowIffEntries(init, day);
      OnDayAtMostEntriesOn(init, day, m);
    }
    MoodStep(ps, day, m);
  }

  /** RowStepMood, read on the fold. */
  lemma MoodStep(ps: seq<Point>, day: string, m: Mood)
    requires |ps| > 0 && day in RowsByDate(ps).vals
    ensures var rows := RowsByDate(ps[..|ps| - 1]);
            RowsByDate(ps).vals[day].counts.Get(m)
            == (if day in rows.vals then rows.vals[day].counts.Get(m) else 0) + (if Point(day, m) == ps[|ps| - 1] then 1 else 0)
  {
    RowStepMood(RowsByDate(ps[..|ps| - 1]), ps[|ps| - 1], day, m);
  }

  /** A date's row holds as many points in all as the date has. */
  lemma {:induction false} RowCountsTotal(ps: seq<Point>, day: string)
    requires day in RowsByDate(ps).vals
    ensures RowsByDate(ps).vals[day].counts.Total() == EntriesOn(ps, day)
  {
    var init := ps[..|ps| - 1];
    if day in RowsByDate(init).vals {
      RowCountsTotal(init, day);
    } else {
      RowIffEntries(init, day);
    }
    TotalStep(ps, day);
  }

  /** RowStepTotal, read on the fold. */
  lemma TotalStep(ps: seq<Point>, day: string)
    requires |ps| > 0 && day in RowsByDate(ps).vals
    ensures var rows := RowsByDate(ps[..|ps| - 1]);
            RowsByDate(ps).vals[day].counts.Total()
            == (if day in rows.vals then rows.vals[day].counts.Total() else 0) + (if day == ps[|ps| - 1].day then 1 else 0)
  {
    RowStepTotal(RowsByDate(ps[..|ps| - 1]), ps[|ps| - 1], day);
  }

  /**
   Read off the line chart: each row counts, per mood, the entries of its
   date with that mood, and its counts add up to the date's (positive)
   number of entries.
   */
  lemma LineRowsCountDays(es: seq<Entry>)
    requires AllKnown(es)
    ensures forall i, m: Mood :: 0 <= i < |LineData(es)| ==>
              LineData(es)[i].counts.Get(m) == OnDay(Points(es), LineData(es)[i].date, m)
    ensures forall i :: 0 <= i < |LineData(es)| ==>
              LineData(es)[i].counts.Total() == EntriesOn(Points(es), LineData(es)[i].date) > 0
  {
    var ps := Points(es);
    var rows := RowsByDate(ps);
    RowsByDateValid(ps);
    forall i, m: Mood | 0 <= i < |LineData(es)|
      ensures LineData(es)[i].counts.Get(m) == OnDay(ps, LineData(es)[i].date, m)
    {
      RowDatesAreKeys(ps, rows.keys[i]);
      RowCountsMood(ps, rows.keys[i], m);
    }
    forall i | 0 <= i < |LineData(es)|
      ensures LineData(es)[i].counts.Total() == EntriesOn(ps, LineData(es)[i].date) > 0
    {
      RowDatesAreKeys(ps, rows.keys[i]);
      RowCountsTotal(ps, rows.keys[i]);
      RowIffEntries(ps, rows.keys[i]);
    }
  }

  /** `emotionCount`: the pie totals, one per mood, adding up to the number of points. */
  function PieCounts(ps: seq<Point>): (t: Tally)
    ensures t.Total() == |ps|
  {
    if |ps| == 0 then Zero else PieCounts(ps[..|ps| - 1]).Bump(ps[|ps| - 1].mood)
  }

  /** Each pie total is the number of points with that mood. */
  lemma {:induction false} PieCountsWithMood(ps: seq<Point>, m: Mood)
    ensures PieCounts(ps).Get(m) == WithMood(ps, m)
  {
    if |ps| > 0 {
      var init, p := ps[..|ps| - 1], ps[|ps| - 1];
      PieCountsWithMood(init, m);
      if p.mood != m {
        PieCounts(init).BumpLeavesOthers(p.mood, m);
      }
    }
  }

  /** A row's count for mood `m`, as summed over the rows. */
  function MoodColumn(m: Mood): Row -> nat {
    (r: Row) => r.counts.Get(m)
  }

  /** Adding a point to the rows raises the column of its own mood by one and no other column. */
  lemma ColumnStep(rows: IMap<Row>, p: Point, m: Mood)
    requires rows.Valid()
    ensures SumBy(AddToRow(rows, p), MoodColumn(m)) == SumBy(rows, MoodColumn(m)) + (if m == p.mood then 1 else 0)
  {
    var row := rows.GetOr(p.day, Row(p.day, Zero));
    var row' := row.(counts := row.counts.Bump(p.mood));
    var f := MoodColumn(m);
    assert (if p.day in rows.vals then f(rows.vals[p.day]) else 0) == row.counts.Get(m);
    assert f(row') == row.counts.Get(m) + (if m == p.mood then 1 else 0) by {
      if m != p.mood {
        row.counts.BumpLeavesOthers(p.mood, m);
      }
    }
    SumByPut(rows, f, p.day, row');
  }

  /** Summing one mood's field over all rows gives that mood's pie total. */
  lemma {:induction false} RowsSumToPie(ps: seq<Point>, m: Mood)
    ensures SumBy(RowsByDate(ps), MoodColumn(m)) == PieCounts(ps).Get(m)
  {
    if |ps| > 0 {
      var init, p := ps[..|ps| - 1], ps[|ps| - 1];
      RowsSumToPie(init, m);
      RowsByDateValid(init);
      ColumnStep(RowsByDate(init), p, m);
      if m != p.mood {
        PieCounts(init).BumpLeavesOthers(p.mood, m);
      }
    }
  }

  /** One pie slice. */
  datatype Slice = Slice(name: string, value: nat)

  /**
   `pieData`: exactly four slices, happy, sad, angry, neutral in that order,
   each the mood's number of entries; together they account for every entry.
   */
  function PieData(es: seq<Entry>): (slices: seq<Slice>)
    requires AllKnown(es)
    ensures |slices| == |Moods| == 4
    ensures forall i :: 0 <= i < 4 ==> slices[i].name == Moods[i].Name()
    ensures forall i :: 0 <= i < 4 ==> slices[i].value == Occurrences(es, Moods[i].Name())
    ensures slices[0].value + slices[1].value + slices[2].value + slices[3].value == |es|
  {
    var t := PieCounts(Points(es));
    forall i | 0 <= i < |Moods| ensures t.Get(Moods[i]) == Occurrences(es, Moods[i].Name()) {
      PieCountsWithMood(Points(es), Moods[i]);
      WithMoodIsOccurrences(es, Moods[i]);
    }
    // `Object.keys(emotionCount)` lists the moods in the order the literal wrote them.
    seq(|Moods|, i requires 0 <= i < |Moods| => Slice(Moods[i].Name(), t.Get(Moods[i])))
  }

  /** Four slices named after `Moods` name each mood exactly once. */
  lemma SlicesNameEachMoodOnce(slices: seq<Slice>, m: Mood) returns (i: int)
    requires |slices| == |Moods|
    requires forall k :: 0 <= k < |Moods| ==> slices[k].name == Moods[k].Name()
    ensures 0 <= i < |slices| && slices[i].name == m.Name() && Moods[i] == m
    ensures forall j, k :: 0 <= j < k < |slices| ==> slices[j].name != slices[k].name
  {
    i := match m case Happy => 0 case Sad => 1 case Angry => 2 case Neutral => 3;
    MoodsListsEveryMoodOnce();
    forall j, k | 0 <= j < k < |slices| ensures slices[j].name != slices[k].name {
      NameInjective(Moods[j], Moods[k]);
    }
  }

  /** Each mood has exactly one slice, carrying that mood's number of entries. */
  lemma OneSlicePerMood(es: seq<Entry>, m: Mood)
    requires AllKnown(es)
    ensures exists i :: 0 <= i < |PieData(es)| && PieData(es)[i] == Slice(m.Name(), Occurrences(es, m.Name()))
    ensures forall i, j :: 0 <= i < j < |PieData(es)| ==> PieData(es)[i].name != PieData(es)[j].name
  {
    var slices := PieData(es);
    var i := SlicesNameEachMoodOnce(slices, m);
    assert slices[i] == Slice(m.Name(), Occurrences(es, m.Name()));
  }
}
