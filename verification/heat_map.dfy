/**
 The weekly heat map: every entry is bucketed into a weekday column and one of
 four time-of-day rows; a later entry in the same cell overwrites an earlier
 one, and cells nobody wrote stay empty.
 */
module HeatMap {
  import opened Entries

  /** Day names indexed by `Date.getDay` (Sunday first). */
  const DayNames: seq<string> :=
    ["Sunday", "Monday", "Tuesday", "Wednesday", "Thursday", "Friday", "Saturday"]

  /** Column order of the rendered grid (Monday first). */
  const Weekdays: seq<string> :=
    ["Monday", "Tuesday", "Wednesday", "Thursday", "Friday", "Saturday", "Sunday"]

  /** Row order of the rendered grid. */
  const Timeslots: seq<string> := ["Morning", "Afternoon", "Evening", "Night"]

  function DayName(d: Weekday): (name: string)
    ensures name in Weekdays
  {
    assert DayNames[d] == Weekdays[(d + 6) % 7];
    DayNames[d]
  }

  /** Distinct day numbers get distinct names: the first two letters already tell the seven apart. */
  lemma DayNameInjective(d1: Weekday, d2: Weekday)
    requires d1 != d2
    ensures DayName(d1) != DayName(d2)
  {
    assert DayNames[0][0] == 'S' && DayNames[0][1] == 'u';
    assert DayNames[1][0] == 'M' && DayNames[1][1] == 'o';
    assert DayNames[2][0] == 'T' && DayNames[2][1] == 'u';
    assert DayNames[3][0] == 'W' && DayNames[3][1] == 'e';
    assert DayNames[4][0] == 'T' && DayNames[4][1] == 'h';
    assert DayNames[5][0] == 'F' && DayNames[5][1] == 'r';
    assert DayNames[6][0] == 'S' && DayNames[6][1] == 'a';
    assert DayName(d1)[0] != DayName(d2)[0] || DayName(d1)[1] != DayName(d2)[1];
  }

  /** `getDay` numbers Sunday 0, and the table follows it. */
  lemma DayZeroIsSunday()
    ensures DayName(0) == "Sunday"
  {
  }

  /** Every column of the grid is the name of some day number. */
  lemma DayNameOnto(n: string)
    requires n in Weekdays
    ensures exists d: Weekday :: DayName(d) == n
  {
    var j :| 0 <= j < 7 && Weekdays[j] == n;
    var d: Weekday := (j + 1) % 7;
    assert DayName(d) == n;
  }

  function TimeSlot(h: Hour): (slot: string)
    ensures slot in Timeslots
    ensures slot == "Morning" <==> 5 <= h < 12
    ensures slot == "Afternoon" <==> 12 <= h < 17
    ensures slot == "Evening" <==> 17 <= h < 21
    ensures slot == "Night" <==> h < 5 || 21 <= h
  {
    if 5 <= h < 12 then "Morning"
    else if 12 <= h < 17 then "Afternoon"
    else if 17 <= h < 21 then "Evening"
    else "Night"
  }

  /** Every hour falls in exactly one of the four listed time slots. */
  lemma TimeslotsPartitionHours(h: Hour)
    ensures exists i :: 0 <= i < |Timeslots| && Timeslots[i] == TimeSlot(h)
    ensures forall i, j ::
              (0 <= i < |Timeslots| && 0 <= j < |Timeslots| && Timeslots[i] == TimeSlot(h) && Timeslots[j] == TimeSlot(h))
              ==> i == j
  {
    assert Timeslots[0] != Timeslots[1] && Timeslots[0] != Timeslots[2] && Timeslots[0] != Timeslots[3];
    assert Timeslots[1] != Timeslots[2] && Timeslots[1] != Timeslots[3];
    assert Timeslots[2] != Timeslots[3];
  }

  /** `emotionMap`: day name to (time slot to emotion). */
  type Grid = map<string, map<string, string>>

  predicate LandsIn(e: Entry, day: string, slot: string) {
    DayName(e.weekday) == day && TimeSlot(e.hour) == slot
  }

  /** Entry `i` lands in the cell and no later entry does. */
  predicate LastIn(es: seq<Entry>, day: string, slot: string, i: int) {
    && 0 <= i < |es|
    && LandsIn(es[i], day, slot)
    && forall j :: i < j < |es| ==> !LandsIn(es[j], day, slot)
  }

  /** One step of the `forEach`: create the day's row if missing, then overwrite the cell. */
  function Place(g: Grid, e: Entry): Grid {
    var day := DayName(e.weekday);
    var slot := TimeSlot(e.hour);
    var row := if day in g then g[day] else map[];
    g[day := row[slot := e.emotion]]
  }

  function Bucket(es: seq<Entry>): (g: Grid)
    ensures forall day :: day in g ==> day in Weekdays
    ensures forall day, slot :: day in g && slot in g[day] ==> slot in Timeslots
  {
    if |es| == 0 then map[] else Place(Bucket(es[..|es| - 1]), es[|es| - 1])
  }

  /** `emotionMap[day]?.[slot]`. */
  function Cell(g: Grid, day: string, slot: string): Option<string> {
    if day in g && slot in g[day] then Some(g[day][slot]) else None
  }

  /** Appending an entry writes its own cell and leaves every other cell as it was. */
  lemma AppendChangesOnlyOwnCell(es: seq<Entry>, e: Entry, day: string, slot: string)
    ensures Cell(Bucket(es + [e]), day, slot)
            == if LandsIn(e, day, slot) then Some(e.emotion) else Cell(Bucket(es), day, slot)
  {
    AppendPrefix(es, e);
  }

  /**
   After the fold a cell is empty iff no entry lands in it, and otherwise holds
   the emotion of the last entry, in list order, that lands in it.
   */
  lemma {:induction false} CellIsLastWriter(es: seq<Entry>, day: string, slot: string)
    ensures Cell(Bucket(es), day, slot).None? <==> forall i :: 0 <= i < |es| ==> !LandsIn(es[i], day, slot)
    ensures forall i :: LastIn(es, day, slot, i) ==> Cell(Bucket(es), day, slot) == Some(es[i].emotion)
  {
    if |es| > 0 {
      var n := |es| - 1;
      var init, e := es[..n], es[n];
      assert es == init + [e];
      AppendChangesOnlyOwnCell(init, e, day, slot);
      CellIsLastWriter(init, day, slot);
      if LandsIn(e, day, slot) {
        forall i | LastIn(es, day, slot, i) ensures i == n {
        }
      } else {
        forall i | LastIn(es, day, slot, i) ensures LastIn(init, day, slot, i) {
        }
        forall i | 0 <= i < n ensures es[i] == init[i] {
        }
      }
    }
  }

  lemma AllCellsLastWriter(es: seq<Entry>)
    ensures forall day, slot :: Cell(Bucket(es), day, slot).None? <==>
              forall i :: 0 <= i < |es| ==> !LandsIn(es[i], day, slot)
    ensures forall day, slot, i :: LastIn(es, day, slot, i) ==> Cell(Bucket(es), day, slot) == Some(es[i].emotion)
  {
    forall day, slot ensures Cell(Bucket(es), day, slot).None? <==>
                               forall i :: 0 <= i < |es| ==> !LandsIn(es[i], day, slot)
    {
      CellIsLastWriter(es, day, slot);
    }
    forall day, slot, i | LastIn(es, day, slot, i) ensures Cell(Bucket(es), day, slot) == Some(es[i].emotion) {
      CellIsLastWriter(es, day, slot);
    }
  }

  /** The text a cell shows: `emotion || ""`. */
  function CellText(g: Grid, day: string, slot: string): string {
    match Cell(g, day, slot)
    case Some(v) => v
    case None => ""
  }

  /**
   The rendered grid, row `i` for `Timeslots[i]` and column `j` for
   `Weekdays[j]`: always 4 x 7 = 28 cells, empty where no entry landed and
   otherwise the emotion of the last entry that landed there.
   */
  function Render(es: seq<Entry>): (rows: seq<seq<string>>)
    ensures |rows| == |Timeslots| == 4
    ensures forall i :: 0 <= i < |rows| ==> |rows[i]| == |Weekdays| == 7
    ensures forall i, j :: 0 <= i < 4 && 0 <= j < 7 && (forall k :: 0 <= k < |es| ==> !LandsIn(es[k], Weekdays[j], Timeslots[i]))
              ==> rows[i][j] == ""
    ensures forall i, j, k :: 0 <= i < 4 && 0 <= j < 7 && LastIn(es, Weekdays[j], Timeslots[i], k)
              ==> rows[i][j] == es[k].emotion
  {
    var g := Bucket(es);
    AllCellsLastWriter(es);
    seq(4, i requires 0 <= i < 4 =>
      seq(7, j requires 0 <= j < 7 => CellText(g, Weekdays[j], Timeslots[i])))
  }

  /** Every entry lands in a cell the grid displays. */
  lemma EveryEntryIsDisplayed(e: Entry)
    ensures exists i, j :: 0 <= i < 4 && 0 <= j < 7 && LandsIn(e, Weekdays[j], Timeslots[i])
  {
    var i :| 0 <= i < 4 && Timeslots[i] == TimeSlot(e.hour);
    var j :| 0 <= j < 7 && Weekdays[j] == DayName(e.weekday);
    assert LandsIn(e, Weekdays[j], Timeslots[i]);
  }
}
