/** The progress ledger of app.py: a per-session table of dated weight
    entries, each with the BMI worked out from the logged weight and the
    height currently in the form, rounded to one decimal. The table only
    grows, by one row per submitted form, in the order of submission; it is
    shown, with a weight-and-BMI chart over the dates, once it holds a row. */
module Progress {
  import opened Rounding
  import opened Metrics

  /** A calendar date as the date picker returns it. */
  datatype Date = Date(year: int, month: int, day: int)

  /** One row of the table: Date, Weight (kg) and BMI. */
  datatype Entry = Entry(date: Date, weight: real, bmi: real)

  /** The BMI stored with an entry: the exact BMI rounded to one decimal,
      so never more than 0.05 away from it. */
  function LoggedBmi(weight: real, height: real): (bmi: real)
    requires height > 0.0
    ensures Bmi(weight, height) - 0.05 <= bmi <= Bmi(weight, height) + 0.05
    ensures IsTenth(bmi)
  {
    RoundTenth(Bmi(weight, height))
  }

  /** `x` has at most one decimal place. */
  predicate IsTenth(x: real) {
    (x * 10.0).Floor as real == x * 10.0
  }

  /** Over the form's ranges the exact BMI lies between 6.19 (30 kg at
      220 cm) and 138.9 (200 kg at 120 cm). */
  lemma BmiRange(weight: real, height: real)
    requires ValidWeight(weight) && ValidHeight(height)
    ensures 6.19 <= Bmi(weight, height) <= 138.9
  {
    var m := HeightMeters(height);
    var b := Bmi(weight, height);
    assert 1.2 <= m <= 2.2;
    assert 1.44 <= m * m <= 4.84 by {
      assert m * m <= 2.2 * m;
      assert m * m >= 1.2 * m;
    }
    assert b * (m * m) == weight;
    assert 6.19 * (m * m) < weight && weight < 138.9 * (m * m);
  }

  /** What every row of the table satisfies: a weight the form accepts and
      a one-decimal BMI in the range such a weight gives. */
  predicate ValidEntry(e: Entry) {
    ValidWeight(e.weight) && 6.1 <= e.bmi <= 139.0 && IsTenth(e.bmi)
  }

  /** The row the form adds for a date, a weight and the current height. */
  function NewEntry(logDate: Date, logWeight: real, height: real): (e: Entry)
    requires ValidWeight(logWeight) && ValidHeight(height)
    ensures e.date == logDate && e.weight == logWeight
    ensures Bmi(logWeight, height) - 0.05 <= e.bmi <= Bmi(logWeight, height) + 0.05 && IsTenth(e.bmi)
    ensures e.bmi == LoggedBmi(logWeight, height)
    ensures ValidEntry(e)
  {
    BmiRange(logWeight, height);
    Entry(logDate, logWeight, LoggedBmi(logWeight, height))
  }

  /** The Date-and-value pairs the chart draws for one of its two lines. */
  datatype Point = Point(date: Date, value: real)

  /** The weight line of the chart: one point per row, in row order. */
  function WeightSeries(entries: seq<Entry>): (line: seq<Point>)
    ensures |line| == |entries|
    ensures forall i :: 0 <= i < |entries| ==> line[i] == Point(entries[i].date, entries[i].weight)
  {
    if entries == [] then [] else [Point(entries[0].date, entries[0].weight)] + WeightSeries(entries[1..])
  }

  /** The BMI line of the chart: one point per row, in row order. */
  function BmiSeries(entries: seq<Entry>): (line: seq<Point>)
    ensures |line| == |entries|
    ensures forall i :: 0 <= i < |entries| ==> line[i] == Point(entries[i].date, entries[i].bmi)
  {
    if entries == [] then [] else [Point(entries[0].date, entries[0].bmi)] + BmiSeries(entries[1..])
  }

  /** What the tracker shows: a notice when there is no row, otherwise the
      table and the chart's two lines. */
  datatype ProgressView =
    | NoData
    | History(table: seq<Entry>, weightLine: seq<Point>, bmiLine: seq<Point>)

  /** The session's progress table. */
  class ProgressLedger {
    var entries: seq<Entry>

    /** Every row is one the form could have added. */
    predicate Valid()
      reads this
    {
      forall i :: 0 <= i < |entries| ==> ValidEntry(entries[i])
    }

    /** A new session starts with an empty table. */
    constructor()
      ensures entries == []
      ensures Valid()
    {
      entries := [];
    }

    /** Submitting the form appends one row at the end; the rows already
        there stay as they were. */
    method Add(logDate: Date, logWeight: real, height: real)
      requires Valid()
      requires ValidWeight(logWeight) && ValidHeight(height)
      modifies this
      ensures entries == old(entries) + [NewEntry(logDate, logWeight, height)]
      ensures Valid()
    {
      var logBmi := Bmi(logWeight, height);
      var newEntry := Entry(logDate, logWeight, RoundTenth(logBmi));
      entries := entries + [newEntry];
    }

    /** The tracker section: nothing but a notice for an empty table,
        otherwise the rows as they stand and one chart point per row. */
    method Show() returns (view: ProgressView)
      ensures view == NoData <==> entries == []
      ensures view.History? ==> view.table == entries
      ensures view.History? ==> view.weightLine == WeightSeries(entries) && view.bmiLine == BmiSeries(entries)
    {
      if entries != [] {
        view := History(entries, WeightSeries(entries), BmiSeries(entries));
      } else {
        view := NoData;
      }
    }
  }

  /** Adding a row extends both chart lines by that row's point and leaves
      the earlier points where they were. */
  lemma SeriesGrowAtEnd(entries: seq<Entry>, e: Entry)
    ensures WeightSeries(entries + [e]) == WeightSeries(entries) + [Point(e.date, e.weight)]
    ensures BmiSeries(entries + [e]) == BmiSeries(entries) + [Point(e.date, e.bmi)]
  {
  }

  /** 70 kg at 165 cm is logged with a BMI of 25.7. */
  lemma LoggedBmiExample()
    ensures LoggedBmi(70.0, 165.0) == 25.7
  {
  }
}
