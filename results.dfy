/**
 * What `displayResults` in script.js derives from the analysis rows: the
 * table (one row of cells per data row), the three chart series, the
 * `crowdMap` lookup and the crowd axis's tick labels.
 */
module Results {
  import opened Wrappers

  /** One element of the analysis response: `{ time, Crowd_Level, Safety_Rating }`. */
  datatype Row = Row(time: string, crowdLevel: string, safetyRating: int)

  /** The three `<td>` cells of one table row, in column order. */
  datatype TableRow = TableRow(time: string, crowdLevel: string, safetyRating: int)

  /** The results table: the station named in its heading and its body rows. */
  datatype Table = Table(station: string, rows: seq<TableRow>)

  /** The data handed to the chart: x-axis labels and the two plotted series. */
  datatype ChartData = ChartData(labels: seq<string>, safety: seq<int>, crowd: seq<Option<int>>)

  /** The cells of one row are the row's fields, unchanged and in column order. */
  function Cells(row: Row): TableRow
  {
    TableRow(row.time, row.crowdLevel, row.safetyRating)
  }

  /** `crowdMap[level]`: the three named levels map to 1, 2, 3; anything else is `undefined`. */
  function CrowdValue(level: string): (v: Option<int>)
    ensures v.Some? <==> level == "Low" || level == "Medium" || level == "High"
    ensures v.Some? ==> 1 <= v.value <= 3
  {
    if level == "Low" then Some(1)
    else if level == "Medium" then Some(2)
    else if level == "High" then Some(3)
    else None
  }

  /** The tick callback `['','Low','Medium','High',''][value]`; outside 0..4 it is `undefined`. */
  function TickLabel(value: int): (l: Option<string>)
    ensures l.Some? <==> 0 <= value <= 4
  {
    if 0 <= value < 5 then Some(["", "Low", "Medium", "High", ""][value]) else None
  }

  /** The three `data.map` calls, over the rows in order. */
  function Chart(data: seq<Row>): (c: ChartData)
    ensures |c.labels| == |data| && |c.safety| == |data| && |c.crowd| == |data|
    ensures forall k :: 0 <= k < |data| && c.crowd[k].Some? ==> 1 <= c.crowd[k].value <= 3
  {
    ChartData(
      seq(|data|, k requires 0 <= k < |data| => data[k].time),
      seq(|data|, k requires 0 <= k < |data| => data[k].safetyRating),
      seq(|data|, k requires 0 <= k < |data| => CrowdValue(data[k].crowdLevel)))
  }

  /**
   * The table-building loop of `displayResults`: a row per data row, with the
   * cells copied verbatim, in data order.
   */
  method BuildTable(station: string, data: seq<Row>) returns (t: Table)
    ensures t.station == station
    ensures |t.rows| == |data|
    ensures forall k :: 0 <= k < |data| ==>
      t.rows[k].time == data[k].time && t.rows[k].crowdLevel == data[k].crowdLevel
      && t.rows[k].safetyRating == data[k].safetyRating
  {
    var rows: seq<TableRow> := [];
    for i := 0 to |data|
      invariant |rows| == i
      invariant forall k :: 0 <= k < i ==> rows[k] == Cells(data[k])
    {
      rows := rows + [Cells(data[i])];
    }
    t := Table(station, rows);
  }

  /** Every series has one entry per row, each taken from the row at the same position. */
  lemma ChartSeries(data: seq<Row>, k: nat)
    requires k < |data|
    ensures var c := Chart(data);
      |c.labels| == |data| && |c.safety| == |data| && |c.crowd| == |data|
      && c.labels[k] == data[k].time && c.safety[k] == data[k].safetyRating
      && (data[k].crowdLevel == "Low" ==> c.crowd[k] == Some(1))
      && (data[k].crowdLevel == "Medium" ==> c.crowd[k] == Some(2))
      && (data[k].crowdLevel == "High" ==> c.crowd[k] == Some(3))
      && (c.crowd[k] == None <==> data[k].crowdLevel !in ["Low", "Medium", "High"])
  {
  }

  /** The tick label of a crowd value names the level it came from: the axis reads back the data. */
  lemma TickLabelInvertsCrowdValue(level: string)
    requires CrowdValue(level).Some?
    ensures TickLabel(CrowdValue(level).value) == Some(level)
  {
  }

  /** Conversely, looking up the label of tick 1, 2 or 3 gives that tick back; 0 and 4 are blank. */
  lemma CrowdValueInvertsTickLabel(value: int)
    requires 0 <= value <= 4
    ensures 1 <= value <= 3 ==> CrowdValue(TickLabel(value).value) == Some(value)
    ensures value == 0 || value == 4 ==> TickLabel(value) == Some("")
  {
  }

  /** Every plotted crowd value lies on the crowd axis, whose range is fixed to [0, 4]. */
  lemma CrowdSeriesOnAxis(data: seq<Row>)
    ensures forall k :: 0 <= k < |data| && Chart(data).crowd[k].Some? ==>
      0 <= Chart(data).crowd[k].value <= 4 && TickLabel(Chart(data).crowd[k].value).Some?
  {
  }

  /** Example: two rows give safety series [4, 2] and crowd series [1, 3]. */
  lemma ExampleCentral()
    ensures var c := Chart([Row("00:00", "Low", 4), Row("01:00", "High", 2)]);
      c.labels == ["00:00", "01:00"] && c.safety == [4, 2] && c.crowd == [Some(1), Some(3)]
  {
  }
}
