/**
 * The chart logic of the dashboard: shaping a stats history into parallel
 * series (`processStatsForCharts`), telling CPS from throughput runs
 * (`determineTestType`), building the per-row series of a finished run, and
 * the three module-level chart handles that the update, reset and destroy
 * functions change. Chart.js rendering, colours and axis styling are left
 * out; a chart is its titles, labels and datasets.
 */
module Charts {
  import opened Wrappers
  import opened Values
  import Parameters

  /** A chart point: a value copied from the history, or a number parsed from a CSV row (NaN when parsing fails). */
  datatype Point = Raw(v: Json) | Num(x: real) | NaN

  datatype Dataset = Dataset(legend: string, data: seq<Point>)

  /** The object `processStatsForCharts` returns. */
  datatype ChartSeries = ChartSeries(
    labels: seq<string>,
    datasets: seq<Dataset>,
    cpsDatasets: seq<Dataset>,
    errorDatasets: seq<Dataset>)

  // ---------------------------------------------------------------------------
  // processStatsForCharts

  /** The label of a history entry: its timestamp rendered by `timeLabel` when truthy, else ''. */
  function EntryLabel(entry: Json, timeLabel: Json -> string): string {
    match Field(entry, "timestamp")
    case Some(ts) => if JsTruthy(ts) then timeLabel(ts) else ""
    case None => ""
  }

  /** `(entry[role] || {})[metric] || 0`. */
  function Metric(entry: Json, role: string, metric: string): Json {
    var stats := match Field(entry, role)
      case Some(s) => if JsTruthy(s) then s else Obj(map[])
      case None => Obj(map[]);
    match Field(stats, metric)
    case Some(v) => if JsTruthy(v) then v else Int(0)
    case None => Int(0)
  }

  /**
   * A metric is the value stored under the role's object when that value is
   * truthy, and 0 in every other case: no role, a role that is not an object,
   * no such metric, or a falsy one.
   */
  lemma MetricMeaning(entry: Json, role: string, metric: string)
    ensures var present :=
        && entry.Obj? && role in entry.fields
        && entry.fields[role].Obj? && metric in entry.fields[role].fields
        && JsTruthy(entry.fields[role].fields[metric]);
      Metric(entry, role, metric) == if present then entry.fields[role].fields[metric] else Int(0)
  {
  }

  /** The result for a null or empty history. */
  const NoSeries := ChartSeries([], [], [], [])

  /** What `processStatsForCharts` promises for a non-empty history it went through. */
  ghost predicate SeriesOfHistory(history: seq<Json>, r: ChartSeries, timeLabel: Json -> string) {
    && |r.labels| == |history|
    && |r.datasets| == 2 && |r.cpsDatasets| == 2 && |r.errorDatasets| == 2
    && r.datasets[0].legend == "Server Throughput (Mbps)" && r.datasets[1].legend == "Client Throughput (Mbps)"
    && r.cpsDatasets[0].legend == "Server CPS" && r.cpsDatasets[1].legend == "Client CPS"
    && r.errorDatasets[0].legend == "Server Errors" && r.errorDatasets[1].legend == "Client Errors"
    && (forall d :: 0 <= d < 2 ==>
      && |r.datasets[d].data| == |history|
      && |r.cpsDatasets[d].data| == |history|
      && |r.errorDatasets[d].data| == |history|)
    && forall i :: 0 <= i < |history| ==>
      && r.labels[i] == EntryLabel(history[i], timeLabel)
      && r.datasets[0].data[i] == Raw(Metric(history[i], "server", "throughput_mbps"))
      && r.datasets[1].data[i] == Raw(Metric(history[i], "client", "throughput_mbps"))
      && r.cpsDatasets[0].data[i] == Raw(Metric(history[i], "server", "connections_per_second"))
      && r.cpsDatasets[1].data[i] == Raw(Metric(history[i], "client", "connections_per_second"))
      && r.errorDatasets[0].data[i] == Raw(Metric(history[i], "server", "errors"))
      && r.errorDatasets[1].data[i] == Raw(Metric(history[i], "client", "errors"))
  }

  /**
   * `processStatsForCharts`: nothing for a null or empty history; otherwise one
   * label and one point of each of the six series per entry. A null entry
   * raises (property access on null), modelled as `None`.
   */
  method ProcessStatsForCharts(history: Option<seq<Json>>, timeLabel: Json -> string) returns (r: Option<ChartSeries>)
    ensures history.None? || history == Some([]) ==> r == Some(NoSeries)
    ensures r.None? <==> history.Some? && exists i :: 0 <= i < |history.value| && history.value[i].Null?
    ensures r.Some? && history.Some? && history.value != [] ==> SeriesOfHistory(history.value, r.value, timeLabel)
  {
    if history.None? || history.value == [] {
      return Some(NoSeries);
    }
    var entries := history.value;
    var labels: seq<string> := [];
    var serverThroughput: seq<Point> := [];
    var clientThroughput: seq<Point> := [];
    var serverCps: seq<Point> := [];
    var clientCps: seq<Point> := [];
    var serverErrors: seq<Point> := [];
    var clientErrors: seq<Point> := [];
    for i := 0 to |entries|
      invariant forall j :: 0 <= j < i ==> !entries[j].Null?
      invariant |labels| == i && |serverThroughput| == i && |clientThroughput| == i
      invariant |serverCps| == i && |clientCps| == i && |serverErrors| == i && |clientErrors| == i
      invariant forall j :: 0 <= j < i ==>
        && labels[j] == EntryLabel(entries[j], timeLabel)
        && serverThroughput[j] == Raw(Metric(entries[j], "server", "throughput_mbps"))
        && clientThroughput[j] == Raw(Metric(entries[j], "client", "throughput_mbps"))
        && serverCps[j] == Raw(Metric(entries[j], "server", "connections_per_second"))
        && clientCps[j] == Raw(Metric(entries[j], "client", "connections_per_second"))
        && serverErrors[j] == Raw(Metric(entries[j], "server", "errors"))
        && clientErrors[j] == Raw(Metric(entries[j], "client", "errors"))
    {
      var entry := entries[i];
      if entry.Null? {
        return None;
      }
      labels := labels + [EntryLabel(entry, timeLabel)];
      serverThroughput := serverThroughput + [Raw(Metric(entry, "server", "throughput_mbps"))];
      serverCps := serverCps + [Raw(Metric(entry, "server", "connections_per_second"))];
      serverErrors := serverErrors + [Raw(Metric(entry, "server", "errors"))];
      clientThroughput := clientThroughput + [Raw(Metric(entry, "client", "throughput_mbps"))];
      clientCps := clientCps + [Raw(Metric(entry, "client", "connections_per_second"))];
      clientErrors := clientErrors + [Raw(Metric(entry, "client", "errors"))];
    }
    r := Some(ChartSeries(
      labels,
      [Dataset("Server Throughput (Mbps)", serverThroughput), Dataset("Client Throughput (Mbps)", clientThroughput)],
      [Dataset("Server CPS", serverCps), Dataset("Client CPS", clientCps)],
      [Dataset("Server Errors", serverErrors), Dataset("Client Errors", clientErrors)]));
  }

  // ---------------------------------------------------------------------------
  // determineTestType

  /** `hasOwnProperty` of one of the keys this file takes as a sign of a CPS run. */
  predicate HasCpsField(row: Json) {
    row.Obj? && ("ConnectionRate" in row.fields || "ConnectionsSucceeded" in row.fields || "ConnectionsPerSecond" in row.fields)
  }

  /** `rows.some(HasCpsField)`: stops at the first marked row; reaching a null row raises. */
  function SomeCpsRow(rows: seq<Json>): (r: Option<bool>)
    ensures r == Some(true) <==> exists i :: 0 <= i < |rows| && HasCpsField(rows[i]) && forall j :: 0 <= j < i ==> !rows[j].Null?
    ensures r == Some(false) <==> forall i :: 0 <= i < |rows| ==> !HasCpsField(rows[i]) && !rows[i].Null?
    decreases |rows|
  {
    if rows == [] then Some(false)
    else if rows[0].Null? then None
    else if HasCpsField(rows[0]) then Some(true)
    else
      var rest := SomeCpsRow(rows[1..]);
      assert forall i :: 1 <= i < |rows| ==> rows[i] == rows[1..][i - 1];
      rest
  }

  /** `determineTestType`: 'cps' when a server or a client row has a CPS field, 'throughput' otherwise. */
  function DetermineTestType(serverData: seq<Json>, clientData: seq<Json>): (r: Option<string>)
    ensures r.Some? ==> (r.value == "cps" <==> exists row :: row in serverData + clientData && HasCpsField(row))
    ensures r.Some? ==> r.value == "cps" || r.value == "throughput"
    ensures (forall row :: row in serverData + clientData ==> !row.Null?) ==> r.Some?
  {
    match SomeCpsRow(serverData)
    case None => None
    case Some(true) => Some("cps")
    case Some(false) =>
      match SomeCpsRow(clientData)
      case None => None
      case Some(found) =>
        assert forall i :: 0 <= i < |clientData| ==> (serverData + clientData)[|serverData| + i] == clientData[i];
        Some(if found then "cps" else "throughput")
  }

  /**
   * The charts and the statistics table disagree on what makes a CPS run: a
   * row whose only counter is ConnectionsAccepted is CPS for the table and
   * throughput for the charts, and one whose only counter is
   * ConnectionsPerSecond the other way round.
   */
  lemma CpsDetectionDiffers()
    ensures var accepted := Obj(map["ConnectionsAccepted" := Int(5)]);
      Parameters.ScanCps([accepted]) == Some(true) && DetermineTestType([accepted], []) == Some("throughput")
    ensures var perSecond := Obj(map["ConnectionsPerSecond" := Int(5)]);
      Parameters.ScanCps([perSecond]) == Some(false) && DetermineTestType([perSecond], []) == Some("cps")
  {
    var accepted := Obj(map["ConnectionsAccepted" := Int(5)]);
    assert !HasCpsField(accepted);
    var perSecond := Obj(map["ConnectionsPerSecond" := Int(5)]);
    assert !Parameters.MarksCps(perSecond);
  }

  // ---------------------------------------------------------------------------
  // Series of a finished run (updateThroughputChart, updateCPSChartWithData)

  datatype ChartKind = ThroughputKind | CpsKind

  /** `row[key] || 0` as `parseInt` sees it: the parsed text, NaN as `None`. */
  function ParsedOrZero(row: Json, key: string): Option<int> {
    match Field(row, key)
    case Some(v) => if JsTruthy(v) then JsParseIntOf(v) else Some(0)
    case None => Some(0)
  }

  /** The CPS source of a row: ConnectionRate when truthy, else ConnectionsSucceeded when truthy, else 0. */
  function CpsValue(row: Json): (r: Option<int>)
    ensures Field(row, "ConnectionRate").Some? && JsTruthy(Field(row, "ConnectionRate").value) ==>
      r == JsParseIntOf(Field(row, "ConnectionRate").value)
    ensures !(Field(row, "ConnectionRate").Some? && JsTruthy(Field(row, "ConnectionRate").value)) ==>
      r == ParsedOrZero(row, "ConnectionsSucceeded")
  {
    match Field(row, "ConnectionRate")
    case Some(v) => if JsTruthy(v) then JsParseIntOf(v) else ParsedOrZero(row, "ConnectionsSucceeded")
    case None => ParsedOrZero(row, "ConnectionsSucceeded")
  }

  /** The point of a row: throughput in Mbps (bits per second over 10^6), or connections per second. */
  function PointOf(kind: ChartKind, row: Json): Point {
    match kind
    case ThroughputKind =>
      (match ParsedOrZero(row, "Throughput") case Some(n) => Num(n as real / 1000000.0) case None => NaN)
    case CpsKind =>
      (match CpsValue(row) case Some(n) => Num(n as real) case None => NaN)
  }

  /** The label of a CSV row: its parsed Timestamp (seconds) rendered by `timeLabel`. */
  function RowLabel(row: Json, timeLabel: Option<int> -> string): string {
    timeLabel(match Field(row, "Timestamp") case Some(v) => JsParseIntOf(v) case None => None)
  }

  function Min(a: nat, b: nat): nat { if a < b then a else b }

  datatype LineSeries = LineSeries(labels: seq<string>, serverPoints: seq<Point>, clientPoints: seq<Point>)

  /** Some of the first `n` rows is null. */
  predicate NullAmong(rows: seq<Json>, n: nat) {
    exists i :: 0 <= i < n && i < |rows| && rows[i].Null?
  }

  /** A row the series builder reads is null: any server row, or a client row that has a label to sit on. */
  predicate ReadsNull(serverData: seq<Json>, clientData: seq<Json>) {
    NullAmong(serverData, |serverData|) || NullAmong(clientData, |serverData|)
  }

  /** One label per row. */
  function Labels(rows: seq<Json>, timeLabel: Option<int> -> string): (r: seq<string>)
    ensures |r| == |rows| && forall i :: 0 <= i < |rows| ==> r[i] == RowLabel(rows[i], timeLabel)
  {
    seq(|rows|, i requires 0 <= i < |rows| => RowLabel(rows[i], timeLabel))
  }

  /** One point for each of the first `n` rows. */
  function Points(kind: ChartKind, rows: seq<Json>, n: nat): (r: seq<Point>)
    requires n <= |rows|
    ensures |r| == n && forall i :: 0 <= i < n ==> r[i] == PointOf(kind, rows[i])
  {
    seq(n, i requires 0 <= i < n => PointOf(kind, rows[i]))
  }

  /**
   * The series of a finished run: one label and one server point per server
   * row, and client points only for indices that have a label, so the client
   * series is as long as the shorter of the two inputs.
   */
  function SeriesOf(kind: ChartKind, serverData: seq<Json>, clientData: seq<Json>, timeLabel: Option<int> -> string): (r: Option<LineSeries>)
    ensures r.None? <==> ReadsNull(serverData, clientData)
    ensures r.Some? ==>
      && |r.value.labels| == |serverData| && |r.value.serverPoints| == |serverData|
      && |r.value.clientPoints| == Min(|clientData|, |serverData|)
  {
    if ReadsNull(serverData, clientData) then None
    else Some(LineSeries(
      Labels(serverData, timeLabel),
      Points(kind, serverData, |serverData|),
      Points(kind, clientData, Min(|clientData|, |serverData|))))
  }

  /** The server loop: a label and a point per row. */
  method ServerSeries(kind: ChartKind, serverData: seq<Json>, timeLabel: Option<int> -> string)
    returns (r: Option<(seq<string>, seq<Point>)>)
    ensures r.None? <==> NullAmong(serverData, |serverData|)
    ensures r.Some? ==> r.value == (Labels(serverData, timeLabel), Points(kind, serverData, |serverData|))
  {
    var labels: seq<string> := [];
    var points: seq<Point> := [];
    for i := 0 to |serverData|
      invariant !NullAmong(serverData, i)
      invariant labels == Labels(serverData[..i], timeLabel)
      invariant points == Points(kind, serverData, i)
    {
      if serverData[i].Null? {
        return None;
      }
      LabelsGrow(serverData, i, timeLabel);
      PointsGrow(kind, serverData, i);
      labels := labels + [RowLabel(serverData[i], timeLabel)];
      points := points + [PointOf(kind, serverData[i])];
    }
    assert serverData[..|serverData|] == serverData;
    return Some((labels, points));
  }

  lemma LabelsGrow(rows: seq<Json>, i: nat, timeLabel: Option<int> -> string)
    requires i < |rows|
    ensures Labels(rows[..i + 1], timeLabel) == Labels(rows[..i], timeLabel) + [RowLabel(rows[i], timeLabel)]
  {
    assert Labels(rows[..i + 1], timeLabel)[i] == RowLabel(rows[i], timeLabel);
  }

  lemma PointsGrow(kind: ChartKind, rows: seq<Json>, i: nat)
    requires i < |rows|
    ensures Points(kind, rows, i + 1) == Points(kind, rows, i) + [PointOf(kind, rows[i])]
  {
    var longer := Points(kind, rows, i + 1);
    var shorter := Points(kind, rows, i);
    assert forall j :: 0 <= j < i ==> longer[j] == shorter[j];
  }

  /** The client loop: a point for each row whose index is below `count`, the number of labels. */
  method ClientSeries(kind: ChartKind, clientData: seq<Json>, count: nat) returns (r: Option<seq<Point>>)
    ensures r.None? <==> NullAmong(clientData, count)
    ensures r.Some? ==> r.value == Points(kind, clientData, Min(|clientData|, count))
  {
    var points: seq<Point> := [];
    for i := 0 to |clientData|
      invariant !NullAmong(clientData, Min(i, count))
      invariant |points| == Min(i, count)
      invariant forall j :: 0 <= j < |points| ==> points[j] == PointOf(kind, clientData[j])
    {
      if i < count {
        if clientData[i].Null? {
          return None;
        }
        points := points + [PointOf(kind, clientData[i])];
      }
    }
    assert points == Points(kind, clientData, Min(|clientData|, count));
    return Some(points);
  }

  /** The two `forEach` loops of `updateThroughputChart` / `updateCPSChartWithData`. */
  method BuildSeries(kind: ChartKind, serverData: seq<Json>, clientData: seq<Json>, timeLabel: Option<int> -> string)
    returns (r: Option<LineSeries>)
    ensures r == SeriesOf(kind, serverData, clientData, timeLabel)
  {
    var server := ServerSeries(kind, serverData, timeLabel);
    if server.None? {
      return None;
    }
    var client := ClientSeries(kind, clientData, |server.value.0|);
    if client.None? {
      return None;
    }
    return Some(LineSeries(server.value.0, server.value.1, client.value));
  }

  // ---------------------------------------------------------------------------
  // The chart handles

  /** A chart as far as the model goes: its title, its y-axis title, its labels and its datasets. */
  datatype Chart = Chart(title: string, yTitle: string, labels: seq<string>, datasets: seq<Dataset>)

  const InitialPerformanceChart := Chart("Real-time Throughput Performance", "Throughput (Mbps)", [],
    [Dataset("Server Throughput (Mbps)", []), Dataset("Client Throughput (Mbps)", [])])
  const InitialCpsChart := Chart("Connections Per Second", "Connections/Second", [],
    [Dataset("Server CPS", []), Dataset("Client CPS", [])])
  const InitialErrorChart := Chart("Error Count Over Time", "Error Count", [],
    [Dataset("Server Errors", []), Dataset("Client Errors", [])])

  /** The dataset label `updateEnhancedChart` gives index `i`. */
  function EnhancedLabel(testType: string, i: nat): string {
    if testType == "cps" then (if i == 0 then "Server CPS" else "Client CPS")
    else (if i == 0 then "Server Throughput (Mbps)" else "Client Throughput (Mbps)")
  }

  /** The chart after `updateEnhancedChart(chartData, testType)`. */
  function Enhanced(chart: Chart, chartData: ChartSeries, testType: string): Chart {
    var cps := testType == "cps";
    Chart(
      if cps then "Real-time CPS Performance" else "Real-time Throughput Performance",
      if cps then "Connections/Second" else "Throughput (Mbps)",
      chartData.labels,
      seq(|chart.datasets|, i requires 0 <= i < |chart.datasets| =>
        if i < |chartData.datasets| then Dataset(EnhancedLabel(testType, i), chartData.datasets[i].data)
        else chart.datasets[i]))
  }

  /**
   * An enhanced update keeps the number of datasets, overwrites only those
   * whose index exists in both, leaves the others alone, and uses CPS wording
   * in the titles and the overwritten labels exactly when the test type is 'cps'.
   */
  lemma EnhancedMeaning(chart: Chart, chartData: ChartSeries, testType: string)
    ensures var c := Enhanced(chart, chartData, testType);
      && |c.datasets| == |chart.datasets|
      && c.labels == chartData.labels
      && (forall i :: 0 <= i < |c.datasets| && i >= |chartData.datasets| ==> c.datasets[i] == chart.datasets[i])
      && (forall i :: 0 <= i < |c.datasets| && i < |chartData.datasets| ==>
        && c.datasets[i].data == chartData.datasets[i].data
        && (c.datasets[i].legend in {"Server CPS", "Client CPS"} <==> testType == "cps"))
      && (c.title == "Real-time CPS Performance" <==> testType == "cps")
      && (c.yTitle == "Connections/Second" <==> testType == "cps")
  {
  }

  /** `resetChart`: no labels, and every dataset keeps its label but loses its points. */
  method ResetChart(chart: Chart) returns (r: Chart)
    ensures r.title == chart.title && r.yTitle == chart.yTitle
    ensures r.labels == [] && |r.datasets| == |chart.datasets|
    ensures forall i :: 0 <= i < |r.datasets| ==> r.datasets[i] == Dataset(chart.datasets[i].legend, [])
  {
    var datasets := chart.datasets;
    for i := 0 to |datasets|
      invariant |datasets| == |chart.datasets|
      invariant forall j :: 0 <= j < |datasets| ==>
        datasets[j] == if j < i then Dataset(chart.datasets[j].legend, []) else chart.datasets[j]
    {
      datasets := datasets[i := datasets[i].(data := [])];
    }
    r := chart.(labels := [], datasets := datasets);
  }

  /** The module-level chart handles `performanceChart`, `cpsChart` and `errorChart`. */
  class ChartBoard {
    var performanceChart: Option<Chart>
    var cpsChart: Option<Chart>
    var errorChart: Option<Chart>

    constructor ()
      ensures performanceChart.None? && cpsChart.None? && errorChart.None?
    {
      performanceChart := None;
      cpsChart := None;
      errorChart := None;
    }

    /** `initializeAllCharts`: each chart whose canvas is on the page is created empty. */
    method InitializeAllCharts(performanceCanvas: bool, cpsCanvas: bool, errorCanvas: bool)
      modifies this
      ensures performanceChart == if performanceCanvas then Some(InitialPerformanceChart) else old(performanceChart)
      ensures cpsChart == if cpsCanvas then Some(InitialCpsChart) else old(cpsChart)
      ensures errorChart == if errorCanvas then Some(InitialErrorChart) else old(errorChart)
    {
      if performanceCanvas {
        performanceChart := Some(InitialPerformanceChart);
      }
      if cpsCanvas {
        cpsChart := Some(InitialCpsChart);
      }
      if errorCanvas {
        errorChart := Some(InitialErrorChart);
      }
    }

    /** `updateEnhancedChart`: nothing without data or without a performance chart. */
    method UpdateEnhancedChart(chartData: Option<ChartSeries>, testType: string)
      modifies this`performanceChart
      ensures chartData.None? || old(performanceChart).None? ==> performanceChart == old(performanceChart)
      ensures chartData.Some? && old(performanceChart).Some? ==>
        performanceChart == Some(Enhanced(old(performanceChart).value, chartData.value, testType))
    {
      if chartData.None? || performanceChart.None? {
        return;
      }
      var data := chartData.value;
      var chart := performanceChart.value;
      var datasets := chart.datasets;
      for index := 0 to |data.datasets|
        invariant |datasets| == |chart.datasets|
        invariant forall j :: 0 <= j < |datasets| ==>
          datasets[j] == if j < index then Dataset(EnhancedLabel(testType, j), data.datasets[j].data) else chart.datasets[j]
      {
        if index < |datasets| {
          datasets := datasets[index := Dataset(EnhancedLabel(testType, index), data.datasets[index].data)];
        }
      }
      assert datasets == Enhanced(chart, data, testType).datasets;
      var cps := testType == "cps";
      performanceChart := Some(Chart(
        if cps then "Real-time CPS Performance" else "Real-time Throughput Performance",
        if cps then "Connections/Second" else "Throughput (Mbps)",
        data.labels,
        datasets));
    }

    /** `resetAllCharts`. */
    method ResetAllCharts()
      modifies this
      ensures performanceChart.None? <==> old(performanceChart).None?
      ensures cpsChart.None? <==> old(cpsChart).None?
      ensures errorChart.None? <==> old(errorChart).None?
      ensures performanceChart.Some? ==> performanceChart.value.labels == [] && Emptied(old(performanceChart).value, performanceChart.value)
      ensures cpsChart.Some? ==> cpsChart.value.labels == [] && Emptied(old(cpsChart).value, cpsChart.value)
      ensures errorChart.Some? ==> errorChart.value.labels == [] && Emptied(old(errorChart).value, errorChart.value)
    {
      if performanceChart.Some? {
        var c := ResetChart(performanceChart.value);
        performanceChart := Some(c);
      }
      if cpsChart.Some? {
        var c := ResetChart(cpsChart.value);
        cpsChart := Some(c);
      }
      if errorChart.Some? {
        var c := ResetChart(errorChart.value);
        errorChart := Some(c);
      }
    }

    /** `destroyAllCharts`. */
    method DestroyAllCharts()
      modifies this
      ensures performanceChart.None? && cpsChart.None? && errorChart.None?
    {
      performanceChart := None;
      cpsChart := None;
      errorChart := None;
    }

    /**
     * `updateThroughputChart` / `updateCPSChartWithData`: builds the series
     * and, when the canvas is on the page, replaces the chart with a new one
     * holding them. A null row read on the way raises before anything
     * changes (`raised`).
     */
    method UpdateRunChart(kind: ChartKind, serverData: seq<Json>, clientData: seq<Json>,
                          timeLabel: Option<int> -> string, canvas: bool) returns (raised: bool)
      modifies this`performanceChart, this`cpsChart
      ensures raised <==> ReadsNull(serverData, clientData)
      ensures raised || !canvas ==> performanceChart == old(performanceChart) && cpsChart == old(cpsChart)
      ensures !raised && canvas && kind == ThroughputKind ==>
        && performanceChart == Some(RunChart(kind, SeriesOf(kind, serverData, clientData, timeLabel).value))
        && cpsChart == old(cpsChart)
      ensures !raised && canvas && kind == CpsKind ==>
        && cpsChart == Some(RunChart(kind, SeriesOf(kind, serverData, clientData, timeLabel).value))
        && performanceChart == old(performanceChart)
    {
      var series := BuildSeries(kind, serverData, clientData, timeLabel);
      if series.None? {
        return true;
      }
      if canvas {
        if kind == ThroughputKind {
          performanceChart := Some(RunChart(kind, series.value));
        } else {
          cpsChart := Some(RunChart(kind, series.value));
        }
      }
      return false;
    }

    /** `updateChartsWithTestData` once the rows are extracted: the CPS chart for a CPS run, else the throughput chart. */
    method UpdateChartsWithRows(serverData: seq<Json>, clientData: seq<Json>,
                                timeLabel: Option<int> -> string, canvas: bool) returns (raised: bool)
      modifies this`performanceChart, this`cpsChart
      ensures raised <==> DetermineTestType(serverData, clientData).None? || ReadsNull(serverData, clientData)
      ensures DetermineTestType(serverData, clientData) == Some("cps") && !raised && canvas ==>
        && SeriesOf(CpsKind, serverData, clientData, timeLabel).Some?
        && cpsChart == Some(RunChart(CpsKind, SeriesOf(CpsKind, serverData, clientData, timeLabel).value))
      ensures DetermineTestType(serverData, clientData) == Some("throughput") && !raised && canvas ==>
        && SeriesOf(ThroughputKind, serverData, clientData, timeLabel).Some?
        && performanceChart == Some(RunChart(ThroughputKind, SeriesOf(ThroughputKind, serverData, clientData, timeLabel).value))
    {
      var testType := DetermineTestType(serverData, clientData);
      if testType.None? {
        return true;
      }
      if testType.value == "throughput" {
        raised := UpdateRunChart(ThroughputKind, serverData, clientData, timeLabel, canvas);
      } else {
        raised := UpdateRunChart(CpsKind, serverData, clientData, timeLabel, canvas);
      }
    }
  }

  /** Every dataset of `after` is the one of `before` with no points. */
  ghost predicate Emptied(before: Chart, after: Chart) {
    && |after.datasets| == |before.datasets|
    && forall i :: 0 <= i < |after.datasets| ==> after.datasets[i] == Dataset(before.datasets[i].legend, [])
  }

  /** The chart a finished run is drawn on. */
  function RunChart(kind: ChartKind, series: LineSeries): Chart {
    match kind
    case ThroughputKind =>
      Chart("Throughput Over Time", "Throughput (Mbps)", series.labels,
        [Dataset("Server Throughput (Mbps)", series.serverPoints), Dataset("Client Throughput (Mbps)", series.clientPoints)])
    case CpsKind =>
      Chart("Connections Per Second Over Time", "Connections Per Second", series.labels,
        [Dataset("Server CPS", series.serverPoints), Dataset("Client CPS", series.clientPoints)])
  }
}
