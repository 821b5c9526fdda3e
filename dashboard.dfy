/**
 * The dashboard client, script.js. It asks fetch_data.php for rows, reverses
 * the returned array in place, turns it into labels and four parallel chart
 * series, and shows one row in the "Latest Readings" panel.
 *
 * The URL, the labels and the series are pure and are functions here. The
 * in-place reverse, the charts' fields and the module-level chart globals are
 * state: a method on an array, and the classes Chart and Page.
 */
module Dashboard {
  import opened Wrappers

  // ---------------------------------------------------------------------------
  // Rows

  /** One row of the JSON array fetch_data.php returns. Each field is what
      parseFloat makes of that column's text; None stands for NaN. */
  datatype Reading = Reading(waterFlow: Option<real>, pressure: Option<real>, quality: Option<real>, consumption: Option<real>)

  /** The four charted columns. */
  datatype Field = WaterFlow | Pressure | Quality | Consumption

  function Get(r: Reading, f: Field): Option<real> {
    match f
    case WaterFlow => r.waterFlow
    case Pressure => r.pressure
    case Quality => r.quality
    case Consumption => r.consumption
  }

  // ---------------------------------------------------------------------------
  // The request URL

  const Endpoint := "fetch_data.php"
  const PeriodQuery := "fetch_data.php?period="

  /** The URL fetchData requests: a non-empty period is truthy and is appended
      as a query parameter, the empty period asks for the bare endpoint. */
  function FetchUrl(period: string): string {
    if period != "" then PeriodQuery + period else Endpoint
  }

  /** The period read back from a URL of the two shapes above: the query
      value, taken verbatim, or "" when there is no period parameter. */
  function RequestedPeriod(url: string): Option<string> {
    if url == Endpoint then Some("")
    else if |PeriodQuery| <= |url| && url[..|PeriodQuery|] == PeriodQuery then Some(url[|PeriodQuery|..])
    else None
  }

  /** Every period is read back from its URL as sent, and the bare endpoint
      is requested exactly for the empty period. */
  lemma PeriodRoundTrip(period: string)
    ensures RequestedPeriod(FetchUrl(period)) == Some(period)
    ensures FetchUrl(period) == Endpoint <==> period == ""
  {
  }

  // ---------------------------------------------------------------------------
  // Labels: `Reading ${index + 1}`

  predicate IsDigit(c: char) {
    '0' <= c <= '9'
  }

  function DigitChar(d: nat): char
    requires d < 10
  {
    ('0' as int + d) as char
  }

  function DigitValue(c: char): nat
    requires IsDigit(c)
  {
    c as int - '0' as int
  }

  /** The decimal numeral of n, as a template literal prints it: digits
      only, and no leading zero unless n is 0. */
  function Decimal(n: nat): (s: string)
    ensures |s| >= 1 && forall i :: 0 <= i < |s| ==> IsDigit(s[i])
    ensures s[0] == '0' ==> n == 0
    decreases n
  {
    if n < 10 then [DigitChar(n)] else Decimal(n / 10) + [DigitChar(n % 10)]
  }

  /** The number a string of digits denotes. */
  function DecimalValue(s: string): nat
    requires forall i :: 0 <= i < |s| ==> IsDigit(s[i])
  {
    if s == [] then 0 else DecimalValue(s[..|s| - 1]) * 10 + DigitValue(s[|s| - 1])
  }

  /** Decimal is read back as the number it prints. */
  lemma {:induction false} DecimalRoundTrip(n: nat)
    ensures DecimalValue(Decimal(n)) == n
  {
    var s := Decimal(n);
    if n >= 10 {
      assert s[..|s| - 1] == Decimal(n / 10);
      DecimalRoundTrip(n / 10);
    }
  }

  const LabelPrefix := "Reading "

  /** The x-axis labels for n rows. */
  function Labels(n: nat): seq<string> {
    seq(n, i requires 0 <= i < n => LabelPrefix + Decimal(i + 1))
  }

  /** There are n labels; label i is "Reading " followed by the numeral of
      i + 1 (digits without a leading zero, denoting i + 1), so the labels
      read "Reading 1" ... "Reading n". */
  lemma LabelsNumbered(n: nat, i: nat)
    requires i < n
    ensures |Labels(n)| == n
    ensures |Labels(n)[i]| > |LabelPrefix| && Labels(n)[i][..|LabelPrefix|] == LabelPrefix
    ensures var num := Labels(n)[i][|LabelPrefix|..];
      && |num| >= 1 && num[0] != '0'
      && (forall k :: 0 <= k < |num| ==> IsDigit(num[k]))
      && DecimalValue(num) == i + 1
  {
    var text := Labels(n)[i];
    assert text[|LabelPrefix|..] == Decimal(i + 1);
    DecimalRoundTrip(i + 1);
  }

  /** No two readings share a label. */
  lemma LabelsDistinct(n: nat, i: nat, j: nat)
    requires i < n && j < n && i != j
    ensures Labels(n)[i] != Labels(n)[j]
  {
    LabelsNumbered(n, i);
    LabelsNumbered(n, j);
  }

  // ---------------------------------------------------------------------------
  // Series: parseFloat(item.field) || 0

  /** `p || 0` on parseFloat's result: NaN and 0 are falsy and give 0. */
  function OrZero(p: Option<real>): real {
    match p
    case Some(v) => if v == 0.0 then 0.0 else v
    case None => 0.0
  }

  /** The points of one chart, one per row, in the order of the rows. */
  function Series(rows: seq<Reading>, f: Field): seq<real> {
    seq(|rows|, i requires 0 <= i < |rows| => OrZero(Get(rows[i], f)))
  }

  /** The rows in the opposite order. */
  function Reversed<T>(s: seq<T>): seq<T> {
    if s == [] then [] else Reversed(s[1..]) + [s[0]]
  }

  lemma {:induction false} ReversedAt<T>(s: seq<T>, k: nat)
    requires k < |s|
    ensures |Reversed(s)| == |s| && Reversed(s)[k] == s[|s| - 1 - k]
  {
    if k < |s| - 1 {
      ReversedAt(s[1..], k);
    } else if |s| > 1 {
      ReversedAt(s[1..], 0);
    }
  }

  /** After the reverse, point i of a chart comes from row n-1-i of the
      response: the parsed value of that row's field, or 0 when it does not
      parse. */
  lemma SeriesOfReversed(rows: seq<Reading>, f: Field, i: nat)
    requires i < |rows|
    ensures |Series(Reversed(rows), f)| == |rows|
    ensures Series(Reversed(rows), f)[i] == (match Get(rows[|rows| - 1 - i], f) case Some(v) => v case None => 0.0)
  {
    ReversedAt(rows, i);
  }

  /** data.reverse(): reverses the array in place. */
  method ReverseInPlace<T>(a: array<T>)
    modifies a
    ensures a[..] == Reversed(old(a[..]))
  {
    var n := a.Length;
    var lo := 0;
    while lo < n / 2
      invariant 0 <= lo <= n / 2
      invariant forall k :: 0 <= k < n ==> a[k] == if k < lo || n - 1 - lo < k then old(a[n - 1 - k]) else old(a[k])
    {
      a[lo], a[n - 1 - lo] := a[n - 1 - lo], a[lo];
      lo := lo + 1;
    }
    ghost var before := old(a[..]);
    forall k | 0 <= k < n
      ensures |Reversed(before)| == n && a[k] == Reversed(before)[k]
    {
      ReversedAt(before, k);
    }
  }

  // ---------------------------------------------------------------------------
  // Charts

  datatype ChartKind = Line | Bar

  /** One Chart.js dataset: its legend, its colour and its points. */
  datatype Dataset = Dataset(legend: string, color: string, points: seq<real>)

  /** A Chart.js chart, as far as the dashboard touches it. */
  class Chart {
    const kind: ChartKind
    var labels: seq<string>
    var datasets: seq<Dataset>
    /** How many times chart.update() has been asked to redraw. */
    var renders: nat

    ghost predicate Valid()
      reads this
    {
      |datasets| >= 1
    }

    /** A chart as initializeCharts creates it: no labels, one empty dataset. */
    constructor (kind: ChartKind, legend: string, color: string)
      ensures Valid() && this.kind == kind
      ensures labels == [] && datasets == [Dataset(legend, color, [])] && renders == 0
    {
      this.kind := kind;
      labels := [];
      datasets := [Dataset(legend, color, [])];
      renders := 0;
    }

    /** updateChart(chart, labels, data): replaces the labels and the first
        dataset's points, asks for a redraw, and changes nothing else. */
    method Update(newLabels: seq<string>, newPoints: seq<real>)
      requires Valid()
      modifies this
      ensures Valid()
      ensures labels == newLabels && datasets[0].points == newPoints
      ensures |datasets| == |old(datasets)| && datasets[1..] == old(datasets)[1..]
      ensures datasets[0].legend == old(datasets)[0].legend && datasets[0].color == old(datasets)[0].color
      ensures renders == old(renders) + 1
    {
      labels := newLabels;
      datasets := datasets[0 := datasets[0].(points := newPoints)];
      renders := renders + 1;
    }
  }

  /** Chart c now shows `labels` and `points`, was redrawn once more, and its
      datasets are otherwise those it had. */
  ghost predicate Redrawn(c: Chart, labels: seq<string>, points: seq<real>, datasetsBefore: seq<Dataset>, rendersBefore: nat)
    reads c
  {
    && |datasetsBefore| >= 1
    && c.labels == labels
    && c.datasets == datasetsBefore[0 := datasetsBefore[0].(points := points)]
    && c.renders == rendersBefore + 1
  }

  const NoDataMessage := "No data available"

  /** The page's state: the four module-level charts, the reading shown in
      the "Latest Readings" panel and the last error shown. */
  class Page {
    const flow: Chart
    const pressure: Chart
    const quality: Chart
    const consumption: Chart
    var latest: Option<Reading>
    var alert: Option<string>

    ghost predicate Valid()
      reads this, flow, pressure, quality, consumption
    {
      && flow.Valid() && pressure.Valid() && quality.Valid() && consumption.Valid()
      && flow != pressure && flow != quality && flow != consumption
      && pressure != quality && pressure != consumption && quality != consumption
    }

    /** initializeCharts: three line charts and one bar chart, all empty. */
    constructor ()
      ensures Valid() && fresh(flow) && fresh(pressure) && fresh(quality) && fresh(consumption)
      ensures flow.kind == Line && pressure.kind == Line && quality.kind == Line && consumption.kind == Bar
      ensures flow.labels == [] && flow.datasets == [Dataset("Flow Rate (L/min)", "#007bff", [])] && flow.renders == 0
      ensures pressure.labels == [] && pressure.datasets == [Dataset("Pressure (kPa)", "#dc3545", [])] && pressure.renders == 0
      ensures quality.labels == [] && quality.datasets == [Dataset("pH Level", "#28a745", [])] && quality.renders == 0
      ensures consumption.labels == [] && consumption.datasets == [Dataset("Water Consumption (L)", "#ffc107", [])] && consumption.renders == 0
      ensures latest == None && alert == None
    {
      flow := new Chart(Line, "Flow Rate (L/min)", "#007bff");
      pressure := new Chart(Line, "Pressure (kPa)", "#dc3545");
      quality := new Chart(Line, "pH Level", "#28a745");
      consumption := new Chart(Bar, "Water Consumption (L)", "#ffc107");
      latest := None;
      alert := None;
    }

    /** updateCharts(data). Without rows it reports "No data available" and
        leaves every chart as it was. Otherwise it reverses the caller's array
        in place and gives each chart the labels "Reading 1" ... "Reading n"
        and the series of its field over the reversed rows. */
    method UpdateCharts(data: array?<Reading>)
      requires Valid()
      modifies this, flow, pressure, quality, consumption, data
      ensures Valid() && latest == old(latest)
      ensures data == null || data.Length == 0 ==>
        && alert == Some(NoDataMessage)
        && unchanged(flow, pressure, quality, consumption)
      ensures data != null && data.Length > 0 ==>
        && alert == old(alert)
        && data[..] == Reversed(old(data[..]))
        && Redrawn(flow, Labels(data.Length), Series(Reversed(old(data[..])), WaterFlow), old(flow.datasets), old(flow.renders))
        && Redrawn(pressure, Labels(data.Length), Series(Reversed(old(data[..])), Pressure), old(pressure.datasets), old(pressure.renders))
        && Redrawn(quality, Labels(data.Length), Series(Reversed(old(data[..])), Quality), old(quality.datasets), old(quality.renders))
        && Redrawn(consumption, Labels(data.Length), Series(Reversed(old(data[..])), Consumption), old(consumption.datasets), old(consumption.renders))
    {
      if data == null || data.Length == 0 {
        alert := Some(NoDataMessage);
        return;
      }
      ReverseInPlace(data);
      var rows := data[..];
      var labels := Labels(data.Length);
      flow.Update(labels, Series(rows, WaterFlow));
      pressure.Update(labels, Series(rows, Pressure));
      quality.Update(labels, Series(rows, Quality));
      consumption.Update(labels, Series(rows, Consumption));
    }

    /** updateStatus(data): shows data[0], the first row of the array as it
        is NOW; does nothing without rows. */
    method UpdateStatus(data: array?<Reading>)
      modifies this`latest
      ensures latest == if data == null || data.Length == 0 then old(latest) else Some(data[0])
    {
      if data == null || data.Length == 0 {
        return;
      }
      latest := Some(data[0]);
    }

    /** The fetchData callback as written: updateCharts(data), then
        updateStatus(data) on the same, by now reversed, array. The panel
        shows the LAST row of the response. */
    method Receive(data: array?<Reading>)
      requires Valid()
      modifies this, flow, pressure, quality, consumption, data
      ensures Valid()
      ensures data == null || data.Length == 0 ==>
        latest == old(latest) && alert == Some(NoDataMessage) && unchanged(flow, pressure, quality, consumption)
      ensures data != null && data.Length > 0 ==>
        && latest == Some(old(data[data.Length - 1]))
        && data[..] == Reversed(old(data[..]))
        && alert == old(alert)
        && Redrawn(flow, Labels(data.Length), Series(Reversed(old(data[..])), WaterFlow), old(flow.datasets), old(flow.renders))
        && Redrawn(pressure, Labels(data.Length), Series(Reversed(old(data[..])), Pressure), old(pressure.datasets), old(pressure.renders))
        && Redrawn(quality, Labels(data.Length), Series(Reversed(old(data[..])), Quality), old(quality.datasets), old(quality.renders))
        && Redrawn(consumption, Labels(data.Length), Series(Reversed(old(data[..])), Consumption), old(consumption.datasets), old(consumption.renders))
    {
      ghost var response := if data == null then [] else data[..];
      UpdateCharts(data);
      UpdateStatus(data);
      if data != null && data.Length > 0 {
        ReversedAt(response, 0);
      }
    }

    /** The callback as evidently intended: the panel shows the first row of
        the response, the newest one, since fetch_data.php orders by timestamp
        descending. The charts are updated exactly as by Receive. */
    method ReceiveNewest(data: array?<Reading>)
      requires Valid()
      modifies this, flow, pressure, quality, consumption, data
      ensures Valid()
      ensures data == null || data.Length == 0 ==>
        latest == old(latest) && alert == Some(NoDataMessage) && unchanged(flow, pressure, quality, consumption)
      ensures data != null && data.Length > 0 ==>
        && latest == Some(old(data[0]))
        && data[..] == Reversed(old(data[..]))
        && alert == old(alert)
        && Redrawn(flow, Labels(data.Length), Series(Reversed(old(data[..])), WaterFlow), old(flow.datasets), old(flow.renders))
        && Redrawn(pressure, Labels(data.Length), Series(Reversed(old(data[..])), Pressure), old(pressure.datasets), old(pressure.renders))
        && Redrawn(quality, Labels(data.Length), Series(Reversed(old(data[..])), Quality), old(quality.datasets), old(quality.renders))
        && Redrawn(consumption, Labels(data.Length), Series(Reversed(old(data[..])), Consumption), old(consumption.datasets), old(consumption.renders))
    {
      UpdateStatus(data);
      UpdateCharts(data);
    }
  }

  /** Two rows as fetch_data.php sends them, newest first: after the callback
      as written, the "Latest Readings" panel shows the older one. */
  method OldestShownAsLatest() returns (shown: Option<Reading>, newest: Reading, oldest: Reading)
    ensures newest != oldest && shown == Some(oldest)
  {
    newest := Reading(Some(3.0), Some(100.0), Some(7.0), Some(30.0));
    oldest := Reading(Some(2.5), Some(90.0), Some(7.2), Some(25.0));
    var page := new Page();
    var data := new Reading[] [newest, oldest];
    page.Receive(data);
    shown := page.latest;
  }

  /** The same two rows through the corrected callback: the panel shows the
      newest one. */
  method NewestShownWhenCorrected() returns (shown: Option<Reading>, newest: Reading, oldest: Reading)
    ensures newest != oldest && shown == Some(newest)
  {
    newest := Reading(Some(3.0), Some(100.0), Some(7.0), Some(30.0));
    oldest := Reading(Some(2.5), Some(90.0), Some(7.2), Some(25.0));
    var page := new Page();
    var data := new Reading[] [newest, oldest];
    page.ReceiveNewest(data);
    shown := page.latest;
  }
}
