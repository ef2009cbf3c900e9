/** The pure part of components/Main.tsx: `formatData` and the series pipeline of
    `chartHtml`, which keeps the visible series in a fixed order and turns each
    into a list of [milliseconds, price] points. The markup text around the series
    is not modelled; a series is the record the pipeline emits for it. */
module Chart {
  import opened DataSlice

  /** The four plotted series, named by the sample field each one reads. */
  datatype SeriesKey = Open | High | Low | Close

  /** Per-series visibility (`SeriesVisibility`). */
  datatype Visibility = Visibility(open: bool, high: bool, low: bool, close: bool)

  const AllVisible: Visibility := Visibility(true, true, true, true)

  /** `seriesVisibility[key]`. */
  function Shows(vis: Visibility, key: SeriesKey): bool {
    match key
    case Open => vis.open
    case High => vis.high
    case Low => vis.low
    case Close => vis.close
  }

  /** `d[key]`: the price a sample holds for one series. */
  function PriceOf(d: Sample, key: SeriesKey): Price {
    match key
    case Open => d.open
    case High => d.high
    case Low => d.low
    case Close => d.close
  }

  /** The legend name of each series. */
  function Name(key: SeriesKey): string {
    match key
    case Open => "Open"
    case High => "High"
    case Low => "Low"
    case Close => "Close"
  }

  /** The line colour of each series. */
  function Color(key: SeriesKey): string {
    match key
    case Open => "#0a0a7c"
    case High => "#e8618c"
    case Low => "#21ccb2"
    case Close => "#7f55e0"
  }

  /** The position of each series in the fixed order Open, High, Low, Close. */
  function Rank(key: SeriesKey): nat {
    match key
    case Open => 0
    case High => 1
    case Low => 2
    case Close => 3
  }

  /** One row of the `seriesData` table. */
  datatype Descriptor = Descriptor(name: string, key: SeriesKey, color: string, visible: bool)

  /** One chart point: `[timestamp * 1000, price]`. */
  datatype Point = Point(ms: int, price: Price)

  /** One emitted series: its name, its points and its colour. */
  datatype Series = Series(name: string, points: seq<Point>, color: string)

  /** `formatData`: a timestamp in seconds becomes one in milliseconds; the
      price is carried over. The seconds can be read back from the point. */
  function FormatData(timestamp: int, price: Price): (p: Point)
    ensures p.ms % 1000 == 0 && p.ms / 1000 == timestamp
    ensures p.price == price
  {
    Point(timestamp * 1000, price)
  }

  /** `data.map(d => formatData(d.timestamp, d[key]))`: one point per sample,
      in the samples' order. */
  function Points(data: seq<Sample>, key: SeriesKey): (r: seq<Point>)
    ensures |r| == |data|
    ensures forall i :: 0 <= i < |data| ==> r[i] == FormatData(data[i].timestamp, PriceOf(data[i], key))
  {
    if data == [] then []
    else [FormatData(data[0].timestamp, PriceOf(data[0], key))] + Points(data[1..], key)
  }

  /** The `seriesData` table: the four series in their fixed order, each marked
      with its visibility flag. */
  function SeriesData(vis: Visibility): (r: seq<Descriptor>)
    ensures |r| == 4 && InSeriesOrder(r)
    ensures forall i :: 0 <= i < |r| ==>
      r[i] == Descriptor(Name(r[i].key), r[i].key, Color(r[i].key), Shows(vis, r[i].key))
  {
    [ Descriptor(Name(Open), Open, Color(Open), vis.open),
      Descriptor(Name(High), High, Color(High), vis.high),
      Descriptor(Name(Low), Low, Color(Low), vis.low),
      Descriptor(Name(Close), Close, Color(Close), vis.close) ]
  }

  /** Descriptors whose keys appear strictly in the order Open, High, Low, Close. */
  ghost predicate InSeriesOrder(ds: seq<Descriptor>) {
    forall i, j :: 0 <= i < j < |ds| ==> Rank(ds[i].key) < Rank(ds[j].key)
  }

  /** `.filter(({ visible }) => visible)`. */
  function KeepVisible(ds: seq<Descriptor>): (r: seq<Descriptor>)
    ensures |r| <= |ds|
  {
    if ds == [] then []
    else if ds[0].visible then [ds[0]] + KeepVisible(ds[1..])
    else KeepVisible(ds[1..])
  }

  /** The filter keeps exactly the visible rows; on rows in the order Open, High, Low, Close
      (as in `seriesData`) the kept rows stay in that order. */
  lemma {:induction false} KeepVisibleSpec(ds: seq<Descriptor>)
    ensures forall d :: d in KeepVisible(ds) <==> d in ds && d.visible
    ensures InSeriesOrder(ds) ==> InSeriesOrder(KeepVisible(ds))
  {
    if ds != [] {
      KeepVisibleSpec(ds[1..]);
      var rest := KeepVisible(ds[1..]);
      if ds[0].visible && InSeriesOrder(ds) {
        assert forall d :: d in rest ==> d in ds[1..];
        forall j | 0 < j < |[ds[0]] + rest|
          ensures Rank(ds[0].key) < Rank(([ds[0]] + rest)[j].key)
        {
          var d := ([ds[0]] + rest)[j];
          assert d in rest;
          var m :| 0 <= m < |ds[1..]| && ds[1..][m] == d;
          assert ds[m + 1] == d;
        }
      }
    }
  }

  /** The filter keeps every visible row as many times as it occurs and no
      hidden row at all. */
  lemma {:induction false} KeepVisibleCounts(ds: seq<Descriptor>)
    ensures forall d :: multiset(KeepVisible(ds))[d] == if d.visible then multiset(ds)[d] else 0
  {
    if ds != [] {
      KeepVisibleCounts(ds[1..]);
      assert ds == [ds[0]] + ds[1..];
      assert multiset(ds) == multiset([ds[0]]) + multiset(ds[1..]);
    }
  }

  /** The series emitted for one row: its name, the points of its key, its colour. */
  function SeriesOf(data: seq<Sample>, key: SeriesKey): Series {
    Series(Name(key), Points(data, key), Color(key))
  }

  /** `.map(({ name, key, color }) => …)`: one series per kept row, in order. */
  function ToSeries(data: seq<Sample>, ds: seq<Descriptor>): (r: seq<Series>)
    ensures |r| == |ds|
    ensures forall i :: 0 <= i < |ds| ==> r[i] == Series(ds[i].name, Points(data, ds[i].key), ds[i].color)
  {
    if ds == [] then []
    else [Series(ds[0].name, Points(data, ds[0].key), ds[0].color)] + ToSeries(data, ds[1..])
  }

  /** The series list `chartHtml` embeds in the chart document. Like the source,
      it takes `zoomEnabled` and `title` and never reads them. */
  function ChartSeries(data: seq<Sample>, zoomEnabled: bool, title: string, vis: Visibility): (r: seq<Series>)
    ensures |r| <= 4
    ensures forall i :: 0 <= i < |r| ==> |r[i].points| == |data|
  {
    ToSeries(data, KeepVisible(SeriesData(vis)))
  }

  // ---- A reference description of which series are shown ----

  /** The keys of the visible series, in the fixed order Open, High, Low, Close. */
  function VisibleKeys(vis: Visibility): seq<SeriesKey> {
    (if vis.open then [Open] else [])
    + (if vis.high then [High] else [])
    + (if vis.low then [Low] else [])
    + (if vis.close then [Close] else [])
  }

  /** How many visibility flags are set. */
  function CountVisible(vis: Visibility): nat {
    (if vis.open then 1 else 0) + (if vis.high then 1 else 0)
    + (if vis.low then 1 else 0) + (if vis.close then 1 else 0)
  }

  /** The reference keys are exactly the visible ones, strictly in the fixed
      order, one per set flag. */
  lemma VisibleKeysSpec(vis: Visibility)
    ensures |VisibleKeys(vis)| == CountVisible(vis)
    ensures forall k :: k in VisibleKeys(vis) <==> Shows(vis, k)
    ensures forall i, j :: 0 <= i < j < |VisibleKeys(vis)| ==> Rank(VisibleKeys(vis)[i]) < Rank(VisibleKeys(vis)[j])
  {
  }

  /** The row of `seriesData` for a key whose flag is set. */
  function ShownRow(key: SeriesKey): Descriptor {
    Descriptor(Name(key), key, Color(key), true)
  }

  /** The `seriesData` rows of a sequence of keys, all marked visible. */
  function ShownRows(keys: seq<SeriesKey>): (r: seq<Descriptor>)
    ensures |r| == |keys|
    ensures forall i :: 0 <= i < |keys| ==> r[i] == ShownRow(keys[i])
  {
    if keys == [] then [] else [ShownRow(keys[0])] + ShownRows(keys[1..])
  }

  /** Filtering a row in front of others. */
  lemma KeepVisibleCons(d: Descriptor, rest: seq<Descriptor>)
    ensures KeepVisible([d] + rest) == (if d.visible then [d] else []) + KeepVisible(rest)
  {
  }

  /** The row of `key` if its flag `shown` is set, and nothing otherwise. */
  function RowIf(key: SeriesKey, shown: bool): seq<Descriptor> {
    if shown then [ShownRow(key)] else []
  }

  /** The filter over the `seriesData` table, row by row. */
  lemma KeepVisibleUnfolded(vis: Visibility)
    ensures KeepVisible(SeriesData(vis))
      == RowIf(Open, vis.open) + RowIf(High, vis.high) + RowIf(Low, vis.low) + RowIf(Close, vis.close)
  {
    var d0, d1, d2, d3 := SeriesData(vis)[0], SeriesData(vis)[1], SeriesData(vis)[2], SeriesData(vis)[3];
    var r0, r1, r2, r3 := RowIf(Open, vis.open), RowIf(High, vis.high), RowIf(Low, vis.low), RowIf(Close, vis.close);
    assert SeriesData(vis) == [d0] + ([d1] + ([d2] + ([d3] + [])));
    KeepVisibleCons(d3, []);
    KeepVisibleCons(d2, [d3] + []);
    KeepVisibleCons(d1, [d2] + ([d3] + []));
    KeepVisibleCons(d0, [d1] + ([d2] + ([d3] + [])));
    assert r0 + (r1 + (r2 + (r3 + []))) == r0 + r1 + r2 + r3;
  }

  /** The rows of the reference keys, key by key. */
  lemma ShownRowsUnfolded(vis: Visibility)
    ensures ShownRows(VisibleKeys(vis))
      == RowIf(Open, vis.open) + RowIf(High, vis.high) + RowIf(Low, vis.low) + RowIf(Close, vis.close)
  {
  }

  /** The filter over the `seriesData` table keeps exactly the rows of the
      reference keys, in the same order. */
  lemma KeptRowsAreVisibleKeys(vis: Visibility)
    ensures KeepVisible(SeriesData(vis)) == ShownRows(VisibleKeys(vis))
  {
    KeepVisibleUnfolded(vis);
    ShownRowsUnfolded(vis);
  }

  /** The emitted series are exactly the visible ones, in the order Open, High,
      Low, Close, as many as there are set flags; each has one point per sample,
      point `i` being `[timestamp_i * 1000, price_i]` for that series' key. */
  lemma SeriesSelection(data: seq<Sample>, zoomEnabled: bool, title: string, vis: Visibility)
    ensures |ChartSeries(data, zoomEnabled, title, vis)| == CountVisible(vis)
    ensures forall i :: 0 <= i < |VisibleKeys(vis)| ==>
      ChartSeries(data, zoomEnabled, title, vis)[i] == SeriesOf(data, VisibleKeys(vis)[i])
    ensures forall i, n :: 0 <= i < |ChartSeries(data, zoomEnabled, title, vis)| && 0 <= n < |data| ==>
      |ChartSeries(data, zoomEnabled, title, vis)[i].points| == |data|
      && ChartSeries(data, zoomEnabled, title, vis)[i].points[n]
         == FormatData(data[n].timestamp, PriceOf(data[n], VisibleKeys(vis)[i]))
  {
    KeptRowsAreVisibleKeys(vis);
    VisibleKeysSpec(vis);
  }

  /** With every flag cleared no series is emitted. */
  lemma NoSeriesWhenAllHidden(data: seq<Sample>, zoomEnabled: bool, title: string)
    ensures ChartSeries(data, zoomEnabled, title, Visibility(false, false, false, false)) == []
  {
  }

  /** The series do not depend on `zoomEnabled` or `title`. */
  lemma SeriesIgnoreZoomAndTitle(data: seq<Sample>, vis: Visibility, z1: bool, t1: string, z2: bool, t2: string)
    ensures ChartSeries(data, z1, t1, vis) == ChartSeries(data, z2, t2, vis)
  {
  }
}
