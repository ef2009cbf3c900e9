/** The screen component of components/Main.tsx: its three state cells
    (`isZoomed`, `seriesVisibility`, `chartHTML`), the handlers that update them,
    the effect that regenerates the chart document, and the reset button's rule. */
module MainScreen {
  import opened Wrappers
  import opened DataSlice
  import opened Chart

  /** A message from the embedded chart, already decoded: either it did not parse
      (`JSON.parse` threw), or it is a record with a `type` and a `zoomed` field. */
  datatype Message = Unparseable | Decoded(kind: string, zoomed: bool)

  /** The `type` of the message the chart sends when its zoom changes. */
  const ZoomChange: string := "zoomChange"

  /** The message the screen sends to the chart to reset its zoom. */
  const ResetZoom: string := "resetZoom"

  /** The `chartHTML` cell: the empty string it starts with, or a generated
      document, represented by the series list it embeds (a generated document
      is never empty, even when it embeds no series). */
  datatype ChartHtml = Blank | Html(series: seq<Series>)

  /** The `isZoomed` cell after one message from the chart. */
  function ZoomAfter(isZoomed: bool, m: Message): (r: bool)
    ensures m.Decoded? && m.kind == ZoomChange ==> r == m.zoomed
    ensures r != isZoomed ==> m.Decoded? && m.kind == ZoomChange
  {
    if m.Decoded? && m.kind == ZoomChange then m.zoomed else isZoomed
  }

  /** The `isZoomed` cell after the messages `ms`, in order. */
  function ZoomAfterAll(isZoomed: bool, ms: seq<Message>): bool
    decreases |ms|
  {
    if ms == [] then isZoomed else ZoomAfter(ZoomAfterAll(isZoomed, ms[..|ms| - 1]), ms[|ms| - 1])
  }

  /** The `zoomed` value of the last zoom-change report among `ms`, if any. */
  function LastZoomReport(ms: seq<Message>): Option<bool> {
    if ms == [] then None
    else if LastZoomReport(ms[1..]).Some? then LastZoomReport(ms[1..])
    else if ms[0].Decoded? && ms[0].kind == ZoomChange then Some(ms[0].zoomed)
    else None
  }

  lemma {:induction false} LastZoomReportSnoc(ms: seq<Message>, m: Message)
    ensures LastZoomReport(ms + [m]) ==
      if m.Decoded? && m.kind == ZoomChange then Some(m.zoomed) else LastZoomReport(ms)
  {
    if ms != [] {
      assert (ms + [m])[1..] == ms[1..] + [m];
      LastZoomReportSnoc(ms[1..], m);
    }
  }

  /** After any sequence of messages, `isZoomed` is what the last zoom-change
      report said; with no such report it keeps its value. Unparseable messages
      and messages of any other type have no effect. */
  lemma {:induction false} ZoomFollowsLastReport(isZoomed: bool, ms: seq<Message>)
    ensures ZoomAfterAll(isZoomed, ms) == LastZoomReport(ms).GetOr(isZoomed)
    decreases |ms|
  {
    if ms != [] {
      var init, m := ms[..|ms| - 1], ms[|ms| - 1];
      assert ms == init + [m];
      ZoomFollowsLastReport(isZoomed, init);
      LastZoomReportSnoc(init, m);
    }
  }

  /** Starting unzoomed, `isZoomed` becomes true only if some message reported
      `zoomed: true`. */
  lemma ZoomedOnlyAfterReport(ms: seq<Message>)
    requires ZoomAfterAll(false, ms)
    ensures exists i :: 0 <= i < |ms| && ms[i] == Decoded(ZoomChange, true)
  {
  }

  /** `{ ...prev, [key]: value }`: the flag of `key` becomes `value`, the other
      three are kept. */
  function WithFlag(vis: Visibility, key: SeriesKey, value: bool): (r: Visibility)
    ensures Shows(r, key) == value
    ensures forall k :: k != key ==> Shows(r, k) == Shows(vis, k)
  {
    match key
    case Open => vis.(open := value)
    case High => vis.(high := value)
    case Low => vis.(low := value)
    case Close => vis.(close := value)
  }

  /** The `chartHTML` cell after the regeneration effect runs: a new document
      when there is data, otherwise the previous value. */
  function Regenerated(prev: ChartHtml, data: seq<Sample>, zoomEnabled: bool, title: string, vis: Visibility): (r: ChartHtml)
    ensures r != prev ==> |data| > 0
    ensures |data| > 0 ==> r.Html? && |r.series| == CountVisible(vis)
  {
    if |data| > 0 then
      SeriesSelection(data, zoomEnabled, title, vis);
      Html(ChartSeries(data, zoomEnabled, title, vis))
    else prev
  }

  /** The loading text stays up until the effect runs with non-empty data; once a
      document is shown, no later run of the effect takes it away again. */
  lemma RegenerationNeverBlanks(prev: ChartHtml, data: seq<Sample>, zoomEnabled: bool, title: string, vis: Visibility)
    ensures Regenerated(prev, data, zoomEnabled, title, vis) == Blank <==> prev == Blank && data == []
  {
  }

  /** On a fresh screen whose first fetch settles with `outcome`, the loading
      text stays up exactly when the fetch failed or returned no samples. */
  lemma FreshScreenLoadsUntilSamples(outcome: FetchOutcome, vis: Visibility)
    ensures var s := Run(Initial, [FetchPending, Settle(outcome)]);
      Regenerated(Blank, s.data, s.zoomEnabled, s.title, vis) == Blank
      <==> !(outcome.Resolved? && |outcome.payload.data| > 0)
  {
    RunPair(Initial, FetchPending, Settle(outcome));
  }

  /** On a fresh screen, after any messages from the chart, the reset button is
      enabled exactly when the last zoom-change report said `zoomed: true`. */
  lemma ResetEnabledOnlyAfterZoomReport(v: MainView, ms: seq<Message>)
    requires v.isZoomed == ZoomAfterAll(false, ms)
    ensures !v.ResetDisabled() <==> LastZoomReport(ms) == Some(true)
  {
    ZoomFollowsLastReport(false, ms);
  }

  /** The screen's state cells. */
  class MainView {
    var isZoomed: bool
    var seriesVisibility: Visibility
    var chartHtml: ChartHtml

    /** The cells' initial values: not zoomed, every series visible, no document. */
    constructor ()
      ensures !isZoomed && seriesVisibility == AllVisible && chartHtml == Blank
      ensures ShowsLoading() && ResetDisabled()
    {
      isZoomed := false;
      seriesVisibility := AllVisible;
      chartHtml := Blank;
    }

    /** The "Loading chart..." text is shown instead of the web view exactly
        while the document is the empty string. */
    predicate ShowsLoading()
      reads this
    {
      chartHtml == Blank
    }

    /** The reset button is disabled exactly when the chart is not zoomed. */
    predicate ResetDisabled()
      reads this
    {
      !isZoomed
    }

    /** `handleResetZoom`: the message posted to the chart. The screen's own
        state does not change; `isZoomed` follows only the chart's reply. */
    method HandleResetZoom() returns (outgoing: string)
      ensures outgoing == ResetZoom
    {
      outgoing := ResetZoom;
    }

    /** `handleWebViewMessage`: a zoom-change report sets `isZoomed` to its
        `zoomed` value; anything else is ignored. */
    method HandleWebViewMessage(m: Message)
      modifies this`isZoomed
      ensures m.Decoded? && m.kind == ZoomChange ==> isZoomed == m.zoomed
      ensures !(m.Decoded? && m.kind == ZoomChange) ==> isZoomed == old(isZoomed)
      ensures isZoomed == ZoomAfter(old(isZoomed), m)
    {
      match m {
        case Unparseable =>
        case Decoded(kind, zoomed) =>
          if kind == ZoomChange {
            isZoomed := zoomed;
          }
      }
    }

    /** `handleCheckboxChange`: sets one visibility flag and keeps the other three. */
    method HandleCheckboxChange(key: SeriesKey, value: bool)
      modifies this`seriesVisibility
      ensures Shows(seriesVisibility, key) == value
      ensures forall k :: k != key ==> Shows(seriesVisibility, k) == Shows(old(seriesVisibility), k)
      ensures seriesVisibility == WithFlag(old(seriesVisibility), key, value)
    {
      seriesVisibility := WithFlag(seriesVisibility, key, value);
    }

    /** The regeneration effect: with non-empty data the document is rebuilt
        from the data and the current visibility; with no data it is kept. */
    method RegenerateChart(data: seq<Sample>, zoomEnabled: bool, title: string)
      modifies this`chartHtml
      ensures |data| > 0 ==> chartHtml == Html(ChartSeries(data, zoomEnabled, title, seriesVisibility))
      ensures |data| == 0 ==> chartHtml == old(chartHtml)
      ensures chartHtml == Regenerated(old(chartHtml), data, zoomEnabled, title, seriesVisibility)
      ensures ShowsLoading() <==> old(ShowsLoading()) && |data| == 0
    {
      if |data| > 0 {
        chartHtml := Html(ChartSeries(data, zoomEnabled, title, seriesVisibility));
      }
    }

    /** The mount effect followed by the regeneration effect: one fetch through
        the store, then the document is rebuilt from the store's new data. */
    method Mount(store: Store, outcome: FetchOutcome)
      modifies this`chartHtml, store
      ensures store.State() == Run(old(store.State()), [Action.FetchPending, Settle(outcome)])
      ensures chartHtml == Regenerated(old(chartHtml), store.data, store.zoomEnabled, store.title, seriesVisibility)
      ensures old(chartHtml) == Blank && old(store.data) == [] ==>
        (ShowsLoading() <==> !(outcome.Resolved? && |outcome.payload.data| > 0))
    {
      ghost var before := store.State();
      store.FetchData(outcome);
      RunPair(before, Action.FetchPending, Settle(outcome));
      RegenerateChart(store.data, store.zoomEnabled, store.title);
    }
  }
}
