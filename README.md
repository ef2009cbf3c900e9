# Market-data screen: state slice and chart-series selection

This project models the two pieces of sequential logic in a small mobile
market-data screen. The screen fetches OHLCV samples for one ticker symbol
and plots them in an embedded chart. Checkboxes choose which of the four
price series are drawn, and a button resets the chart's zoom.

- **The data slice** (`store/slices/dataSlice.ts`, module `DataSlice`) holds a
  five-field record: `data`, `isLoading`, `error`, `zoomEnabled` and `title`.
  The record is a class, `DataSlice.Store`, with one method per reducer case:
  `toggleZoom`, and `pending`, `fulfilled` and `rejected` of the fetch thunk.
  Each method assigns the fields its case assigns. Each one states its new
  state field by field, and also as `Reduce` applied to the old state.
  `Reduce` and `Run` are the same reducer on values. They let the lemmas reason
  about whole histories of dispatched actions. `RunCharacterized` describes
  every field after any history without using the reducer.
- **The chart series** (`components/Main.tsx`, module `Chart`): `formatData`
  and the filter/map pipeline in `chartHtml`. A generated document is
  represented by the list of series records it embeds. Each record holds a
  name, its points and a colour. The reference `VisibleKeys` lists the
  visible keys in the fixed order Open, High, Low, Close. The lemmas prove
  that the pipeline emits exactly one series per visible key, in that order.
  They also prove that point `n` of a series is `[timestamp_n * 1000, price_n]`.
- **The screen's state cells** (`components/Main.tsx`, module `MainScreen`):
  `isZoomed`, `seriesVisibility` and `chartHTML` are the fields of the class
  `MainView`. Its methods are the checkbox handler, the web-view message
  handler, the reset handler, the regeneration effect, and the mount sequence
  (one fetch through the store, then regeneration from its new data). Over any sequence of
  messages, `isZoomed` equals the `zoomed` value of the last zoom-change report,
  or keeps its value when there was none.

The network outcome is a parameter (`FetchOutcome`): either a payload
`{symbol, data}` or an error whose message may be absent. Prices are an
abstract type that is only copied. Timestamps are integers of epoch seconds.

A fulfilled fetch does not clear `error` (`store/slices/dataSlice.ts:48-52`).
After any history, `error` is the error of the last rejected fetch, or its
start value when no fetch was rejected (`RunCharacterized`), and a rejection's
error is never empty (`RejectedError`). So from the initial state `error` is
`""` after a success exactly when no earlier fetch was rejected.

## Model

| member | source | states |
|---|---|---|
| `DataSlice.Store.constructor` | store/slices/dataSlice.ts:28-34 | The slice starts with empty `data`, `isLoading` false, `error` `""`, `zoomEnabled` true and `title` `""`. |
| `DataSlice.Store.ToggleZoom` | store/slices/dataSlice.ts:40-42 | `toggleZoom` negates `zoomEnabled` and leaves the other four fields unchanged. |
| `DataSlice.Store.FetchPending` | store/slices/dataSlice.ts:45-47 | `pending` sets `isLoading` to true and changes no other field. |
| `DataSlice.Store.FetchFulfilled` | store/slices/dataSlice.ts:48-52 | `fulfilled` clears `isLoading` and stores the payload's data and symbol (as `title`). `error` and `zoomEnabled` are unchanged, so `error` is not cleared. |
| `DataSlice.Store.FetchRejected` | store/slices/dataSlice.ts:53-56 | `rejected` clears `isLoading` and stores a non-empty error. `data`, `title` and `zoomEnabled` are unchanged. |
| `DataSlice.Store.Dispatch` | store/slices/dataSlice.ts:36-57 | Dispatching any action to the store changes its state exactly as the reducer `Reduce` does. |
| `DataSlice.Store.FetchData` | store/slices/dataSlice.ts:44-56 | One fetch (pending, then fulfilled or rejected) leaves `isLoading` false and `zoomEnabled` unchanged. |
| `DataSlice.Reduce` | store/slices/dataSlice.ts:39-56 | One action on the slice's value: only `toggleZoom` flips `zoomEnabled`; `isLoading` becomes true on `pending` and false on `fulfilled` or `rejected`; only `fulfilled` writes `data` and `title` (from the payload); only `rejected` writes `error`, always non-empty. |
| `DataSlice.RejectedError` | store/slices/dataSlice.ts:55 | The stored error is the message when it is present and non-empty, and otherwise `Failed to fetch products`. Either way it is non-empty. |
| `DataSlice.RunCharacterized` | store/slices/dataSlice.ts:40-56 | After any history: `zoomEnabled` is flipped once per `toggleZoom`. `isLoading` is true exactly when the last fetch action was `pending`. `data` and `title` come from the last fulfilled fetch. `error` comes from the last rejected fetch. Each field keeps its start value when no such action occurred. |
| `DataSlice.ZoomUntouchedByFetches` | store/slices/dataSlice.ts:44-56 | A history of fetch actions alone never changes `zoomEnabled`. |
| `DataSlice.ToggleZoomTwice` | store/slices/dataSlice.ts:40-42 | Applying `toggleZoom` twice restores the original state. |
| `DataSlice.FetchSettles` | store/slices/dataSlice.ts:45-56 | `pending` followed by `fulfilled` or `rejected` leaves `isLoading` false and `zoomEnabled` unchanged. |
| `DataSlice.FirstFetchSucceeds` | store/slices/dataSlice.ts:28-52 | A first fetch that succeeds, from the initial state, gives the payload's data and symbol, `isLoading` false, `error` `""` and `zoomEnabled` true. |
| `DataSlice.FirstFetchFails` | store/slices/dataSlice.ts:28-56 | A first fetch that fails, from the initial state, leaves `data` empty and `isLoading` false, and stores a non-empty error. |
| `DataSlice.ErrorSurvivesSuccess` | store/slices/dataSlice.ts:48-56 | A fulfilled fetch after a rejected one keeps the rejection's non-empty error. |
| `Chart.FormatData` | components/Main.tsx:28 | The point's time is in milliseconds and is a whole number of seconds. Dividing it by 1000 gives back the timestamp. The price is carried over unchanged. |
| `Chart.Points` | components/Main.tsx:46 | Each series has one point per sample. Point `i` is `formatData` of sample `i`'s timestamp and its price for that series' key. |
| `Chart.SeriesData` | components/Main.tsx:36-41 | The table has four rows, in the order Open, High, Low, Close. Each row carries its key's name and colour and that key's visibility flag. |
| `Chart.KeepVisible` | components/Main.tsx:43-44 | The filter never returns more rows than it was given. |
| `Chart.KeepVisibleSpec` | components/Main.tsx:43-44 | The filter keeps a row iff it is in the input and visible. On a table whose keys are in the order Open, High, Low, Close, such as `seriesData`, the kept rows stay in that order. |
| `Chart.KeepVisibleCounts` | components/Main.tsx:43-44 | Each visible row is kept exactly as many times as it occurs in the input, and no hidden row is kept. |
| `Chart.ToSeries` | components/Main.tsx:45-53 | The map emits one series per kept row, in order, with that row's name, colour and points. |
| `Chart.ChartSeries` | components/Main.tsx:30-54 | The pipeline emits at most four series, and every emitted series has one point per sample. |
| `Chart.VisibleKeysSpec` | components/Main.tsx:36-44 | The reference key list holds a key iff its flag is set. The keys are strictly in the order Open, High, Low, Close, and there is one per set flag. |
| `Chart.KeptRowsAreVisibleKeys` | components/Main.tsx:36-44 | Filtering the four-row `seriesData` table keeps exactly the rows of the reference visible keys, in the same order. |
| `Chart.SeriesSelection` | components/Main.tsx:36-54 | The number of emitted series equals the number of set flags. Series `i` is the series of the `i`-th visible key. Its point `n` is `[timestamp_n * 1000, price_n]` for that key. |
| `Chart.NoSeriesWhenAllHidden` | components/Main.tsx:43-54 | With all four flags false, no series is emitted. |
| `Chart.SeriesIgnoreZoomAndTitle` | components/Main.tsx:30-54 | The emitted series do not depend on `zoomEnabled` or `title`. |
| `MainScreen.ZoomAfter` | components/Main.tsx:168-177 | A `zoomChange` message sets the flag to its `zoomed` value. Only such a message can change the flag. |
| `MainScreen.ZoomFollowsLastReport` | components/Main.tsx:168-177 | After any sequence of messages, `isZoomed` is the `zoomed` value of the last zoom-change report, or its old value if there was none. Unparseable messages and other types have no effect. |
| `MainScreen.ZoomedOnlyAfterReport` | components/Main.tsx:168-177 | Starting unzoomed, `isZoomed` is true only if some message reported `zoomed: true`. |
| `MainScreen.WithFlag` | components/Main.tsx:179-181 | Updating one key's flag sets that flag to the given value and keeps the other three. |
| `MainScreen.Regenerated` | components/Main.tsx:158-162 | The effect changes the document only when the data is non-empty. It then gives a document with one series per set visibility flag. |
| `MainScreen.RegenerationNeverBlanks` | components/Main.tsx:152-162 | After the effect the document is blank (the loading text) iff it was blank before and the data is empty. |
| `MainScreen.MainView.constructor` | components/Main.tsx:139-152 | The screen starts unzoomed, with all four series visible and an empty document. So it shows the loading text and the reset button is disabled. |
| `MainScreen.ResetEnabledOnlyAfterZoomReport` | components/Main.tsx:236 | On a fresh screen, after any messages from the chart, the reset button is enabled exactly when the last `zoomChange` report said `zoomed: true`. |
| `MainScreen.FreshScreenLoadsUntilSamples` | components/Main.tsx:193-214 | On a fresh screen whose first fetch has settled, the loading text (an empty document) stays up exactly when the fetch failed or returned no samples. |
| `MainScreen.MainView.HandleResetZoom` | components/Main.tsx:164-166 | Pressing reset posts `resetZoom` to the chart and changes no screen state. |
| `MainScreen.MainView.HandleWebViewMessage` | components/Main.tsx:168-177 | A `zoomChange` message sets `isZoomed` to its `zoomed` value. Any other type, or an unparseable message, leaves `isZoomed` unchanged. |
| `MainScreen.MainView.HandleCheckboxChange` | components/Main.tsx:179-181 | The chosen flag becomes the given value. The other three flags, `isZoomed` and the document are unchanged. |
| `MainScreen.MainView.RegenerateChart` | components/Main.tsx:158-162 | With non-empty data the document is rebuilt from the data and the current visibility. With empty data it keeps its previous value. The loading text is shown afterwards iff it was shown before and the data is empty. |
| `MainScreen.MainView.Mount` | components/Main.tsx:154-162 | The mount fetch runs through the store, and then the document is regenerated from the store's new data. A fresh screen keeps the loading text exactly when the fetch failed or returned no samples. |

## Left out

- The network request and `response.json()` in the fetch thunk
  (`store/slices/dataSlice.ts:4-8`) are I/O. Their result is the `FetchOutcome`
  parameter.
- Redux Toolkit and Immer (`createSlice`, `createAsyncThunk`, action
  dispatch, the store setup) are library code. The reducer cases are methods
  called directly.
- The fulfilled payload is taken to always have a `symbol` and a `data` field.
  The source stores `action.payload.data` and `.symbol` unchecked
  (`store/slices/dataSlice.ts:50-51`). A response of another shape would store
  `undefined` and make `data.length` throw (`components/Main.tsx:159`). Such a
  payload cannot be represented by `Payload`.
- `error` is typed `string | null` in the source, but nothing assigns `null`.
  The model uses `string`.
- The HTML, CSS and chart-library option text of the generated document is
  not modelled. This includes the `afterSetExtremes` handler, the in-page
  `handleMessage` listener and the textual `join(',')` of the series. The
  chart's reply to `resetZoom` (a `zoomChange` report with `zoomed: false`)
  runs in the embedded browser. Here it is only an input message.
- `JSON.stringify`, `JSON.parse` and `Number()` string parsing are left out.
  Timestamps are integers, and messages arrive already decoded as `Message`.
  A `zoomChange` message whose `zoomed` field is not a boolean is not
  representable.
- Prices are floating-point numbers in the source. Here they are an abstract
  type that is only copied.
- React hook scheduling is left out: effect timing, dependency tracking,
  re-render batching, the `useRef` handle and `postMessage` delivery.
  `MainView.Mount` fixes one order: the fetch settles, then the effect runs.
  `MainView.RegenerateChart` stands for every later run of the effect.
- The layout JSX, the styles, the title text and `components/TogglePill.tsx`
  are presentation only. The checkbox's `typeof val === 'boolean'` guard
  (`components/Main.tsx:223`) is covered by the `bool` type of the value.
