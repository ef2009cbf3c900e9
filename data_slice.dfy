/** The market-data slice of the application store (store/slices/dataSlice.ts):
    a five-field record and the four transitions its reducer handles. */
module DataSlice {
  import opened Wrappers

  /** A price or volume as the market-data endpoint delivers it. The model never
      computes with one, it only copies it, so its representation is left open. */
  type Price(==)

  /** One OHLCV sample (`dataObject`). The timestamp is in epoch seconds and is
      taken as already converted to an integer. */
  datatype Sample = Sample(
    timestamp: int,
    open: Price,
    high: Price,
    low: Price,
    close: Price,
    volume: Price)

  /** What a successful fetch resolves with: `{ symbol, data }`. */
  datatype Payload = Payload(symbol: string, data: seq<Sample>)

  /** How one invocation of the fetch thunk ends: with a payload, or with an
      error whose message may be absent. The network call itself is not modelled. */
  datatype FetchOutcome = Resolved(payload: Payload) | Failed(message: Option<string>)

  /** The actions the slice's reducer handles: the `toggleZoom` reducer and the
      three lifecycle actions of the `fetchData` thunk. */
  datatype Action =
    | ToggleZoom
    | FetchPending
    | FetchFulfilled(payload: Payload)
    | FetchRejected(message: Option<string>)

  /** The value of the slice (`dataType`). */
  datatype FetchState = FetchState(
    data: seq<Sample>,
    isLoading: bool,
    error: string,
    zoomEnabled: bool,
    title: string)

  /** The message stored when a rejected fetch carries no usable message. */
  const DefaultError: string := "Failed to fetch products"

  /** `initialState`. */
  const Initial: FetchState := FetchState([], false, "", true, "")

  /** The error text a rejected fetch stores: the message when it is present and
      non-empty (the source's `||` treats an empty string like a missing one),
      otherwise the fixed default. */
  function RejectedError(message: Option<string>): (e: string)
    ensures e != ""
    ensures message.Some? && message.value != "" ==> e == message.value
    ensures message == None || message == Some("") ==> e == DefaultError
  {
    if message.Some? && message.value != "" then message.value else DefaultError
  }

  /** The last action of a fetch that ended with `outcome`. */
  function Settle(outcome: FetchOutcome): Action {
    match outcome
    case Resolved(p) => FetchFulfilled(p)
    case Failed(m) => FetchRejected(m)
  }

  /** The slice's reducer as a function of values: the state after one action.
      Only `toggleZoom` writes `zoomEnabled`, only a fulfilled fetch writes `data`
      and `title`, and only a rejected fetch writes `error`, always non-empty. */
  function Reduce(s: FetchState, a: Action): (r: FetchState)
    ensures r.zoomEnabled == (s.zoomEnabled != a.ToggleZoom?)
    ensures r.isLoading == (if a.ToggleZoom? then s.isLoading else a.FetchPending?)
    ensures a.FetchFulfilled? ==> r.data == a.payload.data && r.title == a.payload.symbol
    ensures !a.FetchFulfilled? ==> r.data == s.data && r.title == s.title
    ensures a.FetchRejected? ==> r.error != ""
    ensures !a.FetchRejected? ==> r.error == s.error
  {
    match a
    case ToggleZoom => s.(zoomEnabled := !s.zoomEnabled)
    case FetchPending => s.(isLoading := true)
    case FetchFulfilled(p) => s.(isLoading := false, data := p.data, title := p.symbol)
    case FetchRejected(m) => s.(isLoading := false, error := RejectedError(m))
  }

  /** The state after dispatching `actions` in order, starting from `s`. */
  function Run(s: FetchState, actions: seq<Action>): FetchState
    decreases |actions|
  {
    if actions == [] then s
    else Reduce(Run(s, actions[..|actions| - 1]), actions[|actions| - 1])
  }

  // ---- A reference description of a history of actions, field by field ----

  /** How many `toggleZoom` actions occur in `actions`. */
  function CountToggles(actions: seq<Action>): nat {
    if actions == [] then 0
    else CountToggles(actions[1..]) + (if actions[0].ToggleZoom? then 1 else 0)
  }

  /** The last action in `actions` that belongs to a fetch, if any. */
  function LastFetchEvent(actions: seq<Action>): Option<Action> {
    if actions == [] then None
    else if LastFetchEvent(actions[1..]).Some? then LastFetchEvent(actions[1..])
    else if actions[0].ToggleZoom? then None
    else Some(actions[0])
  }

  /** The payload of the last fulfilled fetch in `actions`, if any. */
  function LastPayload(actions: seq<Action>): Option<Payload> {
    if actions == [] then None
    else if LastPayload(actions[1..]).Some? then LastPayload(actions[1..])
    else if actions[0].FetchFulfilled? then Some(actions[0].payload)
    else None
  }

  /** The message of the last rejected fetch in `actions`, if any. */
  function LastRejection(actions: seq<Action>): Option<Option<string>> {
    if actions == [] then None
    else if LastRejection(actions[1..]).Some? then LastRejection(actions[1..])
    else if actions[0].FetchRejected? then Some(actions[0].message)
    else None
  }

  /** Appending one action to a history: how each reference summary moves. */
  lemma {:induction false} SummariesSnoc(actions: seq<Action>, a: Action)
    ensures CountToggles(actions + [a]) == CountToggles(actions) + (if a.ToggleZoom? then 1 else 0)
    ensures LastFetchEvent(actions + [a]) == if a.ToggleZoom? then LastFetchEvent(actions) else Some(a)
    ensures LastPayload(actions + [a]) == if a.FetchFulfilled? then Some(a.payload) else LastPayload(actions)
    ensures LastRejection(actions + [a]) == if a.FetchRejected? then Some(a.message) else LastRejection(actions)
  {
    if actions != [] {
      assert (actions + [a])[1..] == actions[1..] + [a];
      SummariesSnoc(actions[1..], a);
    }
  }

  /** Every field of the slice after a history of actions, described without the
      reducer: `zoomEnabled` is flipped once per `toggleZoom` and by nothing else;
      `isLoading` is true exactly when the last fetch action was `pending` (and
      otherwise keeps its start value); `data` and `title` come from the last
      fulfilled fetch; `error` comes from the last rejected fetch and is never
      cleared by a fulfilled one. */
  lemma {:induction false} RunCharacterized(s: FetchState, actions: seq<Action>)
    ensures Run(s, actions).zoomEnabled == (s.zoomEnabled != (CountToggles(actions) % 2 == 1))
    ensures Run(s, actions).isLoading ==
      (if LastFetchEvent(actions).Some? then LastFetchEvent(actions) == Some(FetchPending) else s.isLoading)
    ensures Run(s, actions).data ==
      (if LastPayload(actions).Some? then LastPayload(actions).value.data else s.data)
    ensures Run(s, actions).title ==
      (if LastPayload(actions).Some? then LastPayload(actions).value.symbol else s.title)
    ensures Run(s, actions).error ==
      (if LastRejection(actions).Some? then RejectedError(LastRejection(actions).value) else s.error)
    decreases |actions|
  {
    if actions != [] {
      var init, a := actions[..|actions| - 1], actions[|actions| - 1];
      assert actions == init + [a];
      RunCharacterized(s, init);
      SummariesSnoc(init, a);
    }
  }

  /** A two-action history is the reducer applied twice. */
  lemma RunPair(s: FetchState, a: Action, b: Action)
    ensures Run(s, [a, b]) == Reduce(Reduce(s, a), b)
  {
    assert [a, b][..1] == [a];
    assert [a][..0] == [];
    assert Run(s, [a]) == Reduce(s, a);
  }

  /** Only `toggleZoom` changes `zoomEnabled`: a history without one leaves it as it was. */
  lemma ZoomUntouchedByFetches(s: FetchState, actions: seq<Action>)
    requires forall i :: 0 <= i < |actions| ==> !actions[i].ToggleZoom?
    ensures Run(s, actions).zoomEnabled == s.zoomEnabled
  {
  }

  /** `toggleZoom` is an involution. */
  lemma ToggleZoomTwice(s: FetchState)
    ensures Reduce(Reduce(s, ToggleZoom), ToggleZoom) == s
  {
  }

  /** A fetch that starts and then settles, either way, leaves `isLoading` false
      and does not touch `zoomEnabled`. */
  lemma FetchSettles(s: FetchState, outcome: FetchOutcome)
    ensures !Run(s, [FetchPending, Settle(outcome)]).isLoading
    ensures Run(s, [FetchPending, Settle(outcome)]).zoomEnabled == s.zoomEnabled
  {
    RunPair(s, FetchPending, Settle(outcome));
  }

  /** The first fetch from the initial state succeeding: the payload is stored,
      the symbol becomes the title, and the error is still empty. */
  lemma FirstFetchSucceeds(p: Payload)
    ensures Run(Initial, [FetchPending, FetchFulfilled(p)]) == FetchState(p.data, false, "", true, p.symbol)
  {
    RunPair(Initial, FetchPending, FetchFulfilled(p));
  }

  /** The first fetch from the initial state failing: `data` stays empty and a
      non-empty error is stored. */
  lemma FirstFetchFails(message: Option<string>)
    ensures Run(Initial, [FetchPending, FetchRejected(message)]).data == []
    ensures Run(Initial, [FetchPending, FetchRejected(message)]).error != ""
    ensures !Run(Initial, [FetchPending, FetchRejected(message)]).isLoading
  {
    RunPair(Initial, FetchPending, FetchRejected(message));
  }

  /** A fulfilled fetch after a rejected one keeps the old error: the reducer
      never clears `error`. */
  lemma ErrorSurvivesSuccess(s: FetchState, message: Option<string>, p: Payload)
    ensures Run(s, [FetchRejected(message), FetchFulfilled(p)]).error == RejectedError(message)
    ensures Run(s, [FetchRejected(message), FetchFulfilled(p)]).error != ""
  {
  }

  /** The slice as the store holds it: a record whose fields each reducer
      assigns in place. */
  class Store {
    var data: seq<Sample>
    var isLoading: bool
    var error: string
    var zoomEnabled: bool
    var title: string

    /** The current value of the slice. */
    function State(): FetchState
      reads this
    {
      FetchState(data, isLoading, error, zoomEnabled, title)
    }

    /** The store starts from `initialState`. */
    constructor ()
      ensures data == [] && !isLoading && error == "" && zoomEnabled && title == ""
      ensures State() == Initial
    {
      data := [];
      isLoading := false;
      error := "";
      zoomEnabled := true;
      title := "";
    }

    /** `toggleZoom`: negates `zoomEnabled` and nothing else. */
    method ToggleZoom()
      modifies this
      ensures zoomEnabled == !old(zoomEnabled)
      ensures data == old(data) && isLoading == old(isLoading) && error == old(error) && title == old(title)
      ensures State() == Reduce(old(State()), Action.ToggleZoom)
    {
      zoomEnabled := !zoomEnabled;
    }

    /** `fetchData.pending`: marks the slice as loading and nothing else. */
    method FetchPending()
      modifies this
      ensures isLoading
      ensures data == old(data) && error == old(error) && zoomEnabled == old(zoomEnabled) && title == old(title)
      ensures State() == Reduce(old(State()), Action.FetchPending)
    {
      isLoading := true;
    }

    /** `fetchData.fulfilled`: stores the payload's samples and symbol and clears
        loading; `error` is left as it was. */
    method FetchFulfilled(payload: Payload)
      modifies this
      ensures !isLoading && data == payload.data && title == payload.symbol
      ensures error == old(error) && zoomEnabled == old(zoomEnabled)
      ensures State() == Reduce(old(State()), Action.FetchFulfilled(payload))
    {
      isLoading := false;
      data := payload.data;
      title := payload.symbol;
    }

    /** `fetchData.rejected`: clears loading and stores a non-empty error;
        `data`, `title` and `zoomEnabled` are left as they were. */
    method FetchRejected(message: Option<string>)
      modifies this
      ensures !isLoading && error == RejectedError(message) && error != ""
      ensures data == old(data) && zoomEnabled == old(zoomEnabled) && title == old(title)
      ensures State() == Reduce(old(State()), Action.FetchRejected(message))
    {
      isLoading := false;
      error := RejectedError(message);
    }

    /** Dispatching one action to the slice's reducer. */
    method Dispatch(a: Action)
      modifies this
      ensures State() == Reduce(old(State()), a)
    {
      match a
      case ToggleZoom => ToggleZoom();
      case FetchPending => FetchPending();
      case FetchFulfilled(p) => FetchFulfilled(p);
      case FetchRejected(m) => FetchRejected(m);
    }

    /** One invocation of the `fetchData` thunk: `pending`, then `fulfilled` or
        `rejected` according to how the request ends. Afterwards the slice is not
        loading and `zoomEnabled` is as before. */
    method FetchData(outcome: FetchOutcome)
      modifies this
      ensures !isLoading && zoomEnabled == old(zoomEnabled)
      ensures State() == Run(old(State()), [Action.FetchPending, Settle(outcome)])
    {
      ghost var before := State();
      FetchPending();
      match outcome {
        case Resolved(p) => FetchFulfilled(p);
        case Failed(m) => FetchRejected(m);
      }
      RunPair(before, Action.FetchPending, Settle(outcome));
    }
  }
}
