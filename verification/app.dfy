/** The application shell, in the vocabulary of its own (older) revision:
    `day` capability and index, `list` view. It starts loading, fetches the
    data once, hands it to the data engine and, on every render after the
    load has settled, filters and derives the no-results alert and which
    screen to show. The engine (`loadData`, `filterData`,
    `translateGoogleSheet`) is not part of this model: it is passed in as
    an `Engine` of uninterpreted functions over a payload type `P`. */
module App {
  import opened Optional
  import opened Seqs
  import AppState

  datatype View = List | Map

  datatype Caps = Caps(
    coordinates: bool,
    day: bool,
    geolocation: bool,
    maps: bool,   // the source's `map` key
    region: bool,
    time: bool,
    types: bool)   // the source's `type` key

  datatype Indexes = Indexes(
    day: seq<AppState.IndexEntry>,
    region: seq<AppState.IndexEntry>,
    time: seq<AppState.IndexEntry>,
    types: seq<AppState.IndexEntry>)

  /** The query read from the page URL; only the open meeting and the view
      are read here, the other parameters only by the engine. */
  datatype Input = Input(meeting: Option<string>, view: View, query: map<string, seq<string>>)

  datatype Alert = NoResults

  /** Why nothing could be loaded: a source was given but could not be
      fetched or parsed, or no source was given at all. */
  datatype Failure = BadData | NoData

  datatype State = State(
    alert: Option<Alert>,
    capabilities: Caps,
    error: Option<Failure>,
    input: Input,
    indexes: Indexes,
    loading: bool,
    mapInitialized: bool,
    meetings: seq<AppState.Meeting>)

  /** What `loadData` returns. */
  datatype Loaded = Loaded(meetings: seq<AppState.Meeting>, indexes: Indexes, capabilities: Caps)

  /** The data engine, outside this model. */
  datatype Engine<!P> = Engine(
    load: (P, Caps) -> Loaded,
    filter: State -> seq<string>,
    translate: P -> P)

  /** How the fetch of the source settled: a parsed JSON body, or a
      rejection (network failure or a body that is not JSON). */
  datatype Fetch<P> = Fetched(body: P) | Rejected

  const SheetHost: string := "spreadsheets.google.com"

  datatype Phase = Loading | Ready | Failed(reason: Failure)

  function PhaseOf(s: State): Phase {
    if s.loading then Loading
    else if s.error.Some? then Failed(s.error.value)
    else Ready
  }

  const NoCaps: Caps := Caps(false, false, false, false, false, false, false)

  const NoIndexes: Indexes := Indexes([], [], [], [])

  /** The state before anything is fetched. */
  function Init(input: Input): (s: State)
    ensures PhaseOf(s) == Loading
    ensures s.alert.None? && s.error.None? && !s.mapInitialized
    ensures s.capabilities == NoCaps && s.indexes == NoIndexes && s.meetings == []
    ensures s.input == input
  {
    State(None, NoCaps, None, input, NoIndexes, true, false, [])
  }

  /** A `mapbox` attribute on the page element overrides the configured key. */
  function MapboxKey(attribute: Option<string>, configured: Option<string>): (r: Option<string>)
    ensures Truthy(attribute) ==> r == attribute
    ensures !Truthy(attribute) ==> r == configured
    ensures Truthy(r) <==> Truthy(attribute) || Truthy(configured)
  {
    if Truthy(attribute) then attribute else configured
  }

  /** Mounting again with the same attribute changes no key. */
  lemma MapboxKeyStable(attribute: Option<string>, configured: Option<string>)
    ensures MapboxKey(attribute, MapboxKey(attribute, configured)) == MapboxKey(attribute, configured)
  {
  }

  /** The payload handed to `loadData`: spreadsheet exports are translated
      first, recognised by the host name appearing in the source URL. */
  function Payload<P>(src: string, body: P, e: Engine<P>): (r: P)
    ensures (exists i :: OccursAt(SheetHost, src, i)) ==> r == e.translate(body)
    ensures !(exists i :: OccursAt(SheetHost, src, i)) ==> r == body
  {
    if Includes(src, SheetHost) then e.translate(body) else body
  }

  /** The settled fetch of the `src` attribute. A rejection records why and
      stops loading; a body is loaded with the current capabilities and the
      result installed. An absent `src` cannot be searched for the sheet
      host, so the success handler stops there and the state is untouched. */
  function Mount<P>(s: State, src: Option<string>, fetch: Fetch<P>, e: Engine<P>): (r: State)
    ensures fetch.Rejected? ==>
              && !r.loading
              && r.error == Some(if Truthy(src) then BadData else NoData)
              && r == s.(error := r.error, loading := false)
    ensures fetch.Fetched? && src.Some? ==>
              var data := e.load(Payload(src.value, fetch.body, e), s.capabilities);
              && !r.loading
              && r.meetings == data.meetings
              && r.indexes == data.indexes
              && r.capabilities == data.capabilities
              && r.alert == s.alert && r.error == s.error && r.input == s.input
              && r.mapInitialized == s.mapInitialized
    ensures fetch.Fetched? && src.None? ==> r == s
  {
    match fetch
    case Rejected =>
      s.(error := Some(if Truthy(src) then BadData else NoData), loading := false)
    case Fetched(body) =>
      if src.None? then s
      else
        var data := e.load(Payload(src.value, body, e), s.capabilities);
        s.(capabilities := data.capabilities, indexes := data.indexes,
           meetings := data.meetings, loading := false)
  }

  /** From the initial state, a settled load ends loading for good: failed
      exactly when the fetch was rejected, ready otherwise. */
  lemma MountSettles<P>(input: Input, src: Option<string>, fetch: Fetch<P>, e: Engine<P>)
    requires fetch.Rejected? || src.Some?
    ensures var r := Mount(Init(input), src, fetch, e);
            && (fetch.Rejected? ==> PhaseOf(r) == Failed(if Truthy(src) then BadData else NoData))
            && (fetch.Fetched? ==> PhaseOf(r) == Ready)
  {
  }

  datatype Screen =
    | LoadingScreen
    | DetailScreen
    | ListingScreen(title: bool, slugs: seq<string>, table: bool, mapView: bool)

  datatype Rendered = Rendered(state: State, screen: Screen)

  /** One render. While loading nothing is filtered. Afterwards the engine
      filters, the alert says whether nothing matched, the map is told to
      redraw, and either the open meeting or the listing is shown; the
      listing shows the table or the map, per the view, only when something
      matched. The title follows the `title` setting. */
  function Render<P>(s: State, e: Engine<P>, showTitle: bool): (r: Rendered)
    ensures s.loading ==> r == Rendered(s, LoadingScreen)
    ensures !s.loading ==>
              && (r.state.alert == Some(NoResults) <==> |e.filter(s)| == 0)
              && (r.state.alert.None? <==> |e.filter(s)| > 0)
              && !r.state.mapInitialized
              && r.state == s.(alert := r.state.alert, mapInitialized := false)
    ensures !s.loading && Truthy(s.input.meeting) ==> r.screen == DetailScreen
    ensures !s.loading && !Truthy(s.input.meeting) ==>
              && r.screen.ListingScreen?
              && r.screen.slugs == e.filter(s)
              && r.screen.title == showTitle
              && (r.screen.table <==> |r.screen.slugs| > 0 && s.input.view == List)
              && (r.screen.mapView <==> |r.screen.slugs| > 0 && s.input.view == Map)
  {
    if s.loading then Rendered(s, LoadingScreen)
    else
      var slugs := e.filter(s);
      var after := s.(alert := if |slugs| > 0 then None else Some(NoResults),
                      mapInitialized := false);
      var screen :=
        if Truthy(s.input.meeting) then DetailScreen
        else ListingScreen(showTitle, slugs,
                           |slugs| > 0 && s.input.view == List,
                           |slugs| > 0 && s.input.view == Map);
      Rendered(after, screen)
  }

  /** Before the load settles nothing is filtered and the state is kept. */
  lemma InitRendersLoading<P>(input: Input, e: Engine<P>, showTitle: bool)
    ensures Render(Init(input), e, showTitle) == Rendered(Init(input), LoadingScreen)
  {
  }

  /** In the listing, the alert is raised exactly when no slug is listed,
      and the table and the map are never shown together. */
  lemma ListingAgreesWithAlert<P>(s: State, e: Engine<P>, showTitle: bool)
    requires !s.loading && !Truthy(s.input.meeting)
    ensures var r := Render(s, e, showTitle);
            && (r.state.alert.Some? <==> r.screen.slugs == [])
            && !(r.screen.table && r.screen.mapView)
  {
  }

  /** Rendering never changes the phase, the data or the query. */
  lemma RenderKeepsPhase<P>(s: State, e: Engine<P>, showTitle: bool)
    ensures var r := Render(s, e, showTitle).state;
            && PhaseOf(r) == PhaseOf(s)
            && r.meetings == s.meetings && r.indexes == s.indexes
            && r.capabilities == s.capabilities && r.input == s.input
  {
  }

  /** A successful load that installs no meetings leaves a ready state
      with an empty meeting list, and rendering it raises the no-results
      alert whenever the engine filters to nothing. */
  lemma EmptyLoadAlerts<P>(input: Input, src: string, body: P, e: Engine<P>, showTitle: bool)
    requires e.load(Payload(src, body, e), NoCaps).meetings == []
    requires var s := Mount(Init(input), Some(src), Fetched(body), e); e.filter(s) == []
    ensures var r := Render(Mount(Init(input), Some(src), Fetched(body), e), e, showTitle).state;
            && PhaseOf(r) == Ready
            && r.meetings == []
            && r.alert == Some(NoResults)
  {
  }
}
