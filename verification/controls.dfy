/** The search-and-filter bar: which search modes, filter dropdowns and views
    it offers given the capabilities of the loaded data, and the state
    transitions behind its mode menu, location form, view toggle and search
    field. The component's local search buffer is explicit in `Panel`. */
module Controls {
  import opened Optional
  import opened Seqs
  import opened AppState

  const AllModes: seq<Mode> := [Search, Location, Me]

  const AllViews: seq<View> := [Table, Map]

  /** Both searching near a typed location and the map view need
      coordinates and a mapbox key. */
  predicate MapSupported(c: Caps, mapbox: Option<string>) {
    c.coordinates && Truthy(mapbox)
  }

  /** Searching near the device needs coordinates and geolocation. */
  predicate MeSupported(c: Caps) {
    c.coordinates && c.geolocation
  }

  /** The first filter on the modes: location only when supported. */
  function LocationGate(c: Caps, mapbox: Option<string>): Mode -> bool {
    m => m != Location || MapSupported(c, mapbox)
  }

  /** The second filter on the modes: me only when supported. */
  function MeGate(c: Caps): Mode -> bool {
    m => m != Me || MeSupported(c)
  }

  /** The modes as a list, written out. */
  function ModeList(location: bool, me: bool): seq<Mode> {
    [Search] + (if location then [Location] else []) + (if me then [Me] else [])
  }

  /** The search modes offered, in menu order. */
  function OfferedModes(c: Caps, mapbox: Option<string>): (r: seq<Mode>)
    ensures Search in r
    ensures Location in r <==> MapSupported(c, mapbox)
    ensures Me in r <==> MeSupported(c)
    ensures IsSubsequence(r, AllModes)
  {
    ModesFiltered(c, mapbox);
    ModeListOrdered(MapSupported(c, mapbox), MeSupported(c));
    Filter(MeGate(c), Filter(LocationGate(c, mapbox), AllModes))
  }

  /** The menu order written out: search, then location, then me. */
  lemma OfferedModesListed(c: Caps, mapbox: Option<string>)
    ensures OfferedModes(c, mapbox) == ModeList(MapSupported(c, mapbox), MeSupported(c))
  {
  }

  lemma ModesFiltered(c: Caps, mapbox: Option<string>)
    ensures Filter(MeGate(c), Filter(LocationGate(c, mapbox), AllModes))
         == ModeList(MapSupported(c, mapbox), MeSupported(c))
  {
    var located := LocationGate(c, mapbox);
    var geolocated := MeGate(c);
    var once := Filter(located, AllModes);
    FilterOfThree(located, Search, Location, Me);
    if MapSupported(c, mapbox) {
      FilterOfThree(geolocated, Search, Location, Me);
    } else {
      assert once == [Search, Me];
      assert once[1..] == [Me] && [Me][1..] == [];
    }
  }

  lemma ModeListOrdered(location: bool, me: bool)
    ensures var r := ModeList(location, me);
            && Search in r && (Location in r <==> location) && (Me in r <==> me)
            && IsSubsequence(r, AllModes)
  {
  }

  /** Filtering a two-element sequence, one element at a time. */
  lemma FilterOfTwo<T>(p: T -> bool, a: T, b: T)
    ensures Filter(p, [a, b]) == (if p(a) then [a] else []) + (if p(b) then [b] else [])
  {
  }

  /** Filtering a three-element sequence, one element at a time. */
  lemma FilterOfThree<T>(p: T -> bool, a: T, b: T, c: T)
    ensures Filter(p, [a, b, c])
         == (if p(a) then [a] else []) + (if p(b) then [b] else []) + (if p(c) then [c] else [])
  {
    assert [a, b, c][1..] == [b, c];
    assert [b, c][1..] == [c];
    assert [c][1..] == [];
    var kc := if p(c) then [c] else [];
    var kb := if p(b) then [b] else [];
    assert Filter(p, [c]) == kc + Filter(p, []) == kc;
    assert Filter(p, [b, c]) == kb + kc;
  }

  /** Which facets may be filtered on in `mode`: region is meaningless near
      the device and distance is meaningless for a text search. */
  predicate FacetAllowed(f: Facet, mode: Mode) {
    (f != Region || mode != Me) && (f != Distance || mode != Search)
  }

  /** The filter dropdowns shown, in the order of the configured filters. */
  function OfferedFilters(configured: seq<Facet>, c: Caps, mode: Mode): (r: seq<Facet>)
    ensures IsSubsequence(r, configured)
    ensures forall i :: 0 <= i < |r| ==> CapOf(c, r[i]) && FacetAllowed(r[i], mode)
    ensures forall i :: 0 <= i < |configured| && CapOf(c, configured[i]) && FacetAllowed(configured[i], mode)
              ==> configured[i] in r
    ensures mode == Me ==> Region !in r
    ensures mode == Search ==> Distance !in r
  {
    var supported := (f: Facet) => CapOf(c, f);
    var notRegion := (f: Facet) => f != Region || mode != Me;
    var notDistance := (f: Facet) => f != Distance || mode != Search;
    var first := (f: Facet) => supported(f) && notRegion(f);
    var all := (f: Facet) => first(f) && notDistance(f);
    FilterFilter(supported, notRegion, first, configured);
    FilterFilter(first, notDistance, all, configured);
    FilterIsSubsequence(all, configured);
    Filter(notDistance, Filter(notRegion, Filter(supported, configured)))
  }

  /** The filter on the views: the map only with coordinates and a key. */
  function Mappable(c: Caps, mapbox: Option<string>): View -> bool {
    v => v != Map || MapSupported(c, mapbox)
  }

  /** The views the toggle offers, in button order. */
  function OfferedViews(c: Caps, mapbox: Option<string>): (r: seq<View>)
    ensures Table in r
    ensures Map in r <==> MapSupported(c, mapbox)
    ensures IsSubsequence(r, AllViews)
  {
    var mappable := Mappable(c, mapbox);
    FilterIsSubsequence(mappable, AllViews);
    assert AllViews[0] == Table && AllViews[1] == Map;
    Filter(mappable, AllViews)
  }

  /** The view toggle appears only when there is a choice to make. */
  function CanShowViews(c: Caps, mapbox: Option<string>): (b: bool)
    ensures b <==> MapSupported(c, mapbox)
  {
    var views := OfferedViews(c, mapbox);
    assert views == [Table] || views == [Table, Map] by {
      FilterOfTwo(Mappable(c, mapbox), Table, Map);
    }
    |views| > 1
  }

  /** The bar as rendered: nothing without meetings; otherwise the mode menu
      (shown when there is more than one mode), the search field (disabled
      near the device), the dropdowns and the view toggle. */
  datatype Bar = Bar(
    modes: seq<Mode>,
    modeMenu: bool,
    searchEnabled: bool,
    filters: seq<Facet>,
    views: seq<View>,
    viewToggle: bool)

  function Layout(s: State, configured: seq<Facet>, mapbox: Option<string>): (r: Option<Bar>)
    ensures r.None? <==> |s.meetings| == 0
    ensures r.Some? ==>
              && r.value.modes == OfferedModes(s.capabilities, mapbox)
              && (r.value.modeMenu <==> MapSupported(s.capabilities, mapbox) || MeSupported(s.capabilities))
              && (r.value.searchEnabled <==> s.input.mode != Me)
              && r.value.filters == OfferedFilters(configured, s.capabilities, s.input.mode)
              && r.value.views == OfferedViews(s.capabilities, mapbox)
              && (r.value.viewToggle <==> CanShowViews(s.capabilities, mapbox))
              && (r.value.viewToggle <==> Map in r.value.views)
  {
    if |s.meetings| == 0 then None
    else
      var modes := OfferedModes(s.capabilities, mapbox);
      OfferedModesListed(s.capabilities, mapbox);
      Some(Bar(
        modes,
        |modes| > 1,
        s.input.mode != Me,
        OfferedFilters(configured, s.capabilities, s.input.mode),
        OfferedViews(s.capabilities, mapbox),
        CanShowViews(s.capabilities, mapbox)))
  }

  /** The application state as the bar sees it, with the bar's own search
      buffer (used for the location being typed). */
  datatype Panel = Panel(state: State, search: string)

  /** What the search field displays. */
  function SearchValue(p: Panel): string {
    if p.state.input.mode == Location then p.search else p.state.input.search
  }

  /** Mounting the bar: the buffer starts from the state's search text only
      in location mode. */
  function Open(s: State): (p: Panel)
    ensures p.state == s
    ensures SearchValue(p) == s.input.search
    ensures s.input.mode != Location ==> p.search == ""
  {
    Panel(s, if s.input.mode == Location then s.input.search else "")
  }

  /** Submitting the form: in location mode, search near the typed place
      (dropping any previous reference point); otherwise nothing happens. */
  function LocationSearch(p: Panel): (r: Panel)
    ensures r.search == p.search
    ensures p.state.input.mode != Location ==> r == p
    ensures p.state.input.mode == Location ==>
              && r.state.input.search == p.search
              && r.state.input.latitude.None?
              && r.state.input.longitude.None?
              && InputFrame(p.state.input, r.state.input, {SearchKey, LatitudeKey, LongitudeKey})
              && r.state == p.state.(input := r.state.input)
  {
    if p.state.input.mode == Location then
      var s := p.state;
      Panel(s.(input := s.input.(latitude := None, longitude := None, search := p.search)), p.search)
    else p
  }

  /** Choosing a search mode: clears the search text, the buffer, the
      reference point, the distance selection, index and capability, and
      every meeting's distance. */
  function SetMode(p: Panel, mode: Mode): (r: Panel)
    ensures r.search == ""
    ensures r.state.input.mode == mode && r.state.input.search == ""
    ensures r.state.input.distance == [] && r.state.input.latitude.None? && r.state.input.longitude.None?
    ensures InputFrame(p.state.input, r.state.input,
                       {ModeKey, SearchKey, Selection(Distance), LatitudeKey, LongitudeKey})
    ensures !r.state.capabilities.distance
    ensures CapsFrame(p.state.capabilities, r.state.capabilities, {FacetCap(Distance)})
    ensures r.state.indexes.distance == []
    ensures IndexesFrame(p.state.indexes, r.state.indexes, {Distance})
    ensures r.state.meetings.Keys == p.state.meetings.Keys
    ensures forall slug :: slug in r.state.meetings ==>
              r.state.meetings[slug] == p.state.meetings[slug].(distance := None)
    ensures r.state.loading == p.state.loading && r.state.ready == p.state.ready
  {
    var s := p.state;
    var meetings := map slug | slug in s.meetings :: s.meetings[slug].(distance := None);
    Panel(
      s.(capabilities := s.capabilities.(distance := false),
         indexes := s.indexes.(distance := []),
         input := s.input.(distance := [], latitude := None, longitude := None,
                           mode := mode, search := ""),
         meetings := meetings),
      "")
  }

  /** Toggling between table and map. */
  function SetView(p: Panel, view: View): (r: Panel)
    ensures r.state.input.view == view
    ensures InputFrame(p.state.input, r.state.input, {ViewKey})
    ensures r == Panel(p.state.(input := r.state.input), p.search)
  {
    Panel(p.state.(input := p.state.input.(view := view)), p.search)
  }

  /** Typing in the search field: a text search filters as the user types;
      in the other modes only the buffer changes until the form is
      submitted. */
  function TypeText(p: Panel, text: string): (r: Panel)
    ensures p.state.input.mode == Search ==>
              && r.state.input.search == text
              && InputFrame(p.state.input, r.state.input, {SearchKey})
              && r == Panel(p.state.(input := r.state.input), p.search)
    ensures p.state.input.mode != Search ==> r == Panel(p.state, text)
  {
    if p.state.input.mode == Search then
      Panel(p.state.(input := p.state.input.(search := text)), p.search)
    else Panel(p.state, text)
  }

  /** Only the last mode choice matters. */
  lemma SetModeLastWins(p: Panel, first: Mode, second: Mode)
    ensures SetMode(SetMode(p, first), second) == SetMode(p, second)
  {
  }

  /** Right after a mode change no distance dropdown is offered: the
      distance capability has just been switched off. */
  lemma NoDistanceFilterAfterSetMode(p: Panel, mode: Mode, configured: seq<Facet>)
    ensures Distance !in OfferedFilters(configured, SetMode(p, mode).state.capabilities, mode)
  {
  }

  /** Switching views changes nothing the bar offers. */
  lemma SetViewKeepsLayout(p: Panel, view: View, configured: seq<Facet>, mapbox: Option<string>)
    ensures Layout(SetView(p, view).state, configured, mapbox) == Layout(p.state, configured, mapbox)
  {
  }

  /** Submitting the location form twice is submitting it once. */
  lemma LocationSearchIdempotent(p: Panel)
    ensures LocationSearch(LocationSearch(p)) == LocationSearch(p)
  {
  }

  /** What the user types is what the field shows, except near the device,
      where the field is disabled and keeps showing the state's text. */
  lemma TypedTextShown(p: Panel, text: string)
    ensures p.state.input.mode != Me ==> SearchValue(TypeText(p, text)) == text
    ensures p.state.input.mode == Me ==> SearchValue(TypeText(p, text)) == SearchValue(p)
  {
  }

  /** A location typed and submitted becomes the state's search text, and
      a fresh bar on the resulting state shows it again. */
  lemma LocationRoundTrip(p: Panel, text: string)
    requires p.state.input.mode == Location
    ensures LocationSearch(TypeText(p, text)).state.input.search == text
    ensures Open(LocationSearch(TypeText(p, text)).state) == LocationSearch(TypeText(p, text))
  {
  }
}
