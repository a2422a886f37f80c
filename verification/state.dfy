/** The application state the controls and filter dropdowns work on, in the
    vocabulary of the current revision (`weekday` capability, `table` view):
    capabilities, per-facet indexes, the user's input and the meetings keyed
    by slug. Dates and times of a meeting are left out. */
module AppState {
  import opened Optional

  datatype Mode = Search | Location | Me

  datatype View = Table | Map

  /** A filter key of `settings.filters`: each names an input selection, an
      index and a capability of the same name. */
  datatype Facet = Distance | Region | Time | Type | Weekday

  /** Whether the loaded data supports each feature. */
  datatype Caps = Caps(
    coordinates: bool,
    distance: bool,
    geolocation: bool,
    inactive: bool,
    location: bool,
    region: bool,
    sharing: bool,
    time: bool,
    types: bool,   // the source's `type` key
    weekday: bool)

  /** One value of a facet and the slugs of the meetings that carry it. */
  datatype IndexEntry = IndexEntry(key: string, name: string, slugs: seq<string>)

  datatype Indexes = Indexes(
    distance: seq<IndexEntry>,
    region: seq<IndexEntry>,
    time: seq<IndexEntry>,
    types: seq<IndexEntry>,
    weekday: seq<IndexEntry>)

  /** The user's query: one ordered selection per facet, the search text,
      the reference point, the mode, the view and the open meeting. */
  datatype Input = Input(
    distance: seq<string>,
    latitude: Option<real>,
    longitude: Option<real>,
    meeting: Option<string>,
    mode: Mode,
    region: seq<string>,
    search: string,
    time: seq<string>,
    types: seq<string>,
    view: View,
    weekday: seq<string>)

  datatype Meeting = Meeting(
    slug: string,
    name: string,
    types: seq<string>,
    regions: seq<string>,
    timezone: string,
    latitude: Option<real>,
    longitude: Option<real>,
    distance: Option<real>,
    isActive: bool,
    isInPerson: bool,
    isOnline: bool,
    approximate: bool)

  datatype State = State(
    capabilities: Caps,
    indexes: Indexes,
    input: Input,
    loading: bool,
    meetings: map<string, Meeting>,
    ready: bool)

  /** The keys of `input`. */
  datatype InputKey = Selection(facet: Facet) | LatitudeKey | LongitudeKey
                    | MeetingKey | ModeKey | SearchKey | ViewKey

  /** `a` and `b` agree on every input key outside `changed`. */
  predicate InputFrame(a: Input, b: Input, changed: set<InputKey>) {
    && (Selection(Distance) !in changed ==> a.distance == b.distance)
    && (LatitudeKey !in changed ==> a.latitude == b.latitude)
    && (LongitudeKey !in changed ==> a.longitude == b.longitude)
    && (MeetingKey !in changed ==> a.meeting == b.meeting)
    && (ModeKey !in changed ==> a.mode == b.mode)
    && (Selection(Region) !in changed ==> a.region == b.region)
    && (SearchKey !in changed ==> a.search == b.search)
    && (Selection(Time) !in changed ==> a.time == b.time)
    && (Selection(Type) !in changed ==> a.types == b.types)
    && (ViewKey !in changed ==> a.view == b.view)
    && (Selection(Weekday) !in changed ==> a.weekday == b.weekday)
  }

  /** The keys of `capabilities`. */
  datatype CapKey = FacetCap(facet: Facet) | Coordinates | Geolocation
                  | Inactive | LocationCap | Sharing

  /** `a` and `b` agree on every capability outside `changed`. */
  predicate CapsFrame(a: Caps, b: Caps, changed: set<CapKey>) {
    && (Coordinates !in changed ==> a.coordinates == b.coordinates)
    && (FacetCap(Distance) !in changed ==> a.distance == b.distance)
    && (Geolocation !in changed ==> a.geolocation == b.geolocation)
    && (Inactive !in changed ==> a.inactive == b.inactive)
    && (LocationCap !in changed ==> a.location == b.location)
    && (FacetCap(Region) !in changed ==> a.region == b.region)
    && (Sharing !in changed ==> a.sharing == b.sharing)
    && (FacetCap(Time) !in changed ==> a.time == b.time)
    && (FacetCap(Type) !in changed ==> a.types == b.types)
    && (FacetCap(Weekday) !in changed ==> a.weekday == b.weekday)
  }

  /** `a` and `b` agree on the index of every facet outside `changed`. */
  predicate IndexesFrame(a: Indexes, b: Indexes, changed: set<Facet>) {
    && (Distance !in changed ==> a.distance == b.distance)
    && (Region !in changed ==> a.region == b.region)
    && (Time !in changed ==> a.time == b.time)
    && (Type !in changed ==> a.types == b.types)
    && (Weekday !in changed ==> a.weekday == b.weekday)
  }

  /** `capabilities[filter]`. */
  function CapOf(c: Caps, f: Facet): bool {
    match f
    case Distance => c.distance
    case Region => c.region
    case Time => c.time
    case Type => c.types
    case Weekday => c.weekday
  }

  /** `input[filter]`: the ordered selection of one facet. */
  function Selected(i: Input, f: Facet): seq<string> {
    match f
    case Distance => i.distance
    case Region => i.region
    case Time => i.time
    case Type => i.types
    case Weekday => i.weekday
  }

  /** `{ ...input, [filter]: values }`. */
  function WithSelected(i: Input, f: Facet, values: seq<string>): (r: Input)
    ensures Selected(r, f) == values
    ensures InputFrame(i, r, {Selection(f)})
  {
    match f
    case Distance => i.(distance := values)
    case Region => i.(region := values)
    case Time => i.(time := values)
    case Type => i.(types := values)
    case Weekday => i.(weekday := values)
  }
}
