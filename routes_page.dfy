/** The route browser: the route table, the case-insensitive search over name,
    origin and destination, the selected route, and the map that follows the
    selection. */
module RoutesPage {
  import opened Common
  import opened MapProps

  datatype Route = Route(
    id: nat,
    name: string,
    origin: string,
    destination: string,
    fareMin: nat,
    fareMax: nat,
    distance: string,
    duration: string,
    popularity: string,
    stops: seq<string>,
    landmarks: seq<string>,
    schedule: string,
    frequency: string,
    coordinates: seq<Coord>)

  /** The six routes, every one starting at the Suarez terminal. */
  function Routes(): (rs: seq<Route>)
    ensures |rs| == 6
    ensures forall k :: 0 <= k < |rs| ==> rs[k].id == k + 1
  {
    [DesmarkRoute(), CityPlazaRoute(), OctagonRoute(),
     RobinsonsRoute(), WetMarketRoute(), JollibeeRoute()]
  }

  function DesmarkRoute(): Route {
    Route(1, "Suarez to Desmark", "Barangay Suarez Terminal", "Desmark (Dupoint Bldg.)", 12, 15,
      "4.5 km", "15-20 mins", "High",
      ["Suarez Terminal", "Desmark"],
      ["Suarez Barangay Hall", "Villa Verde Subdivision", "National Highway Junction", "Roxas Avenue", "Dupoint Building"],
      "First Trip: 5:30 AM | Last Trip: 8:00 PM", "Every 10 minutes",
      [Coord(8.191383124090216, 124.21514229708531),
       Coord(8.193736983523905, 124.21511707887781),
       Coord(8.196823561872954, 124.21326586726063),
       Coord(8.197395733867145, 124.2113031128139),
       Coord(8.198467291729273, 124.21035581968397),
       Coord(8.20224885779189, 124.210564938125),
       Coord(8.205447271053712, 124.20887026643493),
       Coord(8.21194677685325, 124.22640328045594),
       Coord(8.21227003875664, 124.23069466552367),
       Coord(8.215965054868358, 124.23880774037669),
       Coord(8.219008356819732, 124.24189537185012),
       Coord(8.226014936484185, 124.24003055810114),
       Coord(8.226451803378593, 124.2401040739517),
       Coord(8.227007946484214, 124.24021422576045),
       Coord(8.227653643199773, 124.24038210871517),
       Coord(8.229505915841813, 124.24063492669981),
       Coord(8.229549836192286, 124.24050143996944)])
  }

  function CityPlazaRoute(): Route {
    Route(2, "Suarez to City Plaza", "Barangay Suarez Terminal", "Iligan City Public Plaza", 12, 15,
      "5 km", "18-25 mins", "High",
      ["Suarez Terminal", "Public Plaza"],
      ["Suarez Barangay Hall", "Villa Verde Subdivision", "National Highway", "City Hall", "Public Plaza"],
      "First Trip: 5:00 AM | Last Trip: 9:00 PM", "Every 8 minutes",
      [Coord(8.191383124090216, 124.21514229708531),
       Coord(8.193736983523905, 124.21511707887781),
       Coord(8.196823561872954, 124.21326586726063),
       Coord(8.197395733867145, 124.2113031128139),
       Coord(8.198467291729273, 124.21035581968397),
       Coord(8.20224885779189, 124.210564938125),
       Coord(8.205447271053712, 124.20887026643493),
       Coord(8.21194677685325, 124.22640328045594),
       Coord(8.21227003875664, 124.23069466552367),
       Coord(8.215965054868358, 124.23880774037669),
       Coord(8.219008356819732, 124.24189537185012),
       Coord(8.226014936484185, 124.24003055810114),
       Coord(8.226451803378593, 124.2401040739517),
       Coord(8.227007946484214, 124.24021422576045),
       Coord(8.227653643199773, 124.24038210871517),
       Coord(8.229505915841813, 124.24063492669981),
       Coord(8.228348261940285, 124.23720561055194)])
  }

  function OctagonRoute(): Route {
    Route(3, "Suarez to Octagon", "Barangay Suarez Terminal", "Octagon Business Center", 12, 15,
      "5.2 km", "20-25 mins", "High",
      ["Suarez Terminal", "Octagon"],
      ["Suarez Barangay Hall", "Villa Verde Subdivision", "National Highway", "Quezon Avenue Extension", "Octagon Business Center"],
      "First Trip: 6:00 AM | Last Trip: 9:00 PM", "Every 10 minutes",
      [Coord(8.191383124090216, 124.21514229708531),
       Coord(8.193736983523905, 124.21511707887781),
       Coord(8.196823561872954, 124.21326586726063),
       Coord(8.197395733867145, 124.2113031128139),
       Coord(8.198467291729273, 124.21035581968397),
       Coord(8.20224885779189, 124.210564938125),
       Coord(8.205447271053712, 124.20887026643493),
       Coord(8.21194677685325, 124.22640328045594),
       Coord(8.21227003875664, 124.23069466552367),
       Coord(8.215965054868358, 124.23880774037669),
       Coord(8.219008356819732, 124.24189537185012),
       Coord(8.226014936484185, 124.24003055810114),
       Coord(8.226451803378593, 124.2401040739517),
       Coord(8.227007946484214, 124.24021422576045),
       Coord(8.227653643199773, 124.24038210871517),
       Coord(8.229505915841813, 124.24063492669981),
       Coord(8.229859157670553, 124.23766276158803)])
  }

  function RobinsonsRoute(): Route {
    Route(4, "Suarez to Robinsons", "Barangay Suarez Terminal", "Robinsons Iligan", 10, 12,
      "3.8 km", "12-18 mins", "High",
      ["Suarez Terminal", "Robinsons Mall"],
      ["Suarez Barangay Hall", "Villa Verde Subdivision", "National Highway", "Macapagal Avenue", "Robinsons Place Iligan"],
      "First Trip: 6:00 AM | Last Trip: 9:30 PM", "Every 12 minutes",
      [Coord(8.191383124090216, 124.21514229708531),
       Coord(8.193736983523905, 124.21511707887781),
       Coord(8.196823561872954, 124.21326586726063),
       Coord(8.197395733867145, 124.2113031128139),
       Coord(8.198467291729273, 124.21035581968397),
       Coord(8.20224885779189, 124.210564938125),
       Coord(8.205447271053712, 124.20887026643493),
       Coord(8.21194677685325, 124.22640328045594),
       Coord(8.21227003875664, 124.23069466552367),
       Coord(8.215965054868358, 124.23880774037669),
       Coord(8.217973817147191, 124.24092146525878)])
  }

  function WetMarketRoute(): Route {
    Route(5, "Suarez to Wet Market", "Barangay Suarez Terminal", "Iligan City Wet Market", 12, 15,
      "4.8 km", "18-22 mins", "High",
      ["Suarez Terminal", "Wet Market"],
      ["Suarez Barangay Hall", "Villa Verde Subdivision", "National Highway", "Downtown Iligan", "Central Wet Market"],
      "First Trip: 4:30 AM | Last Trip: 7:00 PM", "Every 10 minutes",
      [Coord(8.191383124090216, 124.21514229708531),
       Coord(8.193736983523905, 124.21511707887781),
       Coord(8.196823561872954, 124.21326586726063),
       Coord(8.197395733867145, 124.2113031128139),
       Coord(8.198467291729273, 124.21035581968397),
       Coord(8.20224885779189, 124.210564938125),
       Coord(8.205447271053712, 124.20887026643493),
       Coord(8.21194677685325, 124.22640328045594),
       Coord(8.21227003875664, 124.23069466552367),
       Coord(8.215965054868358, 124.23880774037669),
       Coord(8.219008356819732, 124.24189537185012),
       Coord(8.226014936484185, 124.24003055810114),
       Coord(8.226451803378593, 124.2401040739517),
       Coord(8.227007946484214, 124.24021422576045),
       Coord(8.227653643199773, 124.24038210871517),
       Coord(8.229505915841813, 124.24063492669981),
       Coord(8.229063462839681, 124.23375493117867)])
  }

  function JollibeeRoute(): Route {
    Route(6, "Suarez to Jollibee Aguinaldo", "Barangay Suarez Terminal", "Jollibee Aguinaldo", 12, 15,
      "4.9 km", "18-23 mins", "Medium",
      ["Suarez Terminal", "Jollibee Aguinaldo"],
      ["Suarez Barangay Hall", "Villa Verde Subdivision", "National Highway", "City Hall Area", "Jollibee Aguinaldo"],
      "First Trip: 6:00 AM | Last Trip: 7:00 PM", "Every 15 minutes",
      [Coord(8.191383124090216, 124.21514229708531),
       Coord(8.193736983523905, 124.21511707887781),
       Coord(8.196823561872954, 124.21326586726063),
       Coord(8.197395733867145, 124.2113031128139),
       Coord(8.198467291729273, 124.21035581968397),
       Coord(8.20224885779189, 124.210564938125),
       Coord(8.205447271053712, 124.20887026643493),
       Coord(8.21194677685325, 124.22640328045594),
       Coord(8.21227003875664, 124.23069466552367),
       Coord(8.215965054868358, 124.23880774037669),
       Coord(8.219008356819732, 124.24189537185012),
       Coord(8.226014936484185, 124.24003055810114),
       Coord(8.226451803378593, 124.2401040739517),
       Coord(8.227007946484214, 124.24021422576045),
       Coord(8.227653643199773, 124.24038210871517),
       Coord(8.22776558137087, 124.2404171030795)])
  }

  /** Facts about the table the page relies on: distinct ids, a fare range, and a
      line of at least two points for every route. */
  lemma RouteTableFacts()
    ensures |Routes()| == 6
    ensures forall i, j :: 0 <= i < j < |Routes()| ==> Routes()[i].id != Routes()[j].id
    ensures forall r :: r in Routes() ==> r.fareMin <= r.fareMax && |r.coordinates| >= 2
  {
    var rs := Routes();
    forall k | 0 <= k < 6
      ensures rs[k].id == k + 1 && rs[k].fareMin <= rs[k].fareMax && |rs[k].coordinates| >= 2
    {
      if k == 0 { assert rs[k] == DesmarkRoute(); }
      else if k == 1 { assert rs[k] == CityPlazaRoute(); }
      else if k == 2 { assert rs[k] == OctagonRoute(); }
      else if k == 3 { assert rs[k] == RobinsonsRoute(); }
      else if k == 4 { assert rs[k] == WetMarketRoute(); }
      else { assert rs[k] == JollibeeRoute(); }
    }
  }

  /** Every route of the table has a line to draw. */
  lemma RouteHasLine(r: Route)
    requires r in Routes()
    ensures |r.coordinates| >= 2
  {
    RouteTableFacts();
  }

  // ---------------------------------------------------------------------------
  // Search

  /** The search test of one route: the lower-cased query occurs in the lower-cased
      name, origin or destination. */
  predicate MatchesQuery(query: string, route: Route)
    ensures query == "" ==> MatchesQuery(query, route)
    ensures IsPrefix(ToLower(query), ToLower(route.name)) ==> MatchesQuery(query, route)
  {
    PrefixContained(ToLower(route.name), ToLower(query));
    var q := ToLower(query);
    Contains(ToLower(route.name), q) || Contains(ToLower(route.origin), q) ||
    Contains(ToLower(route.destination), q)
  }

  /** `filteredRoutes`. */
  function FilterRoutes(routes: seq<Route>, query: string): (shown: seq<Route>)
    ensures forall r :: r in shown <==> r in routes && MatchesQuery(query, r)
    ensures IsSubsequence(shown, routes)
    ensures shown == [] <==> forall r :: r in routes ==> !MatchesQuery(query, r)
  {
    Filter(routes, r => MatchesQuery(query, r))
  }

  /** An empty search shows every route, in table order. */
  lemma EmptySearchShowsAll(routes: seq<Route>)
    ensures FilterRoutes(routes, "") == routes
  {
    forall r | r in routes ensures MatchesQuery("", r) {
      ContainsEmpty(ToLower(r.name));
    }
  }

  /** The search ignores the case of the query. */
  lemma SearchIgnoresCase(routes: seq<Route>, query: string)
    ensures FilterRoutes(routes, ToLower(query)) == FilterRoutes(routes, query)
  {
    ToLowerIdempotent(query);
    FilterExtensional(routes, r => MatchesQuery(ToLower(query), r), r => MatchesQuery(query, r));
  }

  /** Typing more characters never brings a route back. */
  lemma TypingNarrows(routes: seq<Route>, query: string, more: string)
    ensures forall r :: r in FilterRoutes(routes, query + more) ==> r in FilterRoutes(routes, query)
  {
    ToLowerPrefix(query, more);
    var q, q2 := ToLower(query), ToLower(query + more);
    forall r | r in routes && MatchesQuery(query + more, r) ensures MatchesQuery(query, r) {
      if Contains(ToLower(r.name), q2) {
        ContainsShorter(ToLower(r.name), q, q2);
      } else if Contains(ToLower(r.origin), q2) {
        ContainsShorter(ToLower(r.origin), q, q2);
      } else {
        ContainsShorter(ToLower(r.destination), q, q2);
      }
    }
  }

  // ---------------------------------------------------------------------------
  // The map

  /** The centre shown when no route is selected. */
  const DefaultCenter: Coord := Coord(8.1915, 124.2151)

  const RouteColor: string := "#2E7D32"

  /** The map's properties: the whole table at zoom 13 with no markers, or the
      selected route alone at zoom 14, centred on its middle point, with terminal
      markers at both ends. */
  function RouteMap(selected: Option<Route>, routes: seq<Route>): (m: MapView)
    ensures selected.None? ==>
      m.center == Some(DefaultCenter) && m.zoom == 13 && m.markers == [] &&
      |m.polylines| == |routes| &&
      forall i :: 0 <= i < |routes| ==>
        m.polylines[i] == Polyline(routes[i].name, RouteColor, routes[i].coordinates)
    ensures selected.Some? ==>
      var r := selected.value;
      m.zoom == 14 &&
      m.polylines == [Polyline(r.name, RouteColor, r.coordinates)] &&
      m.center == At(r.coordinates, |r.coordinates| / 2) &&
      m.markers == [Marker(At(r.coordinates, 0), r.origin, TerminalMarker),
                    Marker(At(r.coordinates, |r.coordinates| - 1), r.destination, TerminalMarker)]
  {
    match selected
    case None =>
      MapView(Some(DefaultCenter), 13, seq(|routes|, i requires 0 <= i < |routes| =>
                                               Polyline(routes[i].name, RouteColor, routes[i].coordinates)), [])
    case Some(r) =>
      var c := r.coordinates;
      MapView(At(c, |c| / 2), 14, [Polyline(r.name, RouteColor, c)],
              [Marker(At(c, 0), r.origin, TerminalMarker), Marker(At(c, |c| - 1), r.destination, TerminalMarker)])
  }

  /** For a selected route with a line, the centre is a point of that line and the two
      markers sit on its first and last points, labelled origin and destination. */
  lemma SelectedMapOnRoute(r: Route, routes: seq<Route>)
    requires |r.coordinates| >= 1
    ensures var m := RouteMap(Some(r), routes);
      && m.center.Some? && m.center.value in r.coordinates
      && |m.markers| == 2
      && (forall k :: 0 <= k < 2 ==> m.markers[k].position.Some? && m.markers[k].position.value in r.coordinates)
      && m.markers[0].position == Some(r.coordinates[0])
      && m.markers[1].position == Some(r.coordinates[|r.coordinates| - 1])
  {
  }

  /** A route with no points at all would leave the centre and both markers undefined. */
  lemma EmptyLineLeavesMapUndefined(r: Route, routes: seq<Route>)
    requires r.coordinates == []
    ensures var m := RouteMap(Some(r), routes);
      m.center.None? && m.markers[0].position.None? && m.markers[1].position.None?
  {
  }

  // ---------------------------------------------------------------------------
  // Page state

  /** The page's two state cells; the table itself is fixed. */
  datatype PageState = PageState(searchQuery: string, selectedRoute: Option<Route>)

  const InitialState: PageState := PageState("", None)

  /** Only a route of the table is ever selected. */
  predicate Valid(st: PageState) {
    st.selectedRoute.Some? ==> st.selectedRoute.value in Routes()
  }

  /** The cards shown under the search bar. */
  function Shown(st: PageState): seq<Route> {
    FilterRoutes(Routes(), st.searchQuery)
  }

  /** The "No routes found" message. */
  predicate NoResults(st: PageState) {
    Shown(st) == []
  }

  function Map(st: PageState): MapView {
    RouteMap(st.selectedRoute, Routes())
  }

  /** A card is highlighted, and its button reads "Selected", when its route's id is
      the selected route's id. */
  predicate CardSelected(st: PageState, route: Route) {
    st.selectedRoute.Some? && st.selectedRoute.value.id == route.id
  }

  /** The page opens on every route and the whole-city map. */
  lemma InitialPage()
    ensures Valid(InitialState) && Shown(InitialState) == Routes()
    ensures Map(InitialState).zoom == 13 && Map(InitialState).markers == []
  {
    EmptySearchShowsAll(Routes());
  }

  /** Typing in the search bar: the selection, and with it the map, stay as they were,
      even when the selected route's card is filtered away. */
  function Search(st: PageState, query: string): (next: PageState)
    ensures next.searchQuery == query && next.selectedRoute == st.selectedRoute
    ensures Map(next) == Map(st)
    ensures Valid(st) ==> Valid(next)
    ensures NoResults(next) <==> forall r :: r in Routes() ==> !MatchesQuery(query, r)
  {
    st.(searchQuery := query)
  }

  /** Clicking a shown card selects its route and zooms the map onto it. */
  function Select(st: PageState, route: Route): (next: PageState)
    requires route in Shown(st)
    ensures next.selectedRoute == Some(route) && next.searchQuery == st.searchQuery
    ensures Valid(next) && CardSelected(next, route)
    ensures Map(next).zoom == 14 && Map(next).polylines == [Polyline(route.name, RouteColor, route.coordinates)]
    ensures Map(next).center.Some? && Map(next).center.value in route.coordinates
  {
    RouteHasLine(route);
    SelectedMapOnRoute(route, Routes());
    st.(selectedRoute := Some(route))
  }

  /** The close button on the details card: back to the whole-city map. */
  function ClearSelection(st: PageState): (next: PageState)
    ensures next.selectedRoute == None && next.searchQuery == st.searchQuery
    ensures Valid(next) && forall r :: !CardSelected(next, r)
    ensures Map(next).zoom == 13 && |Map(next).polylines| == |Routes()| && Map(next).markers == []
  {
    st.(selectedRoute := None)
  }

  /** With the table's distinct ids, at most one card is highlighted at a time. */
  lemma AtMostOneCardSelected(st: PageState, i: nat, j: nat)
    requires i < j < |Routes()|
    ensures !(CardSelected(st, Routes()[i]) && CardSelected(st, Routes()[j]))
  {
    RouteTableFacts();
  }
}
