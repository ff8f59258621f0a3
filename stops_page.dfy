/** The stop directory: the stop table, the search over name, landmarks and type,
    the overview map's markers, the type badges, the landmark preview on each card
    and the stop detail dialog. */
module StopsPage {
  import opened Common
  import opened MapProps

  /** A stop; `kind` is the table's `type` text ("Terminal", "Major Stop" or
      "Regular Stop"), `coordinatesText` the position as the page writes it. */
  datatype Stop = Stop(
    id: nat,
    name: string,
    kind: string,
    coordinatesText: string,
    position: Coord,
    routes: seq<string>,
    landmarks: seq<string>,
    facilities: seq<string>)

  /** The ten stops in table order. */
  function Stops(): (ss: seq<Stop>)
    ensures |ss| == 10
    ensures forall k :: 0 <= k < |ss| ==> ss[k].id == k + 1
  {
    [SuarezTerminal(), SuarezMarketArea(), VillaVerdeJunction(), MahayahayCenter(), TubodProper(),
     PoblacionCityCenter(), MsuIitGate(), PalaoChurch(), SantiagoProper(), TibangaTerminal()]
  }

  function SuarezTerminal(): Stop {
    Stop(1, "Suarez Terminal", "Terminal", "8.2280° N, 124.2452° E", Coord(8.2280, 124.2452),
      ["Suarez to Tubod", "Suarez to Poblacion", "Suarez to MSU-IIT", "Suarez to Mahayahay", "Suarez to Santiago", "Suarez to Tibanga"],
      ["Suarez Barangay Hall", "Suarez Elementary School", "Suarez Chapel"],
      ["Waiting Shed", "Sari-Sari Stores", "Tricycle Stand"])
  }

  function SuarezMarketArea(): Stop {
    Stop(2, "Suarez Market Area", "Major Stop", "8.2282° N, 124.2455° E", Coord(8.2282, 124.2455),
      ["Suarez to Tubod", "Suarez to Mahayahay"],
      ["Suarez Public Market", "Suarez Elementary School", "Local Stores"],
      ["Market Stalls", "Waiting Shed", "Nearby Stores"])
  }

  function VillaVerdeJunction(): Stop {
    Stop(3, "Villa Verde Junction", "Major Stop", "8.2285° N, 124.2460° E", Coord(8.2285, 124.2460),
      ["Suarez to Poblacion", "Suarez to MSU-IIT", "Suarez to Santiago"],
      ["Villa Verde Subdivision", "Santo Rosario Chapel", "Community Center"],
      ["Waiting Shed", "Sari-Sari Stores"])
  }

  function MahayahayCenter(): Stop {
    Stop(4, "Mahayahay Center", "Terminal", "8.2275° N, 124.2448° E", Coord(8.2275, 124.2448),
      ["Suarez to Mahayahay", "Suarez to Tubod"],
      ["Mahayahay Elementary School", "Mahayahay Chapel", "Community Center"],
      ["Waiting Shed", "Community Center", "Stores"])
  }

  function TubodProper(): Stop {
    Stop(5, "Tubod Proper", "Terminal", "8.2300° N, 124.2470° E", Coord(8.2300, 124.2470),
      ["Suarez to Tubod"],
      ["Saint Michael Church", "Tubod Elementary School", "Tubod Barangay Hall"],
      ["Terminal Area", "Waiting Shed", "Public Market"])
  }

  function PoblacionCityCenter(): Stop {
    Stop(6, "Poblacion (City Center)", "Terminal", "8.2288° N, 124.2480° E", Coord(8.2288, 124.2480),
      ["Suarez to Poblacion"],
      ["Iligan City Hall", "Iligan Public Market", "Plaza Divisoria", "Cathedral"],
      ["Terminal Building", "Public Plaza", "Market", "Shops"])
  }

  function MsuIitGate(): Stop {
    Stop(7, "MSU-IIT Gate", "Terminal", "8.2290° N, 124.2465° E", Coord(8.2290, 124.2465),
      ["Suarez to MSU-IIT", "Suarez to Tibanga"],
      ["MSU-IIT Campus", "Tibanga Highway", "Student Dormitories"],
      ["University Terminal", "Waiting Area", "Student Services"])
  }

  function PalaoChurch(): Stop {
    Stop(8, "Pala-o Church", "Regular Stop", "8.2286° N, 124.2472° E", Coord(8.2286, 124.2472),
      ["Suarez to Poblacion"],
      ["Pala-o Parish Church", "Pala-o Elementary School", "Community Plaza"],
      ["Waiting Shed", "Church Plaza"])
  }

  function SantiagoProper(): Stop {
    Stop(9, "Santiago Proper", "Terminal", "8.2283° N, 124.2458° E", Coord(8.2283, 124.2458),
      ["Suarez to Santiago"],
      ["Santiago Church", "Santiago Elementary School", "Santiago Barangay Hall"],
      ["Barangay Hall Area", "Waiting Shed"])
  }

  function TibangaTerminal(): Stop {
    Stop(10, "Tibanga Terminal", "Terminal", "8.2295° N, 124.2468° E", Coord(8.2295, 124.2468),
      ["Suarez to Tibanga"],
      ["Tibanga Elementary School", "Tibanga Airport Road", "MSU-IIT Back Gate"],
      ["Terminal Area", "Waiting Shed", "Stores"])
  }

  // ---------------------------------------------------------------------------
  // Search

  /** The lower-cased query occurs in the name, in some landmark, or in the type. */
  predicate MatchesQuery(query: string, stop: Stop)
    ensures query == "" ==> MatchesQuery(query, stop)
    ensures IsPrefix(ToLower(query), ToLower(stop.name)) ==> MatchesQuery(query, stop)
  {
    PrefixContained(ToLower(stop.name), ToLower(query));
    var q := ToLower(query);
    Contains(ToLower(stop.name), q) ||
    (exists l :: l in stop.landmarks && Contains(ToLower(l), q)) ||
    Contains(ToLower(stop.kind), q)
  }

  /** `filteredStops`. */
  function FilterStops(stops: seq<Stop>, query: string): (shown: seq<Stop>)
    ensures forall s :: s in shown <==> s in stops && MatchesQuery(query, s)
    ensures IsSubsequence(shown, stops)
    ensures shown == [] <==> forall s :: s in stops ==> !MatchesQuery(query, s)
  {
    Filter(stops, s => MatchesQuery(query, s))
  }

  /** An empty search shows every stop, in table order. */
  lemma EmptySearchShowsAll(stops: seq<Stop>)
    ensures FilterStops(stops, "") == stops
  {
    forall s | s in stops ensures MatchesQuery("", s) {
      ContainsEmpty(ToLower(s.name));
    }
  }

  /** The search ignores the case of the query. */
  lemma SearchIgnoresCase(stops: seq<Stop>, query: string)
    ensures FilterStops(stops, ToLower(query)) == FilterStops(stops, query)
  {
    ToLowerIdempotent(query);
    FilterExtensional(stops, s => MatchesQuery(ToLower(query), s), s => MatchesQuery(query, s));
  }

  /** Typing more characters never brings a stop back. */
  lemma TypingNarrows(stops: seq<Stop>, query: string, more: string)
    ensures forall s :: s in FilterStops(stops, query + more) ==> s in FilterStops(stops, query)
  {
    ToLowerPrefix(query, more);
    var q, q2 := ToLower(query), ToLower(query + more);
    forall s | s in stops && MatchesQuery(query + more, s) ensures MatchesQuery(query, s) {
      if Contains(ToLower(s.name), q2) {
        ContainsShorter(ToLower(s.name), q, q2);
      } else if exists l :: l in s.landmarks && Contains(ToLower(l), q2) {
        var l :| l in s.landmarks && Contains(ToLower(l), q2);
        ContainsShorter(ToLower(l), q, q2);
      } else {
        ContainsShorter(ToLower(s.kind), q, q2);
      }
    }
  }

  // ---------------------------------------------------------------------------
  // Markers and the two maps

  /** Terminals get the terminal marker (and the green pin), every other kind the
      stop marker (and the amber pin). */
  function MarkerOf(stop: Stop): (m: Marker)
    ensures m.position == Some(stop.position) && m.title == stop.name
    ensures m.kind == TerminalMarker <==> stop.kind == "Terminal"
  {
    Marker(Some(stop.position), stop.name, if stop.kind == "Terminal" then TerminalMarker else StopMarker)
  }

  /** One marker per stop, in table order. */
  function OverviewMarkers(stops: seq<Stop>): (ms: seq<Marker>)
    ensures |ms| == |stops|
    ensures forall i :: 0 <= i < |stops| ==> ms[i] == MarkerOf(stops[i])
  {
    if stops == [] then [] else [MarkerOf(stops[0])] + OverviewMarkers(stops[1..])
  }

  /** The map shows as many terminal markers as the "Terminals" badge counts. */
  lemma {:induction false} TerminalMarkersMatchBadge(stops: seq<Stop>)
    ensures Count(OverviewMarkers(stops), (m: Marker) => m.kind == TerminalMarker) ==
            Count(stops, (s: Stop) => s.kind == "Terminal")
  {
    if stops != [] {
      var ms := OverviewMarkers(stops);
      assert ms[1..] == OverviewMarkers(stops[1..]);
      TerminalMarkersMatchBadge(stops[1..]);
    }
  }

  /** The overview map: fixed centre and zoom, three fixed lines, and the markers of
      every stop in the table whatever the search. */
  function OverviewMap(): (m: MapView)
    ensures m.center == Some(Coord(8.2285, 124.2460)) && m.zoom == 14
    ensures |m.polylines| == 3
    ensures m.markers == OverviewMarkers(Stops())
  {
    MapView(Some(Coord(8.2285, 124.2460)), 14,
      [Polyline("Suarez to Poblacion", "#2E7D32",
                [Coord(8.2280, 124.2452), Coord(8.2285, 124.2460), Coord(8.2286, 124.2472), Coord(8.2288, 124.2480)]),
       Polyline("Suarez to MSU-IIT", "#F9A825",
                [Coord(8.2280, 124.2452), Coord(8.2285, 124.2460), Coord(8.2290, 124.2465)]),
       Polyline("Suarez to Tubod", "#1976D2",
                [Coord(8.2280, 124.2452), Coord(8.2282, 124.2455), Coord(8.2275, 124.2448), Coord(8.2270, 124.2445)])],
      OverviewMarkers(Stops()))
  }

  /** The dialog's map: zoom 16 on the stop, with the stop's own marker only. */
  function DetailMap(stop: Stop): (m: MapView)
    ensures m.center == Some(stop.position) && m.zoom == 16 && m.polylines == []
    ensures m.markers == [MarkerOf(stop)]
  {
    MapView(Some(stop.position), 16, [], [MarkerOf(stop)])
  }

  /** The dialog shows the same marker for a stop as the overview map does. */
  lemma DetailMarkerMatchesOverview(stops: seq<Stop>, i: nat)
    requires i < |stops|
    ensures DetailMap(stops[i]).markers == [OverviewMarkers(stops)[i]]
    ensures DetailMap(stops[i]).center == OverviewMarkers(stops)[i].position
  {
  }

  // ---------------------------------------------------------------------------
  // Badges and the landmark preview

  /** The count in a type badge. */
  function KindCount(stops: seq<Stop>, kind: string): (n: nat)
    ensures n <= |stops|
  {
    Count(stops, (s: Stop) => s.kind == kind)
  }

  /** Counts of three different kinds never exceed the whole list, and add up to it
      when every stop has one of the three. */
  lemma {:induction false} KindCountsPartition(stops: seq<Stop>, a: string, b: string, c: string)
    requires a != b && b != c && a != c
    ensures KindCount(stops, a) + KindCount(stops, b) + KindCount(stops, c) <= |stops|
    ensures (forall s :: s in stops ==> s.kind in {a, b, c}) ==>
      KindCount(stops, a) + KindCount(stops, b) + KindCount(stops, c) == |stops|
  {
    if stops != [] {
      assert forall s :: s in stops[1..] ==> s in stops;
      KindCountsPartition(stops[1..], a, b, c);
    }
  }

  /** The badges of the table: ten stops, seven terminals, two major and one regular. */
  lemma TableBadges()
    ensures |Stops()| == 10
    ensures KindCount(Stops(), "Terminal") == 7
    ensures KindCount(Stops(), "Major Stop") == 2
    ensures KindCount(Stops(), "Regular Stop") == 1
  {
    TableKinds();
    CountsOfTableKinds(Stops());
  }

  /** The type of row `i` of the table. */
  function TableKind(i: int): string {
    if i in {1, 2} then "Major Stop" else if i == 7 then "Regular Stop" else "Terminal"
  }

  /** Any ten rows typed like the table have the table's badge counts. */
  lemma CountsOfTableKinds(ss: seq<Stop>)
    requires |ss| == 10 && forall i :: 0 <= i < 10 ==> ss[i].kind == TableKind(i)
    ensures KindCount(ss, "Terminal") == 7
    ensures KindCount(ss, "Major Stop") == 2
    ensures KindCount(ss, "Regular Stop") == 1
  {
    assert "Terminal"[0] == 'T' && "Major Stop"[0] == 'M' && "Regular Stop"[0] == 'R';
    CountTen(ss, (s: Stop) => s.kind == "Terminal");
    CountTen(ss, (s: Stop) => s.kind == "Major Stop");
    CountTen(ss, (s: Stop) => s.kind == "Regular Stop");
  }

  /** The type of each row: terminals except the second, third (major) and eighth (regular). */
  lemma TableKinds()
    ensures |Stops()| == 10
    ensures forall i :: 0 <= i < |Stops()| ==> Stops()[i].kind == TableKind(i)
  {
    assert SuarezTerminal().kind == "Terminal";
    assert SuarezMarketArea().kind == "Major Stop";
    assert VillaVerdeJunction().kind == "Major Stop";
    assert MahayahayCenter().kind == "Terminal";
    assert TubodProper().kind == "Terminal";
    assert PoblacionCityCenter().kind == "Terminal";
    assert MsuIitGate().kind == "Terminal";
    assert PalaoChurch().kind == "Regular Stop";
    assert SantiagoProper().kind == "Terminal";
    assert TibangaTerminal().kind == "Terminal";
  }

  /** The landmark badges on a card: the first two, then "+n more" for the rest. */
  datatype Preview = Preview(shown: seq<string>, more: Option<nat>)

  function LandmarkPreview(landmarks: seq<string>): (p: Preview)
    ensures |p.shown| <= 2 && p.shown <= landmarks
    ensures p.more.Some? <==> |landmarks| > 2
    ensures |p.shown| + (if p.more.Some? then p.more.value else 0) == |landmarks|
  {
    if |landmarks| > 2 then Preview(landmarks[..2], Some(|landmarks| - 2))
    else Preview(landmarks, None)
  }

  /** Every card of the table shows two landmarks; only the city-centre stop, with
      four, adds a "+2 more" badge, the others "+1 more". */
  lemma TablePreviews()
    ensures forall i :: 0 <= i < |Stops()| ==>
      LandmarkPreview(Stops()[i].landmarks) ==
        Preview(Stops()[i].landmarks[..2], Some(if i == 5 then 2 else 1))
  {
    TableLandmarkCounts();
    var ss := Stops();
    forall i | 0 <= i < |ss|
      ensures LandmarkPreview(ss[i].landmarks) == Preview(ss[i].landmarks[..2], Some(if i == 5 then 2 else 1))
    {
      assert |ss[i].landmarks| == (if i == 5 then 4 else 3);
    }
  }

  /** The number of landmarks of each row: four for the city centre, three elsewhere. */
  lemma TableLandmarkCounts()
    ensures |Stops()| == 10
    ensures forall i :: 0 <= i < |Stops()| ==> |Stops()[i].landmarks| == (if i == 5 then 4 else 3)
  {
    assert |SuarezTerminal().landmarks| == 3;
    assert |SuarezMarketArea().landmarks| == 3;
    assert |VillaVerdeJunction().landmarks| == 3;
    assert |MahayahayCenter().landmarks| == 3;
    assert |TubodProper().landmarks| == 3;
    assert |PoblacionCityCenter().landmarks| == 4;
    assert |MsuIitGate().landmarks| == 3;
    assert |PalaoChurch().landmarks| == 3;
    assert |SantiagoProper().landmarks| == 3;
    assert |TibangaTerminal().landmarks| == 3;
  }

  // ---------------------------------------------------------------------------
  // Page state

  /** The page's two state cells. */
  datatype PageState = PageState(searchQuery: string, selectedStop: Option<Stop>)

  const InitialState: PageState := PageState("", None)

  function Shown(st: PageState): seq<Stop> {
    FilterStops(Stops(), st.searchQuery)
  }

  /** The "No stops found" message. */
  predicate NoResults(st: PageState) {
    Shown(st) == []
  }

  /** The detail dialog is open exactly while a stop is selected. */
  predicate DialogOpen(st: PageState) {
    st.selectedStop.Some?
  }

  /** Typing in the search bar; an open dialog stays open. */
  function Search(st: PageState, query: string): (next: PageState)
    ensures next.searchQuery == query && next.selectedStop == st.selectedStop
    ensures NoResults(next) <==> forall s :: s in Stops() ==> !MatchesQuery(query, s)
  {
    st.(searchQuery := query)
  }

  /** Clicking a shown card opens its dialog, with the map on that stop. */
  function Select(st: PageState, stop: Stop): (next: PageState)
    requires stop in Shown(st)
    ensures next.selectedStop == Some(stop) && next.searchQuery == st.searchQuery
    ensures DialogOpen(next) && stop in Stops()
    ensures DetailMap(next.selectedStop.value).center == Some(stop.position)
  {
    st.(selectedStop := Some(stop))
  }

  /** Closing the dialog. */
  function CloseDialog(st: PageState): (next: PageState)
    ensures next.selectedStop == None && next.searchQuery == st.searchQuery
    ensures !DialogOpen(next)
  {
    st.(selectedStop := None)
  }

  /** "View Route" in the dialog: the dialog closes and "routes" goes to the
      navigation. */
  function ViewRoute(st: PageState): (r: (PageState, string))
    ensures !DialogOpen(r.0) && r.0.searchQuery == st.searchQuery
    ensures r.1 == "routes"
  {
    (st.(selectedStop := None), "routes")
  }
}
