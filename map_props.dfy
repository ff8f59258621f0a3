/** The properties the pages hand to the interactive map: a centre, a zoom level,
    polylines and markers. Positions are latitude/longitude pairs; a position read
    past the end of a list (`undefined` in the page) is `None`. */
module MapProps {
  import opened Common

  datatype Coord = Coord(lat: real, lon: real)

  datatype Polyline = Polyline(name: string, color: string, coordinates: seq<Coord>)

  datatype MarkerKind = TerminalMarker | StopMarker

  datatype Marker = Marker(position: Option<Coord>, title: string, kind: MarkerKind)

  datatype MapView = MapView(center: Option<Coord>, zoom: nat, polylines: seq<Polyline>, markers: seq<Marker>)

  /** `xs[i]`: the element, or `None` (JavaScript's `undefined`) outside the list. */
  function At<T>(xs: seq<T>, i: int): (r: Option<T>)
    ensures r.Some? <==> 0 <= i < |xs|
    ensures r.Some? ==> r.value == xs[i]
  {
    if 0 <= i < |xs| then Some(xs[i]) else None
  }
}
