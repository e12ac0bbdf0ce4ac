/** The map composables of ui/component/Map.kt: a route drawn as coloured line segments. */
module UiComponent {
  import opened Common
  import opened Model

  /** The Compose colours the app draws with. */
  datatype Color = Green | Yellow | Red | Black

  /** Traffic-light order of the fuel colours, greenest first. */
  function Severity(c: Color): nat
  {
    match c
    case Green => 0
    case Yellow => 1
    case Red => 2
    case Black => 3
  }

  /**
   * The colour band of a fuel consumption value: at most 6 is green, up to 12 yellow,
   * up to 20 red, above that black. Every value falls in exactly one band.
   */
  function FuelColor(fuelCons: real): (c: Color)
    ensures c == Green <==> fuelCons <= 6.0
    ensures c == Yellow <==> 6.0 < fuelCons <= 12.0
    ensures c == Red <==> 12.0 < fuelCons <= 20.0
    ensures c == Black <==> 20.0 < fuelCons
  {
    if fuelCons <= 6.0 then Green
    else if fuelCons > 6.0 && fuelCons <= 12.0 then Yellow
    else if fuelCons > 12.0 && fuelCons <= 20.0 then Red
    else Black
  }

  /** A higher consumption never gets a greener colour. */
  lemma FuelColorMonotone(x: real, y: real)
    requires x <= y
    ensures Severity(FuelColor(x)) <= Severity(FuelColor(y))
  {
  }

  /** One drawn polyline of two points (the line width, 10, is fixed and not modelled). */
  datatype Segment = Segment(from: LatLng, to: LatLng, color: Color)

  /** The end point built for a node: new LatLng(latitude, longitude), so normalised. */
  function Position(node: PolylineNode): (p: LatLng)
    ensures IsNormalised(p)
  {
    NewLatLng(node.latitude, node.longitude)
  }

  /** The segment from node i to node i + 1, coloured by node i's fuel consumption. */
  function SegmentAt(nodes: seq<PolylineNode>, i: nat): Segment
    requires i + 1 < |nodes|
  {
    Segment(Position(nodes[i]), Position(nodes[i + 1]), FuelColor(nodes[i].fuelCons))
  }

  /**
   * DrawPolyLine: one segment per pair of neighbouring nodes. The composable also logs
   * node 0, so it must not be given an empty list.
   */
  function DrawPolyLine(latLngList: seq<PolylineNode>): (segments: seq<Segment>)
    requires |latLngList| > 0
    ensures |segments| == |latLngList| - 1
    ensures forall i :: 0 <= i < |segments| ==> segments[i] == SegmentAt(latLngList, i)
    decreases |latLngList|
  {
    if |latLngList| == 1 then []
    else [SegmentAt(latLngList, 0)] + DrawPolyLine(latLngList[1..])
  }

  /** ShowMap: draws the route only when there is one, so DrawPolyLine never sees an empty list. */
  function ShowMap(latLngList: seq<PolylineNode>): (segments: seq<Segment>)
    ensures |segments| == if |latLngList| < 2 then 0 else |latLngList| - 1
    ensures forall i :: 0 <= i < |segments| ==> segments[i] == SegmentAt(latLngList, i)
  {
    if |latLngList| > 0 then DrawPolyLine(latLngList) else []
  }

  /** Drawing a longer route keeps every segment of the shorter one, in place. */
  lemma {:induction false} DrawPolyLineExtends(latLngList: seq<PolylineNode>, node: PolylineNode)
    requires |latLngList| > 0
    ensures DrawPolyLine(latLngList + [node])
         == DrawPolyLine(latLngList) + [Segment(Position(latLngList[|latLngList| - 1]), Position(node),
                                               FuelColor(latLngList[|latLngList| - 1].fuelCons))]
  {
    var longer := latLngList + [node];
    var r := DrawPolyLine(longer);
    var s := DrawPolyLine(latLngList) + [SegmentAt(longer, |latLngList| - 1)];
    assert |r| == |s|;
    forall i | 0 <= i < |r|
      ensures r[i] == s[i]
    {
      if i < |latLngList| - 1 {
        assert longer[i] == latLngList[i] && longer[i + 1] == latLngList[i + 1];
      }
    }
  }
}
