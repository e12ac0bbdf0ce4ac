/** The route buffer behind the map view (model/Map.java). */
module Model {

  /** A route point: an ARGB colour value, the position and the fuel consumption there. */
  datatype PolylineNode = PolylineNode(color: int, latitude: real, longitude: real, fuelCons: real)

  class Map {
    var showMap: bool
    var latLngList: seq<PolylineNode>

    /** A new map is hidden and holds no route. */
    constructor ()
      ensures !showMap && latLngList == []
    {
      showMap := false;
      latLngList := [];
    }

    /**
     * Appends one node. The arguments come as (latitude, longitude, fuelCons, color), while
     * the node stores them as (color, latitude, longitude, fuelCons).
     */
    method Add(latitude: real, longitude: real, fuelCons: real, color: int)
      modifies this`latLngList
      ensures |latLngList| == |old(latLngList)| + 1
      ensures latLngList[..|old(latLngList)|] == old(latLngList)
      ensures latLngList[|latLngList| - 1] == PolylineNode(color, latitude, longitude, fuelCons)
    {
      latLngList := latLngList + [PolylineNode(color, latitude, longitude, fuelCons)];
    }
  }
}
