/** Types shared by the app's modules. */
module Common {

  datatype Option<T> = None | Some(value: T)

  /**
   * A map position (com.google.android.gms.maps.model.LatLng) as stored. The app only
   * builds one through the LatLng constructor, modelled by NewLatLng, which normalises it.
   */
  datatype LatLng = LatLng(latitude: real, longitude: real)

  /** A stored position always has its latitude in [-90, 90] and its longitude in [-180, 180). */
  predicate IsNormalised(p: LatLng)
  {
    -90.0 <= p.latitude <= 90.0 && -180.0 <= p.longitude < 180.0
  }

  /** Java's x % 360.0 on doubles: the remainder of a division truncated toward zero. */
  function RemTurn(x: real): (r: real)
    ensures -360.0 < r < 360.0
    ensures x >= 0.0 ==> r >= 0.0
    ensures x <= 0.0 ==> r <= 0.0
    ensures ((x - r) / 360.0).Floor as real == (x - r) / 360.0
  {
    var q := (if x >= 0.0 then x else -x) / 360.0;
    var turns := q.Floor;
    assert turns as real <= q < turns as real + 1.0;
    assert (turns as real).Floor == turns;
    if x >= 0.0 then
      assert (x - (x - 360.0 * turns as real)) / 360.0 == turns as real;
      x - 360.0 * turns as real
    else
      assert (x - (x + 360.0 * turns as real)) / 360.0 == (-turns) as real;
      assert ((-turns) as real).Floor == -turns;
      x + 360.0 * turns as real
  }

  /** The latitude pinned to [-90, 90] (Math.max(-90, Math.min(90, latitude))). */
  function ClampLatitude(latitude: real): (r: real)
    ensures -90.0 <= r <= 90.0
    ensures -90.0 <= latitude <= 90.0 ==> r == latitude
    ensures latitude > 90.0 ==> r == 90.0
    ensures latitude < -90.0 ==> r == -90.0
  {
    if latitude > 90.0 then 90.0 else if latitude < -90.0 then -90.0 else latitude
  }

  /**
   * The longitude wrapped into [-180, 180): unchanged when already inside, otherwise
   * ((longitude - 180) % 360 + 360) % 360 - 180 with Java's %. It moves the longitude by
   * a whole number of turns.
   */
  function WrapLongitude(longitude: real): (r: real)
    ensures -180.0 <= r < 180.0
    ensures -180.0 <= longitude < 180.0 ==> r == longitude
    ensures ((longitude - r) / 360.0).Floor as real == (longitude - r) / 360.0
  {
    if -180.0 <= longitude < 180.0 then longitude
    else
      var once := RemTurn(longitude - 180.0);
      var twice := RemTurn(once + 360.0);
      var a := ((longitude - 180.0 - once) / 360.0).Floor;
      var b := ((once + 360.0 - twice) / 360.0).Floor;
      assert longitude - (twice - 180.0) == 360.0 * (a + b) as real;
      assert ((a + b) as real).Floor == a + b;
      assert (longitude - (twice - 180.0)) / 360.0 == (a + b) as real;
      twice - 180.0
  }

  /** new LatLng(latitude, longitude): the position as the maps library stores it. */
  function NewLatLng(latitude: real, longitude: real): (p: LatLng)
    ensures IsNormalised(p)
    ensures p.latitude == ClampLatitude(latitude) && p.longitude == WrapLongitude(longitude)
  {
    LatLng(ClampLatitude(latitude), WrapLongitude(longitude))
  }

  /** A position already in range is stored exactly as given. */
  lemma NewLatLngKeepsNormalised(p: LatLng)
    requires IsNormalised(p)
    ensures NewLatLng(p.latitude, p.longitude) == p
  {
  }

  /** Longitudes a whole turn apart give the same position. */
  lemma WrapLongitudePeriodic(longitude: real)
    ensures WrapLongitude(longitude + 360.0) == WrapLongitude(longitude)
  {
    var a := WrapLongitude(longitude);
    var b := WrapLongitude(longitude + 360.0);
    var k := ((longitude - a) / 360.0).Floor;
    var j := ((longitude + 360.0 - b) / 360.0).Floor;
    assert longitude - a == 360.0 * k as real;
    assert longitude + 360.0 - b == 360.0 * j as real;
    assert a - b == 360.0 * (j - 1 - k) as real;
  }

  /**
   * A great-circle distance between (lat1, lon1) and (lat2, lon2). The app computes it with
   * the haversine formula; the model takes it as a given function.
   */
  type Distance = (real, real, real, real) -> real

  /** xs is ys with some elements left out, the rest kept in their order. */
  predicate IsSubsequence<T(==)>(xs: seq<T>, ys: seq<T>)
    decreases |ys|
  {
    if xs == [] then true
    else if ys == [] then false
    else if xs[0] == ys[0] then IsSubsequence(xs[1..], ys[1..])
    else IsSubsequence(xs, ys[1..])
  }
}
