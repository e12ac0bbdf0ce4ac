/**
 * The trip screen (activity/TripActivity.kt): the start/stop flag, live route tracking from
 * GPS fixes, the route polyline, the connection colour and the OBD device picker.
 */
module Activity {
  import opened Common
  import opened Model
  import opened UiComponent

  /** A fix is accepted only when it lies more than this far (metres) from the stored one. */
  const MoveThreshold: real := 1.0

  /** Where the screen starts before any fix arrives. */
  const InitialLatitude: real := 48.306940
  const InitialLongitude: real := 14.285830

  /** An entry of the route list: its colour, and the point paired with its fuel consumption. */
  datatype RouteEntry = RouteEntry(color: Color, point: LatLng, fuelCons: real)

  /** A paired Bluetooth device, as far as the picker looks at it. */
  datatype BluetoothDevice = BluetoothDevice(name: string)

  /**
   * Whether the new position has moved from the old one: the distance (in metres, new
   * position first) must be strictly greater than the threshold.
   */
  function IsLocationChanged(newLat: real, newLon: real, oldLat: real, oldLon: real,
                             threshold: real, haversine: Distance): (changed: bool)
    ensures changed <==> haversine(newLat, newLon, oldLat, oldLon) > threshold
    ensures haversine(newLat, newLon, oldLat, oldLon) == threshold ==> !changed
  {
    haversine(newLat, newLon, oldLat, oldLon) > threshold
  }

  /** The colour of the connection status text. */
  function ConnectionColor(connection: string): (c: Color)
    ensures c != Black
    ensures c == Green <==> connection == "Connected"
    ensures c == Yellow <==> connection == "Connecting ..."
    ensures c == Red <==> connection != "Connected" && connection != "Connecting ..."
  {
    if connection == "Connected" then Green
    else if connection == "Connecting ..." then Yellow
    else Red
  }

  /** Lower-casing of one character (letters A to Z only). */
  function LowerChar(c: char): char
  {
    if 'A' <= c <= 'Z' then (c as int + 32) as char else c
  }

  function Lowercase(s: string): (r: string)
    ensures |r| == |s|
    ensures forall i :: 0 <= i < |s| ==> r[i] == LowerChar(s[i])
  {
    if s == [] then [] else [LowerChar(s[0])] + Lowercase(s[1..])
  }

  /** Lower-casing twice is lower-casing once. */
  lemma LowercaseIdempotent(s: string)
    ensures Lowercase(Lowercase(s)) == Lowercase(s)
  {
    var once := Lowercase(s);
    assert forall i :: 0 <= i < |once| ==> LowerChar(once[i]) == once[i];
  }

  /**
   * Whether sub occurs somewhere in s (Kotlin's String.contains). The empty text occurs
   * in every string, and a text longer than the string never does.
   */
  predicate Contains(s: string, sub: string)
    ensures sub == [] ==> Contains(s, sub)
    ensures Contains(s, sub) ==> |sub| <= |s|
    decreases |s|
  {
    sub <= s || (s != [] && Contains(s[1..], sub))
  }

  /** When Contains holds, sub starts at some position of s. */
  lemma {:induction false} ContainsWitness(s: string, sub: string) returns (i: nat)
    requires Contains(s, sub)
    ensures i <= |s| && sub <= s[i..]
    decreases |s|
  {
    if sub <= s {
      i := 0;
    } else {
      var j := ContainsWitness(s[1..], sub);
      assert s[1..][j..] == s[j + 1..];
      i := j + 1;
    }
  }

  /** When sub starts at some position of s, Contains holds. */
  lemma {:induction false} ContainsFrom(s: string, sub: string, i: nat)
    requires i <= |s| && sub <= s[i..]
    ensures Contains(s, sub)
    decreases |s|
  {
    if i > 0 {
      assert s[1..][i - 1..] == s[i..];
      ContainsFrom(s[1..], sub, i - 1);
    }
  }

  /** The picker's test: the device name, lower-cased, contains "obd". */
  predicate IsObd(name: string)
  {
    Contains(Lowercase(name), "obd")
  }

  /** The test ignores case: a name and its lower-cased form are judged alike. */
  lemma IsObdIgnoresCase(name: string)
    ensures IsObd(name) <==> IsObd(Lowercase(name))
  {
    LowercaseIdempotent(name);
  }

  /** The devices the selection dialog lists: those whose name passes IsObd. */
  function ObdDevices(pairedDevices: seq<BluetoothDevice>): (shown: seq<BluetoothDevice>)
    ensures |shown| <= |pairedDevices|
    ensures forall d :: d in shown ==> d in pairedDevices && IsObd(d.name)
    ensures forall d :: d in pairedDevices && IsObd(d.name) ==> d in shown
  {
    if pairedDevices == [] then []
    else if IsObd(pairedDevices[0].name) then [pairedDevices[0]] + ObdDevices(pairedDevices[1..])
    else ObdDevices(pairedDevices[1..])
  }

  /** The dialog keeps the devices' original order. */
  lemma {:induction false} ObdDevicesKeepOrder(pairedDevices: seq<BluetoothDevice>)
    ensures IsSubsequence(ObdDevices(pairedDevices), pairedDevices)
    decreases |pairedDevices|
  {
    if pairedDevices != [] {
      ObdDevicesKeepOrder(pairedDevices[1..]);
      var rest := ObdDevices(pairedDevices[1..]);
      if IsObd(pairedDevices[0].name) {
        assert ([pairedDevices[0]] + rest)[1..] == rest;
      } else if rest != [] {
        assert rest[0] in rest;
        assert rest[0] != pairedDevices[0];
      }
    }
  }

  /** Filtering a list made of two parts filters each part. */
  lemma {:induction false} ObdDevicesAppend(a: seq<BluetoothDevice>, b: seq<BluetoothDevice>)
    ensures ObdDevices(a + b) == ObdDevices(a) + ObdDevices(b)
    decreases |a|
  {
    if a != [] {
      assert (a + b)[1..] == a[1..] + b;
      ObdDevicesAppend(a[1..], b);
    } else {
      assert a + b == b;
    }
  }

  /** The segments DrawPolyline emits for the route list: entry i to entry i + 1, in entry i's colour. */
  function RouteSegments(entries: seq<RouteEntry>): (segments: seq<Segment>)
    ensures |segments| == if |entries| < 2 then 0 else |entries| - 1
    ensures forall i :: 0 <= i < |segments| ==>
              segments[i] == Segment(entries[i].point, entries[i + 1].point, entries[i].color)
    decreases |entries|
  {
    if |entries| < 2 then []
    else [Segment(entries[0].point, entries[1].point, entries[0].color)] + RouteSegments(entries[1..])
  }

  /** Every entry's colour is its fuel consumption's band. */
  predicate ColoursByFuel(entries: seq<RouteEntry>)
  {
    forall i :: 0 <= i < |entries| ==> entries[i].color == FuelColor(entries[i].fuelCons)
  }

  /**
   * The trip screen's route, when its colours are the fuel bands, draws the same picture
   * as the map component's DrawPolyLine over nodes at the same places with the same
   * consumptions (whatever colour values those nodes carry).
   */
  lemma RouteSegmentsMatchMapComponent(entries: seq<RouteEntry>, nodes: seq<PolylineNode>)
    requires |entries| == |nodes| > 0
    requires ColoursByFuel(entries)
    requires forall i :: 0 <= i < |nodes| ==>
               Position(nodes[i]) == entries[i].point && nodes[i].fuelCons == entries[i].fuelCons
    ensures RouteSegments(entries) == DrawPolyLine(nodes)
  {
  }

  class TripActivity {
    var longitude: real
    var latitude: real
    var latLngHasChanged: bool
    var tripActive: bool
    var latLngList: seq<RouteEntry>

    /**
     * The route's colours are always the fuel bands of its entries, and its points are
     * positions as the maps library stores them.
     */
    ghost predicate Valid()
      reads this
    {
      && ColoursByFuel(latLngList)
      && forall i :: 0 <= i < |latLngList| ==> IsNormalised(latLngList[i].point)
    }

    constructor ()
      ensures Valid()
      ensures latitude == InitialLatitude && longitude == InitialLongitude
      ensures !latLngHasChanged && !tripActive && latLngList == []
    {
      longitude := InitialLongitude;
      latitude := InitialLatitude;
      latLngHasChanged := false;
      tripActive := false;
      latLngList := [];
    }

    /** The start button: a trip is active afterwards, whatever it was before. */
    method OnStartBtnClick()
      modifies this`tripActive
      ensures tripActive
    {
      tripActive := true;
    }

    /** The stop button: no trip is active afterwards, whatever it was before. */
    method OnStopBtnClick()
      modifies this`tripActive
      ensures !tripActive
    {
      tripActive := false;
    }

    /**
     * Appends the point with its fuel consumption (a random draw in the app, an input here)
     * and the consumption's colour, and marks the route as changed.
     */
    method AddItemToList(newItem: LatLng, fuelCons: real)
      requires Valid() && IsNormalised(newItem)
      modifies this`latLngList, this`latLngHasChanged
      ensures Valid()
      ensures |latLngList| == |old(latLngList)| + 1
      ensures latLngList[..|old(latLngList)|] == old(latLngList)
      ensures latLngList[|latLngList| - 1] == RouteEntry(FuelColor(fuelCons), newItem, fuelCons)
      ensures latLngHasChanged
    {
      var color := FuelColor(fuelCons);
      latLngList := latLngList + [RouteEntry(color, newItem, fuelCons)];
      latLngHasChanged := true;
    }

    /**
     * A new GPS fix: when it is more than MoveThreshold metres from the stored position,
     * it becomes the stored position (as given) and is appended to the route as a LatLng
     * (so clamped and wrapped); otherwise nothing changes.
     */
    method OnLocationChanged(lat: real, lon: real, fuelCons: real, haversine: Distance)
      requires Valid()
      modifies this`latitude, this`longitude, this`latLngList, this`latLngHasChanged
      ensures Valid()
      ensures haversine(lat, lon, old(latitude), old(longitude)) <= MoveThreshold ==>
                latitude == old(latitude) && longitude == old(longitude) &&
                latLngList == old(latLngList) && latLngHasChanged == old(latLngHasChanged)
      ensures haversine(lat, lon, old(latitude), old(longitude)) > MoveThreshold ==>
                latitude == lat && longitude == lon && latLngHasChanged &&
                latLngList == old(latLngList) + [RouteEntry(FuelColor(fuelCons), NewLatLng(lat, lon), fuelCons)]
    {
      if IsLocationChanged(lat, lon, latitude, longitude, MoveThreshold, haversine) {
        latitude := lat;
        longitude := lon;
        AddItemToList(NewLatLng(latitude, longitude), fuelCons);
      }
    }

    /**
     * Draws the route unless it has just changed, and clears the changed flag either way.
     */
    method DrawPolyline() returns (segments: seq<Segment>)
      modifies this`latLngHasChanged
      ensures !latLngHasChanged
      ensures old(latLngHasChanged) ==> segments == []
      ensures !old(latLngHasChanged) ==> segments == RouteSegments(latLngList)
    {
      segments := [];
      if !latLngHasChanged {
        var i := 0;
        while i < |latLngList| - 1
          invariant 0 <= i <= |RouteSegments(latLngList)|
          invariant segments == RouteSegments(latLngList)[..i]
        {
          segments := segments + [Segment(latLngList[i].point, latLngList[i + 1].point, latLngList[i].color)];
          i := i + 1;
        }
      }
      latLngHasChanged := false;
    }
  }
}
