/**
 * The local SQLite store of db/DBHelper.kt: a table of car-data points and a table of
 * trips, the trip aggregates computed from the points, and the sync that ships the
 * local rows to the backend and then clears them.
 */
module Db {
  import opened Common

  type Uuid = nat
  /** java.sql.Timestamp and java.util.Date, as milliseconds since the epoch. */
  type Timestamp = int
  type Date = int

  /** One OBD/GPS sample (model/CarData). */
  datatype CarData = CarData(id: int, tripId: Uuid, longitude: real, latitude: real,
                             currentEngineRPM: real, currentVelocity: real, throttlePosition: real,
                             engineRunTime: string, timeStamp: Timestamp)

  /** A trip and its aggregates (model/Trip). */
  datatype Trip = Trip(id: Uuid, distance: real, avgSpeed: real, avgEngineRotation: real,
                       date: Date, rewardedEcoPoints: real)

  /**
   * A row of ECO_CARDATA. The row id is assigned by SQLite and never read back, so it is
   * not kept; trip_id is None where the column is NULL.
   */
  datatype CarDataRow = CarDataRow(tripId: Option<Uuid>, longitude: real, latitude: real,
                                   currentEngineRPM: real, currentVelocity: real, throttlePosition: real,
                                   engineRunTime: string, timeStamp: Timestamp)

  /** A row of ECO_TRIP; id is None where the column is NULL. */
  datatype TripRow = TripRow(id: Option<Uuid>, distance: real, avgSpeed: real, avgEngineRotation: real,
                             date: Date, rewardedEcoPoints: real)

  /** A call to the backend: TripService.createTrip or CarDataService.createCarData. */
  datatype Request = PostTrip(trip: Trip) | PostCarData(carData: CarData)

  /** The row addCarData inserts: every column but the row id and trip_id, which stays NULL. */
  function CarDataRowOf(carData: CarData): (row: CarDataRow)
    ensures row.tripId == None
    ensures && row.longitude == carData.longitude && row.latitude == carData.latitude
            && row.currentEngineRPM == carData.currentEngineRPM && row.currentVelocity == carData.currentVelocity
            && row.throttlePosition == carData.throttlePosition && row.engineRunTime == carData.engineRunTime
            && row.timeStamp == carData.timeStamp
  {
    CarDataRow(None, carData.longitude, carData.latitude, carData.currentEngineRPM,
               carData.currentVelocity, carData.throttlePosition, carData.engineRunTime, carData.timeStamp)
  }

  /** The row addTrip inserts: every column but id, which stays NULL. */
  function TripRowOf(trip: Trip): (row: TripRow)
    ensures row.id == None
    ensures && row.distance == trip.distance && row.avgSpeed == trip.avgSpeed
            && row.avgEngineRotation == trip.avgEngineRotation && row.date == trip.date
            && row.rewardedEcoPoints == trip.rewardedEcoPoints
  {
    TripRow(None, trip.distance, trip.avgSpeed, trip.avgEngineRotation, trip.date, trip.rewardedEcoPoints)
  }

  /**
   * getCarDataFromCursor: id 0, the stored trip id, or the random id drawn when the
   * column is NULL, and the stored measurements.
   */
  function ReadCarData(row: CarDataRow, randomId: Uuid): (carData: CarData)
    ensures carData.id == 0
    ensures carData.tripId == if row.tripId.Some? then row.tripId.value else randomId
    ensures CarDataRowOf(carData).(tripId := row.tripId) == row
  {
    CarData(0, if row.tripId.Some? then row.tripId.value else randomId,
            row.longitude, row.latitude, row.currentEngineRPM, row.currentVelocity,
            row.throttlePosition, row.engineRunTime, row.timeStamp)
  }

  /** getTripFromCursor: a random id (the stored one is ignored) and the stored columns. */
  function ReadTrip(row: TripRow, randomId: Uuid): (trip: Trip)
    ensures trip.id == randomId
    ensures TripRowOf(trip).(id := row.id) == row
  {
    Trip(randomId, row.distance, row.avgSpeed, row.avgEngineRotation, row.date, row.rewardedEcoPoints)
  }

  /** Two samples are stored as the same row exactly when they differ at most in id and trip id. */
  lemma CarDataRowOfLosesOnlyIds(a: CarData, b: CarData)
    ensures CarDataRowOf(a) == CarDataRowOf(b) <==> a.(id := 0, tripId := 0) == b.(id := 0, tripId := 0)
  {
  }

  /** Two trips are stored as the same row exactly when they differ at most in id. */
  lemma TripRowOfLosesOnlyId(a: Trip, b: Trip)
    ensures TripRowOf(a) == TripRowOf(b) <==> a.(id := 0) == b.(id := 0)
  {
  }

  /** Storing a sample and reading it back loses only its id (now 0) and its trip id. */
  lemma CarDataRoundTrip(carData: CarData, randomId: Uuid)
    ensures ReadCarData(CarDataRowOf(carData), randomId) == carData.(id := 0, tripId := randomId)
  {
  }

  /** Storing a trip and reading it back loses only its id. */
  lemma TripRoundTrip(trip: Trip, randomId: Uuid)
    ensures ReadTrip(TripRowOf(trip), randomId) == trip.(id := randomId)
  {
  }

  /** createCarData: a copy of the sample for upload, with id 0 and the given trip id. */
  function CreateCarData(carData: CarData, tripId: Uuid): (toSave: CarData)
    ensures toSave.id == 0 && toSave.tripId == tripId
    ensures toSave.(id := carData.id, tripId := carData.tripId) == carData
  {
    CarData(0, tripId, carData.longitude, carData.latitude, carData.currentEngineRPM,
            carData.currentVelocity, carData.throttlePosition, carData.engineRunTime, carData.timeStamp)
  }

  /** What the sync uploads for a stored row once the new trip's id is known. */
  function UploadOf(row: CarDataRow, tripId: Uuid): CarData
  {
    CarData(0, tripId, row.longitude, row.latitude, row.currentEngineRPM, row.currentVelocity,
            row.throttlePosition, row.engineRunTime, row.timeStamp)
  }

  /** Whatever trip id a row was read back with, its upload is the same. */
  lemma UploadIgnoresReadId(row: CarDataRow, randomId: Uuid, tripId: Uuid)
    ensures CreateCarData(ReadCarData(row, randomId), tripId) == UploadOf(row, tripId)
  {
  }

  function Sum(xs: seq<real>): real
    decreases |xs|
  {
    if xs == [] then 0.0 else Sum(xs[..|xs| - 1]) + xs[|xs| - 1]
  }

  /** The arithmetic mean (Kotlin's average()). */
  function Mean(xs: seq<real>): real
    requires |xs| > 0
  {
    Sum(xs) / (|xs| as real)
  }

  /** A sum of values within [lo, hi] lies within [n * lo, n * hi]. */
  lemma {:induction false} SumBounds(xs: seq<real>, lo: real, hi: real)
    requires forall i :: 0 <= i < |xs| ==> lo <= xs[i] <= hi
    ensures (|xs| as real) * lo <= Sum(xs) <= (|xs| as real) * hi
    decreases |xs|
  {
    if xs != [] {
      SumBounds(xs[..|xs| - 1], lo, hi);
    }
  }

  /** The mean lies between any lower and upper bound of the values. */
  lemma MeanBounds(xs: seq<real>, lo: real, hi: real)
    requires |xs| > 0
    requires forall i :: 0 <= i < |xs| ==> lo <= xs[i] <= hi
    ensures lo <= Mean(xs) <= hi
  {
    SumBounds(xs, lo, hi);
    var n := |xs| as real;
    assert n * lo <= Sum(xs) <= n * hi;
    assert Mean(xs) * n == Sum(xs);
  }

  function Rpms(points: seq<CarData>): (rpms: seq<real>)
    ensures |rpms| == |points|
    ensures forall i :: 0 <= i < |points| ==> rpms[i] == points[i].currentEngineRPM
  {
    seq(|points|, i requires 0 <= i < |points| => points[i].currentEngineRPM)
  }

  function Velocities(points: seq<CarData>): (velocities: seq<real>)
    ensures |velocities| == |points|
    ensures forall i :: 0 <= i < |points| ==> velocities[i] == points[i].currentVelocity
  {
    seq(|points|, i requires 0 <= i < |points| => points[i].currentVelocity)
  }

  /** The distance between two consecutive samples, in kilometres. */
  function Leg(p: CarData, q: CarData, calculateDistance: Distance): real
  {
    calculateDistance(p.latitude, p.longitude, q.latitude, q.longitude)
  }

  /** The length of the path through the samples: the sum of Leg over pairs (i, i + 1). */
  function PathLength(points: seq<CarData>, calculateDistance: Distance): real
    decreases |points|
  {
    if |points| < 2 then 0.0
    else PathLength(points[..|points| - 1], calculateDistance)
         + Leg(points[|points| - 2], points[|points| - 1], calculateDistance)
  }

  /** The same length counted from the front: the first leg plus the path after it. */
  lemma {:induction false} PathLengthFromFront(points: seq<CarData>, calculateDistance: Distance)
    requires |points| >= 2
    ensures PathLength(points, calculateDistance)
         == Leg(points[0], points[1], calculateDistance) + PathLength(points[1..], calculateDistance)
    decreases |points|
  {
    if |points| > 2 {
      var front := points[..|points| - 1];
      PathLengthFromFront(front, calculateDistance);
      assert front[1..] == points[1..][..|points[1..]| - 1];
    }
  }

  /** With a distance that is never negative, no path is negative. */
  lemma {:induction false} PathLengthNonNegative(points: seq<CarData>, calculateDistance: Distance)
    requires forall lat1, lon1, lat2, lon2 :: calculateDistance(lat1, lon1, lat2, lon2) >= 0.0
    ensures PathLength(points, calculateDistance) >= 0.0
    decreases |points|
  {
    if |points| >= 2 {
      PathLengthNonNegative(points[..|points| - 1], calculateDistance);
      assert Leg(points[|points| - 2], points[|points| - 1], calculateDistance) >= 0.0;
    }
  }

  /** The samples of one trip, read back, in table order (the query behind getAllCarDataForTrip). */
  function CarDataForTrip(rows: seq<CarDataRow>, tripId: Uuid): (points: seq<CarData>)
    ensures |points| <= |rows|
    ensures forall c :: c in points ==> c.tripId == tripId && c.id == 0
    ensures forall i :: 0 <= i < |rows| && rows[i].tripId == Some(tripId) ==> ReadCarData(rows[i], tripId) in points
    ensures forall c :: c in points ==>
              exists i :: 0 <= i < |rows| && rows[i].tripId == Some(tripId) && c == ReadCarData(rows[i], tripId)
    decreases |rows|
  {
    if rows == [] then []
    else
      var last := rows[|rows| - 1];
      CarDataForTrip(rows[..|rows| - 1], tripId) + (if last.tripId == Some(tripId) then [ReadCarData(last, tripId)] else [])
  }

  /** The samples of two runs of rows are those of the first run followed by those of the second. */
  lemma {:induction false} CarDataForTripAppend(a: seq<CarDataRow>, b: seq<CarDataRow>, tripId: Uuid)
    ensures CarDataForTrip(a + b, tripId) == CarDataForTrip(a, tripId) + CarDataForTrip(b, tripId)
    decreases |b|
  {
    if b == [] {
      assert a + b == a;
    } else {
      assert (a + b)[..|a + b| - 1] == a + b[..|b| - 1];
      CarDataForTripAppend(a, b[..|b| - 1], tripId);
    }
  }

  /** Rows inserted by addCarData carry no trip id, so no trip ever finds any of them. */
  lemma {:induction false} CarDataForTripOfUnlinkedRows(rows: seq<CarDataRow>, tripId: Uuid)
    requires forall i :: 0 <= i < |rows| ==> rows[i].tripId == None
    ensures CarDataForTrip(rows, tripId) == []
    decreases |rows|
  {
    if rows != [] {
      CarDataForTripOfUnlinkedRows(rows[..|rows| - 1], tripId);
    }
  }

  /** A trip row with the aggregates updateTripValues writes. */
  function WithAggregates(row: TripRow, points: seq<CarData>, calculateDistance: Distance): TripRow
    requires |points| > 0
  {
    row.(avgSpeed := Mean(Velocities(points)), avgEngineRotation := Mean(Rpms(points)),
         distance := PathLength(points, calculateDistance))
  }

  /** The backend: an append-only log of the requests sent to it. */
  class Outbox {
    var log: seq<Request>

    constructor ()
      ensures log == []
    {
      log := [];
    }

    method Send(request: Request)
      modifies this
      ensures log == old(log) + [request]
    {
      log := log + [request];
    }
  }

  /** The requests the car-data sync sends for the rows, after the trip itself. */
  function CarDataUploads(rows: seq<CarDataRow>, tripId: Uuid): (uploads: seq<Request>)
    ensures |uploads| == |rows|
    ensures forall i :: 0 <= i < |rows| ==> uploads[i] == PostCarData(UploadOf(rows[i], tripId))
  {
    seq(|rows|, i requires 0 <= i < |rows| => PostCarData(UploadOf(rows[i], tripId)))
  }

  /** The trip the car-data sync creates for a non-empty table. */
  function SyncedTrip(rows: seq<CarDataRow>, tripId: Uuid, now: Date): Trip
    requires |rows| > 0
  {
    var uploads := seq(|rows|, i requires 0 <= i < |rows| => UploadOf(rows[i], tripId));
    Trip(tripId, 0.0, 0.0, Mean(Rpms(uploads)), now, 0.0)
  }

  /** The requests the trip sync sends: one PostTrip per row, in order, each trip read back from its row. */
  predicate TripUploads(sent: seq<Request>, rows: seq<TripRow>)
  {
    && |sent| == |rows|
    && forall i :: 0 <= i < |rows| ==> sent[i].PostTrip? && sent[i].trip == ReadTrip(rows[i], sent[i].trip.id)
  }

  class DBHelper {
    var carDataTable: seq<CarDataRow>
    var tripTable: seq<TripRow>

    /** onCreate on a new database: both tables exist and are empty. */
    constructor ()
      ensures carDataTable == [] && tripTable == []
    {
      carDataTable := [];
      tripTable := [];
    }

    /** Drops and recreates both tables. */
    method OnUpgrade()
      modifies this
      ensures carDataTable == [] && tripTable == []
    {
      carDataTable := [];
      tripTable := [];
    }

    method AddCarData(carData: CarData)
      modifies this`carDataTable
      ensures carDataTable == old(carDataTable) + [CarDataRowOf(carData)]
      ensures tripTable == old(tripTable)
    {
      carDataTable := carDataTable + [CarDataRowOf(carData)];
    }

    method AddTrip(trip: Trip)
      modifies this`tripTable
      ensures tripTable == old(tripTable) + [TripRowOf(trip)]
      ensures carDataTable == old(carDataTable)
    {
      tripTable := tripTable + [TripRowOf(trip)];
    }

    /**
     * Every car-data row, read back in table order. Each NULL trip id is replaced by a
     * random id, which the model leaves arbitrary.
     */
    method GetAllCarData() returns (carDataList: seq<CarData>)
      ensures |carDataList| == |carDataTable|
      ensures forall i :: 0 <= i < |carDataList| ==>
                carDataList[i] == ReadCarData(carDataTable[i], carDataList[i].tripId)
    {
      carDataList := [];
      var i := 0;
      while i < |carDataTable|
        invariant 0 <= i <= |carDataTable|
        invariant |carDataList| == i
        invariant forall k :: 0 <= k < i ==> carDataList[k] == ReadCarData(carDataTable[k], carDataList[k].tripId)
      {
        var randomId: Uuid :| true;
        carDataList := carDataList + [ReadCarData(carDataTable[i], randomId)];
        i := i + 1;
      }
    }

    /** Every trip row, read back in table order, each with a fresh random id. */
    method GetAllTrips() returns (tripList: seq<Trip>)
      ensures |tripList| == |tripTable|
      ensures forall i :: 0 <= i < |tripList| ==> tripList[i] == ReadTrip(tripTable[i], tripList[i].id)
    {
      tripList := [];
      var i := 0;
      while i < |tripTable|
        invariant 0 <= i <= |tripTable|
        invariant |tripList| == i
        invariant forall k :: 0 <= k < i ==> tripList[k] == ReadTrip(tripTable[k], tripList[k].id)
      {
        var randomId: Uuid :| true;
        tripList := tripList + [ReadTrip(tripTable[i], randomId)];
        i := i + 1;
      }
    }

    /** The rows whose trip_id is the given id, read back in table order. */
    method GetAllCarDataForTrip(tripId: Uuid) returns (carDataList: seq<CarData>)
      ensures carDataList == CarDataForTrip(carDataTable, tripId)
    {
      carDataList := [];
      var i := 0;
      while i < |carDataTable|
        invariant 0 <= i <= |carDataTable|
        invariant carDataList == CarDataForTrip(carDataTable[..i], tripId)
      {
        assert carDataTable[..i + 1][..i] == carDataTable[..i];
        if carDataTable[i].tripId == Some(tripId) {
          carDataList := carDataList + [ReadCarData(carDataTable[i], tripId)];
        }
        i := i + 1;
      }
      assert carDataTable[..i] == carDataTable;
    }

    /**
     * calculateTotalDistance: the distance summed over consecutive pairs of samples; 0 for
     * fewer than two samples.
     */
    static method CalculateTotalDistance(carDataList: seq<CarData>, calculateDistance: Distance)
      returns (totalDistance: real)
      ensures totalDistance == PathLength(carDataList, calculateDistance)
      ensures |carDataList| < 2 ==> totalDistance == 0.0
    {
      totalDistance := 0.0;
      var i := 0;
      while i < |carDataList| - 1
        invariant 0 <= i && (|carDataList| > 0 ==> i <= |carDataList| - 1)
        invariant |carDataList| > 0 ==> totalDistance == PathLength(carDataList[..i + 1], calculateDistance)
        invariant |carDataList| == 0 ==> totalDistance == 0.0
      {
        var prefix := carDataList[..i + 2];
        assert prefix[..|prefix| - 1] == carDataList[..i + 1];
        totalDistance := totalDistance + Leg(carDataList[i], carDataList[i + 1], calculateDistance);
        i := i + 1;
      }
      if |carDataList| > 0 {
        assert carDataList[..i + 1] == carDataList;
      }
    }

    /**
     * createTrip: a trip with the given (random) id and date whose average engine rotation
     * is the mean RPM of the samples; distance, average speed and eco points are 0. The
     * sync only calls it with a non-empty list.
     */
    static method CreateTrip(carDataList: seq<CarData>, id: Uuid, now: Date) returns (trip: Trip)
      requires |carDataList| > 0
      ensures trip == Trip(id, 0.0, 0.0, Mean(Rpms(carDataList)), now, 0.0)
    {
      var avgEngineRotation := 0.0;
      var i := 0;
      while i < |carDataList|
        invariant 0 <= i <= |carDataList|
        invariant avgEngineRotation == Sum(Rpms(carDataList)[..i])
      {
        assert Rpms(carDataList)[..i + 1][..i] == Rpms(carDataList)[..i];
        avgEngineRotation := avgEngineRotation + carDataList[i].currentEngineRPM;
        i := i + 1;
      }
      assert Rpms(carDataList)[..i] == Rpms(carDataList);
      avgEngineRotation := avgEngineRotation / (|carDataList| as real);
      trip := Trip(id, 0.0, 0.0, avgEngineRotation, now, 0.0);
    }

    /**
     * updateTripValues: when the trip has samples, the rows of that trip get the mean
     * velocity, the mean RPM and the path length; with no samples nothing changes.
     */
    method UpdateTripValues(tripId: Uuid, calculateDistance: Distance)
      modifies this`tripTable
      ensures carDataTable == old(carDataTable)
      ensures CarDataForTrip(carDataTable, tripId) == [] ==> tripTable == old(tripTable)
      ensures |tripTable| == |old(tripTable)|
      ensures forall i :: 0 <= i < |tripTable| && old(tripTable)[i].id != Some(tripId) ==>
                tripTable[i] == old(tripTable)[i]
      ensures var points := CarDataForTrip(carDataTable, tripId);
              points != [] ==>
                forall i :: 0 <= i < |tripTable| && old(tripTable)[i].id == Some(tripId) ==>
                  tripTable[i] == WithAggregates(old(tripTable)[i], points, calculateDistance)
    {
      var carDataList := GetAllCarDataForTrip(tripId);
      if |carDataList| > 0 {
        var totalDistance := CalculateTotalDistance(carDataList, calculateDistance);
        var avgSpeed := Mean(Velocities(carDataList));
        var avgEngineRotation := Mean(Rpms(carDataList));
        var rows := tripTable;
        tripTable := seq(|rows|, i requires 0 <= i < |rows| =>
                       if rows[i].id == Some(tripId)
                       then rows[i].(avgSpeed := avgSpeed, avgEngineRotation := avgEngineRotation,
                                     distance := totalDistance)
                       else rows[i]);
      }
    }

    method DeleteAllCarData()
      modifies this`carDataTable
      ensures carDataTable == []
    {
      carDataTable := [];
    }

    method DeleteAllTrips()
      modifies this`tripTable
      ensures tripTable == []
    {
      tripTable := [];
    }

    /**
     * syncCarDataWithBackend: with no samples nothing happens. Otherwise it sends one new
     * trip (random id newTripId, date now), then every sample in table order tagged with
     * that trip's id, and clears the car-data table; the trip table is not touched.
     */
    method SyncCarDataWithBackend(backend: Outbox, newTripId: Uuid, now: Date)
      modifies this`carDataTable, backend
      ensures tripTable == old(tripTable)
      ensures old(carDataTable) == [] ==> carDataTable == [] && backend.log == old(backend.log)
      ensures old(carDataTable) != [] ==>
                && carDataTable == []
                && backend.log == old(backend.log) + [PostTrip(SyncedTrip(old(carDataTable), newTripId, now))]
                                  + CarDataUploads(old(carDataTable), newTripId)
    {
      var carDataList := GetAllCarData();
      if |carDataList| < 1 {
        return;
      }
      var trip := CreateTrip(carDataList, newTripId, now);
      ghost var rows := carDataTable;
      ghost var uploads := seq(|rows|, i requires 0 <= i < |rows| => UploadOf(rows[i], newTripId));
      assert forall i :: 0 <= i < |rows| ==> carDataList[i].currentEngineRPM == uploads[i].currentEngineRPM;
      assert Rpms(carDataList) == Rpms(uploads);
      var id := trip.id;
      backend.Send(PostTrip(trip));
      ghost var sentBefore := backend.log;
      for i := 0 to |carDataList|
        invariant carDataTable == old(carDataTable)
        invariant backend.log == sentBefore + CarDataUploads(carDataTable[..i], id)
      {
        UploadIgnoresReadId(carDataTable[i], carDataList[i].tripId, id);
        assert carDataTable[..i + 1] == carDataTable[..i] + [carDataTable[i]];
        backend.Send(PostCarData(CreateCarData(carDataList[i], id)));
      }
      assert carDataTable[..|carDataList|] == carDataTable;
      DeleteAllCarData();
    }

    /**
     * syncTripsWithBackend: with no trips nothing happens. Otherwise every trip is sent in
     * table order (with the random id it was read back with) and the trip table is cleared;
     * the car-data table is not touched.
     */
    method SyncTripsWithBackend(backend: Outbox)
      modifies this`tripTable, backend
      ensures carDataTable == old(carDataTable)
      ensures old(tripTable) == [] ==> tripTable == [] && backend.log == old(backend.log)
      ensures old(tripTable) != [] ==>
                && tripTable == []
                && |backend.log| >= |old(backend.log)|
                && backend.log[..|old(backend.log)|] == old(backend.log)
                && TripUploads(backend.log[|old(backend.log)|..], old(tripTable))
    {
      var tripList := GetAllTrips();
      if |tripList| < 1 {
        return;
      }
      ghost var sentBefore := backend.log;
      for i := 0 to |tripList|
        invariant tripTable == old(tripTable)
        invariant |backend.log| == |sentBefore| + i
        invariant backend.log[..|sentBefore|] == sentBefore
        invariant forall k :: 0 <= k < i ==> backend.log[|sentBefore| + k] == PostTrip(tripList[k])
      {
        backend.Send(PostTrip(tripList[i]));
      }
      ghost var sent := backend.log[|sentBefore|..];
      forall k | 0 <= k < |tripTable|
        ensures sent[k] == PostTrip(ReadTrip(tripTable[k], tripList[k].id))
      {
        assert sent[k] == backend.log[|sentBefore| + k] == PostTrip(tripList[k]);
      }
      DeleteAllTrips();
    }
  }
}
