# ecopoints: a verified model of the trip store, the route tracker and the coolant query

ecopoints is an Android app that records car trips (GPS fixes plus OBD2 readings), draws the route
coloured by fuel consumption, and syncs locally cached trips to a backend. This project models,
in Dafny, the sequential logic inside it:

- **`Db`** (`db/DBHelper.kt`): the local SQLite store as a class with two tables held as sequences
  of rows (`ECO_CARDATA`, `ECO_TRIP`). It covers inserting, reading back, clearing and dropping
  rows, and the trip aggregates (mean velocity, mean RPM, path length over consecutive samples).
  It also covers the two syncs, which ship every local row to the backend in table order and then
  empty the table. The backend is the class `Outbox`, an append-only log of requests.
- **`Activity`** (`activity/TripActivity.kt`): the trip screen as a class. Its parts are the
  start/stop flag, the GPS-fix filter (a fix is taken only when it is more than 1.0 m away), the
  coloured route list, the polyline drawn from it with its "changed" flag, the connection-status
  colour and the OBD device filter.
- **`UiComponent`** (`ui/component/Map.kt`): the fuel-consumption colour bands, and the route as
  n-1 segments for n nodes.
- **`Common`**: shared types, and `new LatLng(lat, lon)` of the maps library as `NewLatLng`,
  which clamps the latitude to [-90, 90] and wraps the longitude into [-180, 180).
- **`Model`** (`model/Map.java`): the route buffer class and its in-place `add`.
- **`CoolantTemperaturePlugin`** (`backend/CoolantTemperaturePlugin/CoolantTemperature.cs`): the
  query that checks the trip id, filters the fetched samples by an inclusive time window and
  projects each sample to a two-key record.

The model follows the code. Where the code does something other than its evident design, the
model does what the code does:

- `addCarData` never writes the `trip_id` column, and `addTrip` never writes the trip `id`. Both
  row types therefore carry an `Option` id that is `None` for every row the helper inserts.
- Reading a car-data row with a NULL `trip_id` yields a random trip id. Reading a trip row always
  yields a random id, even when the row has one. The read methods choose these ids
  nondeterministically.
- So `getAllCarDataForTrip` finds no row for any trip when the table was filled by `addCarData`
  (`Db.CarDataForTripOfUnlinkedRows`), and `updateTripValues` then changes nothing.
- The update in `updateTripValues` filters the trip table on `trip_id`, a column that table does
  not have. It is modelled as updating the trip rows whose id is the given trip id.
- The trip that `syncCarDataWithBackend` creates always has distance, average speed and eco
  points 0. Only the average engine rotation is computed.

## Model

| member | source | states |
|---|---|---|
| `Db.DBHelper.constructor` | ecopoints/app/src/main/java/at/htl/ecopoints/db/DBHelper.kt:23-26 | a new database has both tables, empty |
| `Db.DBHelper.OnUpgrade` | ecopoints/app/src/main/java/at/htl/ecopoints/db/DBHelper.kt:55-68 | dropping and recreating leaves both tables empty |
| `Db.DBHelper.AddCarData` | ecopoints/app/src/main/java/at/htl/ecopoints/db/DBHelper.kt:70-85 | appends exactly one row (the sample's columns, trip_id NULL) to the car-data table; the trip table is unchanged |
| `Db.DBHelper.AddTrip` | ecopoints/app/src/main/java/at/htl/ecopoints/db/DBHelper.kt:87-100 | appends exactly one row (id NULL) to the trip table; the car-data table is unchanged |
| `Db.CarDataRoundTrip` | ecopoints/app/src/main/java/at/htl/ecopoints/db/DBHelper.kt:283-298 | a stored sample read back equals the original except for id 0 and the (random) trip id |
| `Db.CarDataRowOf` | ecopoints/app/src/main/java/at/htl/ecopoints/db/DBHelper.kt:71-79 | the row inserted for a sample has trip_id NULL and carries the sample's position, RPM, velocity, throttle, run time and timestamp |
| `Db.CarDataRowOfLosesOnlyIds` | ecopoints/app/src/main/java/at/htl/ecopoints/db/DBHelper.kt:71-79 | two samples give the same row exactly when they differ at most in id and trip id |
| `Db.TripRowOf` | ecopoints/app/src/main/java/at/htl/ecopoints/db/DBHelper.kt:88-94 | the row inserted for a trip has id NULL and carries its distance, averages, date and eco points |
| `Db.TripRowOfLosesOnlyId` | ecopoints/app/src/main/java/at/htl/ecopoints/db/DBHelper.kt:88-94 | two trips give the same row exactly when they differ at most in id |
| `Db.ReadCarData` | ecopoints/app/src/main/java/at/htl/ecopoints/db/DBHelper.kt:283-298 | a row read back has id 0, the stored trip id or else the drawn one, and storing it again gives back the row |
| `Db.ReadTrip` | ecopoints/app/src/main/java/at/htl/ecopoints/db/DBHelper.kt:302-311 | a trip read back has the drawn id whatever is stored, and storing it again gives back the row but for its id |
| `Db.TripRoundTrip` | ecopoints/app/src/main/java/at/htl/ecopoints/db/DBHelper.kt:302-311 | a stored trip read back equals the original except for its (random) id |
| `Db.DBHelper.GetAllCarData` | ecopoints/app/src/main/java/at/htl/ecopoints/db/DBHelper.kt:102-114 | one sample per row, in table order, each the read-back of its row (id 0, stored trip id if present) |
| `Db.DBHelper.GetAllTrips` | ecopoints/app/src/main/java/at/htl/ecopoints/db/DBHelper.kt:116-128 | one trip per row, in table order, each the read-back of its row with an arbitrary id |
| `Db.CarDataForTrip` | ecopoints/app/src/main/java/at/htl/ecopoints/db/DBHelper.kt:130-144 | exactly the rows whose trip_id is the trip: every sample found is the read-back (id 0, that trip id) of a row with that trip_id, and every such row is found |
| `Db.CarDataForTripAppend` | ecopoints/app/src/main/java/at/htl/ecopoints/db/DBHelper.kt:133-141 | the samples of two runs of rows are the first run's followed by the second's, so they come in table order |
| `Db.DBHelper.GetAllCarDataForTrip` | ecopoints/app/src/main/java/at/htl/ecopoints/db/DBHelper.kt:130-144 | the loop returns exactly the rows of that trip, read back in table order |
| `Db.CarDataForTripOfUnlinkedRows` | ecopoints/app/src/main/java/at/htl/ecopoints/db/DBHelper.kt:133 | over rows whose trip_id is NULL (all rows addCarData writes) no trip finds any sample |
| `Db.DBHelper.UpdateTripValues` | ecopoints/app/src/main/java/at/htl/ecopoints/db/DBHelper.kt:146-167 | no samples for the trip: nothing changes; otherwise exactly that trip's rows get avgSpeed = mean velocity, avgEngineRotation = mean RPM, distance = path length, and all else stays |
| `Db.DBHelper.CalculateTotalDistance` | ecopoints/app/src/main/java/at/htl/ecopoints/db/DBHelper.kt:169-185 | the accumulated total is the sum of the distance over pairs (i, i+1); 0 for fewer than two samples |
| `Db.PathLengthFromFront` | ecopoints/app/src/main/java/at/htl/ecopoints/db/DBHelper.kt:172-182 | the path length is also the first leg plus the length of the rest |
| `Db.PathLengthNonNegative` | ecopoints/app/src/main/java/at/htl/ecopoints/db/DBHelper.kt:187-200 | with a non-negative distance the total distance is never negative |
| `Db.SumBounds` | ecopoints/app/src/main/java/at/htl/ecopoints/db/DBHelper.kt:273-275 | a sum of n values within [lo, hi] lies within [n*lo, n*hi] |
| `Db.MeanBounds` | ecopoints/app/src/main/java/at/htl/ecopoints/db/DBHelper.kt:154-155 | the averages written to a trip lie between any lower and upper bound of the samples |
| `Db.DBHelper.DeleteAllCarData` | ecopoints/app/src/main/java/at/htl/ecopoints/db/DBHelper.kt:202-206 | empties the car-data table only |
| `Db.DBHelper.DeleteAllTrips` | ecopoints/app/src/main/java/at/htl/ecopoints/db/DBHelper.kt:208-212 | empties the trip table only |
| `Db.Outbox.constructor` | ecopoints/app/src/main/java/at/htl/ecopoints/db/DBHelper.kt:224-230 | the stand-in for the backend behind the TripService and CarDataService clients has received no request yet |
| `Db.Outbox.Send` | ecopoints/app/src/main/java/at/htl/ecopoints/db/DBHelper.kt:225 | a backend call appends exactly its request to the log |
| `Db.DBHelper.SyncCarDataWithBackend` | ecopoints/app/src/main/java/at/htl/ecopoints/db/DBHelper.kt:214-234 | empty table: nothing is sent and nothing changes; otherwise exactly one new trip, then one upload per row in table order tagged with that trip's id, then the car-data table is empty; the trip table is untouched |
| `Db.DBHelper.SyncTripsWithBackend` | ecopoints/app/src/main/java/at/htl/ecopoints/db/DBHelper.kt:236-250 | empty table: nothing is sent; otherwise one trip request per row in table order, then the trip table is empty; car data untouched |
| `Db.CreateCarData` | ecopoints/app/src/main/java/at/htl/ecopoints/db/DBHelper.kt:252-263 | the copy has id 0 and the given trip id, and every other field equals the original's |
| `Db.UploadIgnoresReadId` | ecopoints/app/src/main/java/at/htl/ecopoints/db/DBHelper.kt:227-231 | what is uploaded for a row does not depend on the random trip id it was read back with |
| `Db.DBHelper.CreateTrip` | ecopoints/app/src/main/java/at/htl/ecopoints/db/DBHelper.kt:265-280 | the loop yields distance, avgSpeed and eco points 0 and avgEngineRotation the mean RPM, for a non-empty list |
| `Activity.TripActivity.constructor` | ecopoints/app/src/main/java/at/htl/ecopoints/activity/TripActivity.kt:97-103 | starts at (48.306940, 14.285830), no trip active, empty unchanged route, colours consistent |
| `Activity.TripActivity.OnStartBtnClick` | ecopoints/app/src/main/java/at/htl/ecopoints/activity/TripActivity.kt:222-225 | afterwards a trip is active, whatever the state before; nothing else changes |
| `Activity.TripActivity.OnStopBtnClick` | ecopoints/app/src/main/java/at/htl/ecopoints/activity/TripActivity.kt:227-233 | afterwards no trip is active, whatever the state before; nothing else changes |
| `Activity.ConnectionColor` | ecopoints/app/src/main/java/at/htl/ecopoints/activity/TripActivity.kt:514-516 | green exactly for "Connected", yellow exactly for "Connecting ...", red for any other status, never black |
| `Activity.Lowercase` | ecopoints/app/src/main/java/at/htl/ecopoints/activity/TripActivity.kt:573 | same length, each character lower-cased |
| `Activity.LowercaseIdempotent` | ecopoints/app/src/main/java/at/htl/ecopoints/activity/TripActivity.kt:573 | lower-casing twice is lower-casing once |
| `Activity.Contains` | ecopoints/app/src/main/java/at/htl/ecopoints/activity/TripActivity.kt:573 | the empty text is in every name, and a text longer than the name is in none |
| `Activity.ContainsWitness` | ecopoints/app/src/main/java/at/htl/ecopoints/activity/TripActivity.kt:573 | when the name contains the text, the text starts at some position of the name |
| `Activity.ContainsFrom` | ecopoints/app/src/main/java/at/htl/ecopoints/activity/TripActivity.kt:573 | when the text starts at some position of the name, the name contains it |
| `Activity.IsObdIgnoresCase` | ecopoints/app/src/main/java/at/htl/ecopoints/activity/TripActivity.kt:573 | a name and its lower-cased form are judged alike |
| `Activity.ObdDevices` | ecopoints/app/src/main/java/at/htl/ecopoints/activity/TripActivity.kt:573 | the dialog lists exactly the paired devices whose lower-cased name contains "obd" |
| `Activity.ObdDevicesKeepOrder` | ecopoints/app/src/main/java/at/htl/ecopoints/activity/TripActivity.kt:572-574 | the listed devices keep their original order (a subsequence of the paired devices) |
| `Activity.ObdDevicesAppend` | ecopoints/app/src/main/java/at/htl/ecopoints/activity/TripActivity.kt:573 | filtering two lists one after the other is filtering their concatenation |
| `Activity.RouteSegments` | ecopoints/app/src/main/java/at/htl/ecopoints/activity/TripActivity.kt:639-645 | n-1 segments for n entries (none for fewer than two), segment i from entry i to entry i+1 in entry i's colour |
| `Activity.TripActivity.DrawPolyline` | ecopoints/app/src/main/java/at/htl/ecopoints/activity/TripActivity.kt:636-648 | draws the route segments only when the route has not just changed, and always clears the changed flag |
| `Activity.RouteSegmentsMatchMapComponent` | ecopoints/app/src/main/java/at/htl/ecopoints/activity/TripActivity.kt:641-642 | with colours kept as fuel bands, the screen's polyline equals the map component's polyline over the same points |
| `Activity.TripActivity.AddItemToList` | ecopoints/app/src/main/java/at/htl/ecopoints/activity/TripActivity.kt:679-691 | appends exactly one (colour band, point, fuelCons) entry at the end, keeps earlier entries, sets the changed flag, keeps colours consistent |
| `Activity.IsLocationChanged` | ecopoints/app/src/main/java/at/htl/ecopoints/activity/TripActivity.kt:710-715 | true exactly when the distance is strictly above the threshold; a move equal to the threshold is rejected |
| `Activity.TripActivity.OnLocationChanged` | ecopoints/app/src/main/java/at/htl/ecopoints/activity/TripActivity.kt:717-728 | a fix at most 1.0 away changes nothing; a farther fix becomes the stored position and the route grows by one entry ending at that point as a LatLng, latitude clamped and longitude wrapped |
| `Common.NewLatLng` | ecopoints/app/src/main/java/at/htl/ecopoints/activity/TripActivity.kt:726 | the LatLng built for a fix has latitude in [-90, 90] and longitude in [-180, 180): latitude clamped, longitude wrapped |
| `Common.ClampLatitude` | ecopoints/app/src/main/java/at/htl/ecopoints/activity/TripActivity.kt:726 | the latitude is pinned to [-90, 90], kept when inside and the nearer end when outside |
| `Common.WrapLongitude` | ecopoints/app/src/main/java/at/htl/ecopoints/activity/TripActivity.kt:726 | the longitude lands in [-180, 180), unchanged when already inside, and moves by a whole number of turns |
| `Common.RemTurn` | ecopoints/app/src/main/java/at/htl/ecopoints/activity/TripActivity.kt:726 | Java's remainder by 360: strictly between -360 and 360, with the sign of the dividend, leaving a whole number of turns |
| `Common.NewLatLngKeepsNormalised` | ecopoints/app/src/main/java/at/htl/ecopoints/activity/TripActivity.kt:726 | a position already in range is stored exactly as given |
| `Common.WrapLongitudePeriodic` | ecopoints/app/src/main/java/at/htl/ecopoints/activity/TripActivity.kt:726 | longitudes a whole turn apart give the same stored longitude |
| `UiComponent.FuelColor` | ecopoints/app/src/main/java/at/htl/ecopoints/ui/component/Map.kt:43-48 | green for at most 6, yellow for (6, 12], red for (12, 20], black above 20; exactly one colour per value |
| `UiComponent.FuelColorMonotone` | ecopoints/app/src/main/java/at/htl/ecopoints/activity/TripActivity.kt:681-686 | a higher consumption never gets a greener colour |
| `UiComponent.DrawPolyLine` | ecopoints/app/src/main/java/at/htl/ecopoints/ui/component/Map.kt:35-54 | needs a non-empty list (it reads node 0); n-1 segments for n nodes, segment i from node i to node i+1 coloured by node i's fuelCons |
| `UiComponent.DrawPolyLineExtends` | ecopoints/app/src/main/java/at/htl/ecopoints/ui/component/Map.kt:37-51 | appending a node keeps every earlier segment and adds one from the old last node to the new one |
| `UiComponent.Position` | ecopoints/app/src/main/java/at/htl/ecopoints/ui/component/Map.kt:40-41 | each segment end point is a LatLng built from the node, so in range |
| `UiComponent.ShowMap` | ecopoints/app/src/main/java/at/htl/ecopoints/ui/component/Map.kt:20-33 | any list, empty included, is drawn: no segments for fewer than two nodes, else segment i joins nodes i and i+1 |
| `Model.Map.constructor` | ecopoints/app/src/main/java/at/htl/ecopoints/model/Map.java:11-12 | a new map is hidden and has no nodes |
| `Model.Map.Add` | ecopoints/app/src/main/java/at/htl/ecopoints/model/Map.java:14-16 | the list grows by exactly one; earlier nodes and showMap stay; the last node has the given colour, latitude, longitude and fuelCons in constructor order |
| `CoolantTemperaturePlugin.FirstOrDefault` | backend/CoolantTemperaturePlugin/CoolantTemperature.cs:21 | the first id, or the empty GUID when there are no ids |
| `CoolantTemperaturePlugin.Where` | backend/CoolantTemperaturePlugin/CoolantTemperature.cs:32-33 | keeps exactly the fetched samples inside the window, never more than were fetched |
| `CoolantTemperaturePlugin.Project` | backend/CoolantTemperaturePlugin/CoolantTemperature.cs:34-38 | the record has exactly the keys timestamp and coolantTemperature, copied from the sample |
| `CoolantTemperaturePlugin.Select` | backend/CoolantTemperaturePlugin/CoolantTemperature.cs:34 | one record per sample, in order |
| `CoolantTemperaturePlugin.ExecuteQuery` | backend/CoolantTemperaturePlugin/CoolantTemperature.cs:19-41 | the error record is the answer exactly when there is no trip id; otherwise at most as many records as fetched, each with exactly the two keys |
| `CoolantTemperaturePlugin.NoTripIdNoFetch` | backend/CoolantTemperaturePlugin/CoolantTemperature.cs:21-25 | no ids or an empty first id: the single error record, whatever the database would return |
| `CoolantTemperaturePlugin.OnlyFirstIdUsed` | backend/CoolantTemperaturePlugin/CoolantTemperature.cs:21 | ids after the first never change the answer |
| `CoolantTemperaturePlugin.ResultWithinWindow` | backend/CoolantTemperaturePlugin/CoolantTemperature.cs:31-33 | every returned timestamp is at or after the start and at or before the end, when given |
| `CoolantTemperaturePlugin.WhereWithoutWindow` | backend/CoolantTemperaturePlugin/CoolantTemperature.cs:32-33 | with neither bound the filter keeps every sample |
| `CoolantTemperaturePlugin.ResultWithoutWindow` | backend/CoolantTemperaturePlugin/CoolantTemperature.cs:31-40 | with neither bound every fetched sample is returned, in order |
| `CoolantTemperaturePlugin.WhereKeepsOrder` | backend/CoolantTemperaturePlugin/CoolantTemperature.cs:31-33 | the kept samples are an order-preserving subsequence of the fetched ones |
| `CoolantTemperaturePlugin.WhereAppend` | backend/CoolantTemperaturePlugin/CoolantTemperature.cs:31-33 | filtering two parts one after the other is filtering the whole |

## Left out

- The haversine formula (sine, cosine, atan2, square root on doubles) in both files: distance is a function given as a parameter. The one in `TripActivity` is in metres, new position first. The one in `DBHelper` is in kilometres.
- Floating point: doubles are reals. There is no rounding, and no NaN. In the app a NaN consumption would be black.
- Randomness and the clock. The fuel consumption drawn for each fix is an input of `OnLocationChanged`; the draw's range (3 to 21) is not imposed. The random trip ids drawn when rows are read back are chosen arbitrarily. The new trip's random id and `Date()` are parameters of `SyncCarDataWithBackend`.
- SQLite mechanics: SQL text, cursors, `ContentValues`, opening and closing the database, and the auto-assigned row id, which is never read back.
- The `trip_id` column named in the `updateTripValues` update does not exist in the trip table, so SQLite would raise an error there. The model instead updates the trip rows whose id is the given one. Its effect as the helper fills the tables is still nothing (see above).
- Db.DBHelper.UpdateTripValues: when the trip has samples, the app fails even before the column is looked up. `getAllCarDataForTrip` closes the database (DBHelper.kt line 142), and `SQLiteOpenHelper` hands out one cached instance, which `updateTripValues` took at line 147. So `db.update` at line 163 throws `IllegalStateException` for using a closed database. The model performs the update instead.
- Date and timestamp text conversion. The date column is treated as storing the date exactly. `Date.toString()` drops milliseconds and writes the time zone's short name. `getTripFromCursor` parses it back with `Date(String)`, and as the JDK's `Date.parse` is written it knows only GMT, UT, UTC and the US zone names. In any other zone (CET, say) reading back a trip throws, so `getAllTrips` and `syncTripsWithBackend` fail as soon as one trip row exists.
- Db.DBHelper.GetAllTrips: always returns, where the app throws when the stored date names a time zone `Date.parse` does not know (above).
- Db.DBHelper.SyncTripsWithBackend: always sends the trips and clears the table, where the app throws in `getAllTrips` before sending anything when a stored date names a time zone `Date.parse` does not know.
- `onLocationChanged` receives its coordinates as strings and converts them with `toDouble()`. The model takes the numbers; a malformed string (an exception in the app) is not modelled.
- Activity.Lowercase: lower-cases only the letters A to Z, where Kotlin's `lowercase()` covers all of Unicode. A device whose name is null (an exception in the app) is not modelled.
- Bluetooth and OBD2 connection and reading (`Connect`, `Read`, `TestReadCustomComm`), timers and coroutines: sockets and third-party libraries.
- All Compose UI: layout, dialogs, map properties and camera, line width, logging. Recomposition is not modelled: `DrawPolyline` is a method called explicitly.
- Backend clients: `TripService`, `CarDataService` and `InfluxDbService` are not part of this model. The first two are the `Outbox` log. The fetch of trip data is a function parameter of `ExecuteQuery`, and `Console.WriteLine` is left out.
- The coolant temperature's own type is not part of this model and is taken to be a number. GUIDs are natural numbers, with 0 as the empty GUID.
- MainActivity, ProfileActivity, MapActivity, RankingActivity, the user record, the view model and the Room database singleton are not part of this model: they are UI, concurrency or plain data.
