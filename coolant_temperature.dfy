/**
 * The backend's coolant-temperature query plugin (CoolantTemperature.cs): the coolant
 * temperature of one trip, optionally restricted to a time window.
 */
module CoolantTemperaturePlugin {
  import opened Common

  /** A GUID; the all-zero GUID (Guid.Empty, also default(Guid)) is 0. */
  type Guid = nat
  const EmptyGuid: Guid := 0

  /** The query's parameters: trip ids, and optional inclusive start and end timestamps. */
  datatype QueryParameters = QueryParameters(ids: seq<Guid>, startDate: Option<int>, endDate: Option<int>)

  /** One stored sample of a trip: its timestamp and the car's coolant temperature. */
  datatype TripData = TripData(timestamp: int, coolantTemperature: real)

  /** The values a result dictionary holds. */
  datatype Value = Text(text: string) | Time(time: int) | Number(number: real)

  /** A result dictionary (Dictionary<string, object>). */
  type Record = map<string, Value>

  const ErrorRecord: Record := map["Error" := Text("Trip ID is required")]

  /** Ids.FirstOrDefault(): the first id, or the empty GUID when there is none. */
  function FirstOrDefault(ids: seq<Guid>): (id: Guid)
    ensures |ids| == 0 ==> id == EmptyGuid
    ensures |ids| > 0 ==> id == ids[0]
  {
    if |ids| == 0 then EmptyGuid else ids[0]
  }

  /** The time-window test: inclusive at both ends, and an absent bound admits everything. */
  predicate InWindow(startDate: Option<int>, endDate: Option<int>, data: TripData)
  {
    && (startDate.None? || data.timestamp >= startDate.value)
    && (endDate.None? || data.timestamp <= endDate.value)
  }

  /** The samples inside the window, in their original order (LINQ Where). */
  function Where(startDate: Option<int>, endDate: Option<int>, tripData: seq<TripData>): (kept: seq<TripData>)
    ensures |kept| <= |tripData|
    ensures forall d :: d in kept ==> d in tripData && InWindow(startDate, endDate, d)
    ensures forall d :: d in tripData && InWindow(startDate, endDate, d) ==> d in kept
    decreases |tripData|
  {
    if tripData == [] then []
    else if InWindow(startDate, endDate, tripData[0]) then [tripData[0]] + Where(startDate, endDate, tripData[1..])
    else Where(startDate, endDate, tripData[1..])
  }

  /** The dictionary built for one sample. */
  function Project(data: TripData): (record: Record)
    ensures record.Keys == {"timestamp", "coolantTemperature"}
    ensures record["timestamp"] == Time(data.timestamp)
    ensures record["coolantTemperature"] == Number(data.coolantTemperature)
  {
    map["timestamp" := Time(data.timestamp), "coolantTemperature" := Number(data.coolantTemperature)]
  }

  /** LINQ Select of Project. */
  function Select(tripData: seq<TripData>): (records: seq<Record>)
    ensures |records| == |tripData|
    ensures forall i :: 0 <= i < |tripData| ==> records[i] == Project(tripData[i])
  {
    seq(|tripData|, i requires 0 <= i < |tripData| => Project(tripData[i]))
  }

  /**
   * ExecuteQuery: without a trip id (no ids, or the empty GUID first) the one error record;
   * otherwise the fetched samples of the first id inside the window, each as a
   * timestamp/coolant-temperature record. getTripData stands for the database fetch.
   */
  function ExecuteQuery(parameters: QueryParameters, getTripData: Guid -> seq<TripData>): (result: seq<Record>)
    ensures (result == [ErrorRecord]) <==> FirstOrDefault(parameters.ids) == EmptyGuid
    ensures FirstOrDefault(parameters.ids) != EmptyGuid ==>
              && |result| <= |getTripData(parameters.ids[0])|
              && forall record :: record in result ==> record.Keys == {"timestamp", "coolantTemperature"}
  {
    var tripId := FirstOrDefault(parameters.ids);
    if tripId == EmptyGuid then
      [ErrorRecord]
    else
      var records := Select(Where(parameters.startDate, parameters.endDate, getTripData(tripId)));
      assert records != [] ==> "Error" !in records[0];
      records
  }

  /** Without a trip id the answer is the error record, whatever the database holds: nothing is fetched. */
  lemma NoTripIdNoFetch(parameters: QueryParameters, getTripData: Guid -> seq<TripData>,
                        otherTripData: Guid -> seq<TripData>)
    requires |parameters.ids| == 0 || parameters.ids[0] == EmptyGuid
    ensures ExecuteQuery(parameters, getTripData) == [ErrorRecord]
    ensures ExecuteQuery(parameters, getTripData) == ExecuteQuery(parameters, otherTripData)
  {
  }

  /** Only the first id counts: ids after it never change the answer. */
  lemma OnlyFirstIdUsed(parameters: QueryParameters, moreIds: seq<Guid>, getTripData: Guid -> seq<TripData>)
    requires |parameters.ids| > 0
    ensures ExecuteQuery(parameters.(ids := parameters.ids[..1] + moreIds), getTripData)
         == ExecuteQuery(parameters, getTripData)
  {
    assert (parameters.ids[..1] + moreIds)[0] == parameters.ids[0];
  }

  /** Every returned record's timestamp lies within the window, both bounds included. */
  lemma ResultWithinWindow(parameters: QueryParameters, getTripData: Guid -> seq<TripData>, i: nat)
    requires FirstOrDefault(parameters.ids) != EmptyGuid
    requires i < |ExecuteQuery(parameters, getTripData)|
    ensures var record := ExecuteQuery(parameters, getTripData)[i];
            && "timestamp" in record && record["timestamp"].Time?
            && (parameters.startDate.Some? ==> record["timestamp"].time >= parameters.startDate.value)
            && (parameters.endDate.Some? ==> record["timestamp"].time <= parameters.endDate.value)
  {
    var kept := Where(parameters.startDate, parameters.endDate, getTripData(parameters.ids[0]));
    assert kept[i] in kept;
  }

  /** With no window every sample is kept. */
  lemma {:induction false} WhereWithoutWindow(tripData: seq<TripData>)
    ensures Where(None, None, tripData) == tripData
    decreases |tripData|
  {
    if tripData != [] {
      WhereWithoutWindow(tripData[1..]);
    }
  }

  /** With neither bound given, every fetched sample comes back, in order. */
  lemma ResultWithoutWindow(parameters: QueryParameters, getTripData: Guid -> seq<TripData>)
    requires FirstOrDefault(parameters.ids) != EmptyGuid
    requires parameters.startDate.None? && parameters.endDate.None?
    ensures ExecuteQuery(parameters, getTripData) == Select(getTripData(parameters.ids[0]))
  {
    WhereWithoutWindow(getTripData(parameters.ids[0]));
  }

  /** The kept samples are an order-preserving subsequence of the fetched ones. */
  lemma {:induction false} WhereKeepsOrder(startDate: Option<int>, endDate: Option<int>, tripData: seq<TripData>)
    ensures IsSubsequence(Where(startDate, endDate, tripData), tripData)
    decreases |tripData|
  {
    if tripData != [] {
      WhereKeepsOrder(startDate, endDate, tripData[1..]);
      var rest := Where(startDate, endDate, tripData[1..]);
      if InWindow(startDate, endDate, tripData[0]) {
        assert ([tripData[0]] + rest)[1..] == rest;
      } else if rest != [] {
        assert rest[0] in rest;
        assert rest[0] != tripData[0];
      }
    }
  }

  /** Filtering two parts one after the other is filtering the whole. */
  lemma {:induction false} WhereAppend(startDate: Option<int>, endDate: Option<int>, a: seq<TripData>, b: seq<TripData>)
    ensures Where(startDate, endDate, a + b) == Where(startDate, endDate, a) + Where(startDate, endDate, b)
    decreases |a|
  {
    if a != [] {
      assert (a + b)[1..] == a[1..] + b;
      WhereAppend(startDate, endDate, a[1..], b);
    } else {
      assert a + b == b;
    }
  }
}
