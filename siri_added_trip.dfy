// Construction of the stop times and trip times of an extra (added) journey from
// its estimated calls (SiriTimetableSnapshotSource.handleAddedTrip): aimed times
// become the scheduled times, expected times become delays, the first stop gets a
// faked arrival and the last stop a faked departure.

module SiriAddedTrip {
  import opened Wrappers
  import opened Framework
  import opened StationElements
  import opened Timetables
  import opened SiriMessages

  const UnknownStop := "unknown stop reference"
  const NoStartOfService := "NullPointerException: no aimed departure to count seconds from"

  /** Position of the first call with an aimed departure, or -1. */
  function FirstAimedDepartureIndex(calls: seq<EstimatedCall>): (r: int)
    ensures -1 <= r < |calls|
    ensures r >= 0 ==> calls[r].aimedDeparture.Some? && forall j :: 0 <= j < r ==> calls[j].aimedDeparture.None?
    ensures r == -1 <==> forall j :: 0 <= j < |calls| ==> calls[j].aimedDeparture.None?
  {
    if |calls| == 0 then -1
    else if calls[0].aimedDeparture.Some? then 0
    else
      var r := FirstAimedDepartureIndex(calls[1..]);
      if r == -1 then -1 else r + 1
  }

  /** The reference time of an added journey: its first aimed departure. */
  function FirstAimedDeparture(calls: seq<EstimatedCall>): Option<DateTime>
  {
    var k := FirstAimedDepartureIndex(calls);
    if k == -1 then None else calls[k].aimedDeparture
  }

  /** A prefix of the calls has an aimed departure when the first one lies inside it, and then it is that one. */
  lemma {:induction false} FirstAimedDepartureOfPrefix(calls: seq<EstimatedCall>, i: nat)
    requires i <= |calls|
    ensures var k := FirstAimedDepartureIndex(calls);
            FirstAimedDeparture(calls[..i]).Some? <==> 0 <= k < i
    ensures FirstAimedDeparture(calls[..i]).Some? ==> FirstAimedDeparture(calls[..i]) == FirstAimedDeparture(calls)
  {
    var pre := calls[..i];
    var k := FirstAimedDepartureIndex(pre);
    var k' := FirstAimedDepartureIndex(calls);
    assert forall j :: 0 <= j < i ==> pre[j] == calls[j];
    if k >= 0 {
      assert k' == k;
    }
  }

  /** The call has an expected arrival or departure, which needs a reference time. */
  predicate HasExpected(c: EstimatedCall)
  {
    c.expectedArrival.Some? || c.expectedDeparture.Some?
  }

  /** Seconds of an aimed time relative to the reference, or the missing-time marker. */
  function AimedSeconds(ref: Option<DateTime>, t: Option<DateTime>): int
    requires t.Some? ==> ref.Some?
  {
    if t.Some? then SecondsSinceStartOfService(ref.value, t.value) else MissingTime
  }

  /** The aimed stop time of call `i`, as the first loop of `handleAddedTrip` builds it. */
  function AimedStopTimeAt(feedId: string, stopsById: map<FeedScopedId, Element>,
                           calls: seq<EstimatedCall>, i: nat): (r: Result<StopTime>)
    requires i < |calls|
    ensures r.Success? ==> r.value.stopSequence == i
    ensures r.Success? && i == 0 ==> r.value.arrival == r.value.departure
    ensures r.Success? && i > 0 && i == |calls| - 1 ==> r.value.departure == r.value.arrival
    ensures r.Success? <==> FeedScopedId(feedId, calls[i].stopPointRef) in stopsById
                            && (calls[i].aimedArrival.Some? ==> FirstAimedDeparture(calls[..i + 1]).Some?)
  {
    var c := calls[i];
    var stopId := FeedScopedId(feedId, c.stopPointRef);
    var ref := FirstAimedDeparture(calls[..i + 1]);
    assert calls[..i + 1][i] == c;
    if stopId !in stopsById then Failure(UnknownStop)
    else if ref.None? && c.aimedArrival.Some? then Failure(NoStartOfService)
    else
      var arr := AimedSeconds(ref, c.aimedArrival);
      var dep := AimedSeconds(ref, c.aimedDeparture);
      var cancelled := IsTrue(c.cancellation);
      var arrival := if i == 0 then dep else arr;
      var departure := if i != 0 && i == |calls| - 1 then arrival else dep;
      var pickup := if cancelled then CancelledPickDrop else if c.boarding then ScheduledPickDrop else NoPickDrop;
      var dropOff := if cancelled then CancelledPickDrop else if c.alighting then ScheduledPickDrop else NoPickDrop;
      Success(StopTime(stopsById[stopId], i, arrival, departure, pickup, dropOff))
  }

  /** The aimed stop times of the first `k` calls, or the first failure among them. */
  function AimedStopTimes(feedId: string, stopsById: map<FeedScopedId, Element>,
                          calls: seq<EstimatedCall>, k: nat): (r: Result<seq<StopTime>>)
    requires k <= |calls|
    ensures r.Success? ==> |r.value| == k
    ensures r.Success? ==> forall i :: 0 <= i < k ==> AimedStopTimeAt(feedId, stopsById, calls, i) == Success(r.value[i])
  {
    if k == 0 then Success([])
    else
      match AimedStopTimes(feedId, stopsById, calls, k - 1)
      case Failure(e) => Failure(e)
      case Success(prev) =>
        match AimedStopTimeAt(feedId, stopsById, calls, k - 1)
        case Failure(e) => Failure(e)
        case Success(st) => Success(prev + [st])
  }

  /** The aimed stop times of the first `k` calls fail exactly when one of those calls fails. */
  lemma {:induction false} AimedStopTimesFailure(feedId: string, stopsById: map<FeedScopedId, Element>,
                                                 calls: seq<EstimatedCall>, k: nat)
    requires k <= |calls|
    ensures AimedStopTimes(feedId, stopsById, calls, k).Failure?
            <==> exists i :: 0 <= i < k && AimedStopTimeAt(feedId, stopsById, calls, i).Failure?
  {
    if k > 0 {
      AimedStopTimesFailure(feedId, stopsById, calls, k - 1);
      if AimedStopTimes(feedId, stopsById, calls, k).Failure? {
        if AimedStopTimes(feedId, stopsById, calls, k - 1).Success? {
          assert AimedStopTimeAt(feedId, stopsById, calls, k - 1).Failure?;
        }
      }
    }
  }

  /** `new TripTimes(trip, stopTimes)`: the stop times' times are both scheduled and current. */
  function InitialStopTimes(st: StopTime): StopTimes
  {
    StopTimes(st.arrival, st.departure, st.arrival, st.departure, false, false)
  }

  /**
   * Stop `i` of `n` after the second loop: expected times become delays against the
   * aimed stop time, flags are set, and the first arrival and last departure are faked.
   */
  function RealtimeStop(st: StopTime, c: EstimatedCall, ref: Option<DateTime>, i: nat, n: nat,
                        journeyInaccurate: bool): StopTimes
    requires HasExpected(c) ==> ref.Some?
  {
    var s0 := InitialStopTimes(st);
    var s1 := if c.expectedArrival.Some? then
                s0.(arrival := s0.scheduledArrival + (SecondsSinceStartOfService(ref.value, c.expectedArrival.value) - st.arrival))
              else s0;
    var s2 := if c.expectedDeparture.Some? then
                s1.(departure := s1.scheduledDeparture + (SecondsSinceStartOfService(ref.value, c.expectedDeparture.value) - st.departure))
              else s1;
    var s3 := if IsTrue(c.cancellation) then s2.(cancelled := true)
              else if journeyInaccurate || IsTrue(c.predictionInaccurate) then s2.(predictionInaccurate := true)
              else s2;
    if i == 0 then s3.(arrival := s3.departure)
    else if i == n - 1 then s3.(departure := s3.arrival)
    else s3
  }

  /** The parts of one stop's trip times that do not depend on expected times. */
  lemma RealtimeStopShape(st: StopTime, c: EstimatedCall, ref: Option<DateTime>, i: nat, n: nat, journeyInaccurate: bool)
    requires HasExpected(c) ==> ref.Some?
    ensures var s := RealtimeStop(st, c, ref, i, n, journeyInaccurate);
            s.scheduledArrival == st.arrival && s.scheduledDeparture == st.departure
            && (i == 0 ==> s.arrival == s.departure)
            && (i != 0 && i == n - 1 ==> s.departure == s.arrival)
            && (s.cancelled <==> IsTrue(c.cancellation))
            && (s.predictionInaccurate <==> !IsTrue(c.cancellation) && (journeyInaccurate || IsTrue(c.predictionInaccurate)))
  {
  }

  /** What the construction yields: the stops, the aimed stop times and the trip times. */
  datatype AddedTrip = AddedTrip(stops: seq<Element>, aimedStopTimes: seq<StopTime>, tripTimes: TripTimes)

  /** The whole construction, ending with the state ADDED or, for a cancelled journey, CANCELED. */
  function AddedTripOf(feedId: string, stopsById: map<FeedScopedId, Element>, trip: Trip,
                       calls: seq<EstimatedCall>, journeyInaccurate: bool, journeyCancelled: bool): Result<AddedTrip>
  {
    match AimedStopTimes(feedId, stopsById, calls, |calls|)
    case Failure(e) => Failure(e)
    case Success(aimed) =>
      match RealtimeStops(aimed, calls, FirstAimedDeparture(calls), journeyInaccurate)
      case Failure(e) => Failure(e)
      case Success(stops) =>
        var tt := TripTimes(trip, stops, Scheduled);
        var final := if journeyCancelled then CancelTrip(tt) else tt.(state := Added);
        Success(AddedTrip(seq(|aimed|, i requires 0 <= i < |aimed| => aimed[i].stop), aimed, final))
  }

  /** The stops of an added journey with their trip times. */
  function RealtimeStops(aimed: seq<StopTime>, calls: seq<EstimatedCall>, ref: Option<DateTime>,
                         journeyInaccurate: bool): (r: Result<seq<StopTimes>>)
    requires |aimed| == |calls|
  {
    if ref.None? && exists i :: 0 <= i < |calls| && HasExpected(calls[i]) then Failure(NoStartOfService)
    else Success(seq(|calls|, i requires 0 <= i < |calls| =>
                       RealtimeStop(aimed[i], calls[i], ref, i, |calls|, journeyInaccurate)))
  }

  /** The first loop of `handleAddedTrip`: the stops and their aimed stop times. */
  method BuildAimedStopTimes(feedId: string, stopsById: map<FeedScopedId, Element>, calls: seq<EstimatedCall>)
    returns (r: Result<seq<StopTime>>, addedStops: seq<Element>, departureTime: Option<DateTime>)
    ensures r == AimedStopTimes(feedId, stopsById, calls, |calls|)
    ensures r.Success? ==> addedStops == seq(|r.value|, j requires 0 <= j < |r.value| => r.value[j].stop)
    ensures r.Success? ==> departureTime == FirstAimedDeparture(calls)
  {
    var n := |calls|;
    var aimedStopTimes: seq<StopTime> := [];
    addedStops := [];
    departureTime := None;
    var i := 0;
    while i < n
      invariant 0 <= i <= n
      invariant AimedStopTimes(feedId, stopsById, calls, i) == Success(aimedStopTimes)
      invariant departureTime == FirstAimedDeparture(calls[..i])
      invariant |addedStops| == i && forall j :: 0 <= j < i ==> addedStops[j] == aimedStopTimes[j].stop
    {
      var c := calls[i];
      var stopId := FeedScopedId(feedId, c.stopPointRef);
      if stopId !in stopsById {
        assert AimedStopTimeAt(feedId, stopsById, calls, i).Failure?;
        AimedStopTimesFailFrom(feedId, stopsById, calls, i, n);
        return Failure(UnknownStop), addedStops, departureTime;
      }
      var stop := stopsById[stopId];
      if departureTime.None? {
        departureTime := c.aimedDeparture;
      }
      FirstAimedDepartureStep(calls, i);
      var st := AimedStopTimeFor(feedId, stopsById, calls, i, departureTime);
      if st.Failure? {
        AimedStopTimesFailFrom(feedId, stopsById, calls, i, n);
        return Failure(st.error), addedStops, departureTime;
      }
      assert AimedStopTimes(feedId, stopsById, calls, i + 1) == Success(aimedStopTimes + [st.value]);
      addedStops := addedStops + [stop];
      aimedStopTimes := aimedStopTimes + [st.value];
      i := i + 1;
    }
    assert calls[..n] == calls;
    r := Success(aimedStopTimes);
  }

  /** The body of the first loop for call `i`, whose stop is known, against the reference time so far. */
  method AimedStopTimeFor(feedId: string, stopsById: map<FeedScopedId, Element>, calls: seq<EstimatedCall>, i: nat,
                          departureTime: Option<DateTime>)
    returns (r: Result<StopTime>)
    requires i < |calls| && FeedScopedId(feedId, calls[i].stopPointRef) in stopsById
    requires departureTime == FirstAimedDeparture(calls[..i + 1])
    ensures r == AimedStopTimeAt(feedId, stopsById, calls, i)
  {
    var c := calls[i];
    var n := |calls|;
    var stop := stopsById[FeedScopedId(feedId, c.stopPointRef)];
    assert calls[..i + 1][i] == c;
    var arrival := MissingTime;
    var departure := MissingTime;
    if c.aimedArrival.Some? {
      if departureTime.None? {
        return Failure(NoStartOfService);
      }
      arrival := SecondsSinceStartOfService(departureTime.value, c.aimedArrival.value);
    }
    if c.aimedDeparture.Some? {
      departure := SecondsSinceStartOfService(departureTime.value, c.aimedDeparture.value);
    }
    var dropOff := if c.alighting then ScheduledPickDrop else NoPickDrop;
    var pickup := if c.boarding then ScheduledPickDrop else NoPickDrop;
    if i == 0 {
      arrival := departure;
    } else if i == n - 1 {
      departure := arrival;
    }
    if IsTrue(c.cancellation) {
      pickup := CancelledPickDrop;
      dropOff := CancelledPickDrop;
    }
    return Success(StopTime(stop, i, arrival, departure, pickup, dropOff));
  }

  /** The second loop of `handleAddedTrip`: expected times, flags and the faked ends. */
  method BuildRealtimeStops(aimed: seq<StopTime>, calls: seq<EstimatedCall>, journeyRef: Option<DateTime>,
                            journeyInaccurate: bool)
    returns (r: Result<seq<StopTimes>>)
    requires |aimed| == |calls|
    ensures r == RealtimeStops(aimed, calls, journeyRef, journeyInaccurate)
  {
    var n := |calls|;
    var stops := seq(n, j requires 0 <= j < n => InitialStopTimes(aimed[j]));
    var i := 0;
    while i < n
      invariant 0 <= i <= n
      invariant |stops| == n
      invariant forall j :: 0 <= j < i ==> HasExpected(calls[j]) ==> journeyRef.Some?
      invariant forall j :: 0 <= j < i ==>
                  stops[j] == RealtimeStop(aimed[j], calls[j], journeyRef, j, n, journeyInaccurate)
      invariant forall j :: i <= j < n ==> stops[j] == InitialStopTimes(aimed[j])
    {
      var c := calls[i];
      var st := aimed[i];
      var s := stops[i];
      if c.expectedArrival.Some? {
        if journeyRef.None? {
          return Failure(NoStartOfService);
        }
        s := s.(arrival := s.scheduledArrival + (SecondsSinceStartOfService(journeyRef.value, c.expectedArrival.value) - st.arrival));
      }
      if c.expectedDeparture.Some? {
        if journeyRef.None? {
          return Failure(NoStartOfService);
        }
        s := s.(departure := s.scheduledDeparture + (SecondsSinceStartOfService(journeyRef.value, c.expectedDeparture.value) - st.departure));
      }
      if IsTrue(c.cancellation) {
        s := s.(cancelled := true);
      } else if journeyInaccurate || IsTrue(c.predictionInaccurate) {
        s := s.(predictionInaccurate := true);
      }
      if i == 0 {
        s := s.(arrival := s.departure);
      } else if i == n - 1 {
        s := s.(departure := s.arrival);
      }
      stops := stops[i := s];
      i := i + 1;
    }
    assert stops == seq(n, j requires 0 <= j < n => RealtimeStop(aimed[j], calls[j], journeyRef, j, n, journeyInaccurate));
    return Success(stops);
  }

  /** Once call `i` fails, the aimed stop times of any longer prefix fail with it. */
  lemma AimedStopTimesFailFrom(feedId: string, stopsById: map<FeedScopedId, Element>,
                               calls: seq<EstimatedCall>, i: nat, k: nat)
    requires i < k <= |calls|
    requires AimedStopTimeAt(feedId, stopsById, calls, i).Failure?
    requires AimedStopTimes(feedId, stopsById, calls, i).Success?
    ensures AimedStopTimes(feedId, stopsById, calls, k).Failure?
    ensures AimedStopTimes(feedId, stopsById, calls, k).error == AimedStopTimeAt(feedId, stopsById, calls, i).error
    decreases k
  {
    if k > i + 1 {
      AimedStopTimesFailFrom(feedId, stopsById, calls, i, k - 1);
    }
  }

  /** The reference time after call `i` is the one before it, unless that was still unset. */
  lemma FirstAimedDepartureStep(calls: seq<EstimatedCall>, i: nat)
    requires i < |calls|
    ensures FirstAimedDeparture(calls[..i + 1]) ==
            if FirstAimedDeparture(calls[..i]).Some? then FirstAimedDeparture(calls[..i]) else calls[i].aimedDeparture
  {
    var pre := calls[..i];
    var pre1 := calls[..i + 1];
    assert forall j :: 0 <= j < i ==> pre1[j] == pre[j];
    assert pre1[i] == calls[i];
    var k := FirstAimedDepartureIndex(pre);
    var k1 := FirstAimedDepartureIndex(pre1);
    if k >= 0 {
      assert k1 == k;
    } else if calls[i].aimedDeparture.Some? {
      assert k1 == i;
    } else {
      assert k1 == -1;
    }
  }

  /**
   * The first stop's arrival equals its departure, scheduled and current; from two calls
   * on, the last stop's departure equals its arrival.
   */
  lemma AddedTripFakesFirstArrivalAndLastDeparture(feedId: string, stopsById: map<FeedScopedId, Element>,
                                                   trip: Trip, calls: seq<EstimatedCall>,
                                                   journeyInaccurate: bool, journeyCancelled: bool)
    requires AddedTripOf(feedId, stopsById, trip, calls, journeyInaccurate, journeyCancelled).Success?
    ensures var a := AddedTripOf(feedId, stopsById, trip, calls, journeyInaccurate, journeyCancelled).value;
            var s := a.tripTimes.stops;
            |s| == |calls| == |a.aimedStopTimes| &&
            (|s| > 0 ==> s[0].arrival == s[0].departure && s[0].scheduledArrival == s[0].scheduledDeparture) &&
            (|s| > 1 ==> s[|s| - 1].departure == s[|s| - 1].arrival
                         && s[|s| - 1].scheduledDeparture == s[|s| - 1].scheduledArrival)
  {
    var n := |calls|;
    if n > 0 {
      var a := AddedTripOf(feedId, stopsById, trip, calls, journeyInaccurate, journeyCancelled).value;
      AddedTripStopAt(feedId, stopsById, trip, calls, journeyInaccurate, journeyCancelled, 0);
      AddedTripStopAt(feedId, stopsById, trip, calls, journeyInaccurate, journeyCancelled, n - 1);
      var ref := FirstAimedDeparture(calls);
      RealtimeStopShape(a.aimedStopTimes[0], calls[0], ref, 0, n, journeyInaccurate);
      RealtimeStopShape(a.aimedStopTimes[n - 1], calls[n - 1], ref, n - 1, n, journeyInaccurate);
      AimedStopTimeEnds(feedId, stopsById, calls, a.aimedStopTimes);
    }
  }

  /** The aimed first arrival and last departure are faked as well. */
  lemma AimedStopTimeEnds(feedId: string, stopsById: map<FeedScopedId, Element>, calls: seq<EstimatedCall>,
                          aimed: seq<StopTime>)
    requires |calls| > 0 && AimedStopTimes(feedId, stopsById, calls, |calls|) == Success(aimed)
    ensures aimed[0].arrival == aimed[0].departure
    ensures |calls| > 1 ==> aimed[|calls| - 1].departure == aimed[|calls| - 1].arrival
  {
    assert AimedStopTimeAt(feedId, stopsById, calls, 0) == Success(aimed[0]);
    assert AimedStopTimeAt(feedId, stopsById, calls, |calls| - 1) == Success(aimed[|calls| - 1]);
  }

  /**
   * With a single call only the first-stop branch applies: its departure is the expected
   * departure and its arrival is made equal to it, not the other way round.
   */
  lemma AddedTripSingleCall(feedId: string, stopsById: map<FeedScopedId, Element>, trip: Trip,
                            calls: seq<EstimatedCall>, journeyInaccurate: bool, journeyCancelled: bool)
    requires |calls| == 1 && calls[0].expectedDeparture.Some?
    requires AddedTripOf(feedId, stopsById, trip, calls, journeyInaccurate, journeyCancelled).Success?
    ensures FirstAimedDeparture(calls).Some?
    ensures var s := AddedTripOf(feedId, stopsById, trip, calls, journeyInaccurate, journeyCancelled).value.tripTimes.stops[0];
            var expected := SecondsSinceStartOfService(FirstAimedDeparture(calls).value, calls[0].expectedDeparture.value);
            s.departure == expected && s.arrival == expected
  {
    var aimed := AimedStopTimes(feedId, stopsById, calls, 1).value;
    assert AimedStopTimeAt(feedId, stopsById, calls, 0) == Success(aimed[0]);
    assert HasExpected(calls[0]);
  }

  /** Stop `i` of a built added trip is call `i` turned into trip times against its aimed stop time. */
  lemma AddedTripStopAt(feedId: string, stopsById: map<FeedScopedId, Element>, trip: Trip,
                        calls: seq<EstimatedCall>, journeyInaccurate: bool, journeyCancelled: bool, i: nat)
    requires AddedTripOf(feedId, stopsById, trip, calls, journeyInaccurate, journeyCancelled).Success?
    requires i < |calls|
    ensures var a := AddedTripOf(feedId, stopsById, trip, calls, journeyInaccurate, journeyCancelled).value;
            |a.tripTimes.stops| == |calls| == |a.aimedStopTimes| &&
            (HasExpected(calls[i]) ==> FirstAimedDeparture(calls).Some?) &&
            a.tripTimes.stops[i] == RealtimeStop(a.aimedStopTimes[i], calls[i], FirstAimedDeparture(calls), i, |calls|, journeyInaccurate)
  {
  }

  /** An expected time becomes the current time, and the delay is measured against the aimed time. */
  lemma RealtimeStopDelays(st: StopTime, c: EstimatedCall, ref: Option<DateTime>, i: nat, n: nat, journeyInaccurate: bool)
    requires HasExpected(c) ==> ref.Some?
    requires i < n
    ensures var s := RealtimeStop(st, c, ref, i, n, journeyInaccurate);
            s.scheduledArrival == st.arrival && s.scheduledDeparture == st.departure &&
            (i > 0 && c.expectedArrival.Some? ==>
               s.arrival - s.scheduledArrival == SecondsSinceStartOfService(ref.value, c.expectedArrival.value) - st.arrival) &&
            ((i == 0 || i < n - 1) && c.expectedDeparture.Some? ==>
               s.departure - s.scheduledDeparture == SecondsSinceStartOfService(ref.value, c.expectedDeparture.value) - st.departure)
  {
  }

  /**
   * Each expected time becomes a delay against the aimed time at that index, wherever the
   * faked first arrival or last departure does not overwrite it.
   */
  lemma AddedTripDelays(feedId: string, stopsById: map<FeedScopedId, Element>, trip: Trip,
                        calls: seq<EstimatedCall>, journeyInaccurate: bool, journeyCancelled: bool, i: nat)
    requires AddedTripOf(feedId, stopsById, trip, calls, journeyInaccurate, journeyCancelled).Success?
    requires i < |calls|
    ensures var a := AddedTripOf(feedId, stopsById, trip, calls, journeyInaccurate, journeyCancelled).value;
            var ref := FirstAimedDeparture(calls);
            |a.tripTimes.stops| == |calls| == |a.aimedStopTimes| &&
            a.tripTimes.stops[i].scheduledArrival == a.aimedStopTimes[i].arrival &&
            a.tripTimes.stops[i].scheduledDeparture == a.aimedStopTimes[i].departure &&
            (HasExpected(calls[i]) ==> ref.Some?) &&
            (i > 0 && calls[i].expectedArrival.Some? ==>
               ArrivalDelay(a.tripTimes, i)
                 == SecondsSinceStartOfService(ref.value, calls[i].expectedArrival.value) - a.aimedStopTimes[i].arrival) &&
            ((i == 0 || i < |calls| - 1) && calls[i].expectedDeparture.Some? ==>
               DepartureDelay(a.tripTimes, i)
                 == SecondsSinceStartOfService(ref.value, calls[i].expectedDeparture.value) - a.aimedStopTimes[i].departure)
  {
    var a := AddedTripOf(feedId, stopsById, trip, calls, journeyInaccurate, journeyCancelled).value;
    AddedTripStopAt(feedId, stopsById, trip, calls, journeyInaccurate, journeyCancelled, i);
    RealtimeStopDelays(a.aimedStopTimes[i], calls[i], FirstAimedDeparture(calls), i, |calls|, journeyInaccurate);
  }

  /** The final state is CANCELED exactly for a cancelled journey and ADDED otherwise; stops keep their flags. */
  lemma AddedTripState(feedId: string, stopsById: map<FeedScopedId, Element>, trip: Trip,
                       calls: seq<EstimatedCall>, journeyInaccurate: bool, journeyCancelled: bool, i: nat)
    requires AddedTripOf(feedId, stopsById, trip, calls, journeyInaccurate, journeyCancelled).Success?
    requires i < |calls|
    ensures var tt := AddedTripOf(feedId, stopsById, trip, calls, journeyInaccurate, journeyCancelled).value.tripTimes;
            tt.trip == trip &&
            (tt.state == Canceled <==> journeyCancelled) &&
            (!journeyCancelled ==> tt.state == Added) &&
            |tt.stops| == |calls| &&
            (tt.stops[i].cancelled <==> IsTrue(calls[i].cancellation)) &&
            (tt.stops[i].predictionInaccurate <==>
               !IsTrue(calls[i].cancellation) && (journeyInaccurate || IsTrue(calls[i].predictionInaccurate)))
  {
    var a := AddedTripOf(feedId, stopsById, trip, calls, journeyInaccurate, journeyCancelled).value;
    AddedTripStopAt(feedId, stopsById, trip, calls, journeyInaccurate, journeyCancelled, i);
    RealtimeStopShape(a.aimedStopTimes[i], calls[i], FirstAimedDeparture(calls), i, |calls|, journeyInaccurate);
  }

  /** Call `i` cannot be turned into an aimed stop time: its stop is unknown, or it has an aimed arrival before any aimed departure. */
  predicate AimedCallFails(feedId: string, stopsById: map<FeedScopedId, Element>, calls: seq<EstimatedCall>, i: nat)
    requires i < |calls|
  {
    var k := FirstAimedDepartureIndex(calls);
    FeedScopedId(feedId, calls[i].stopPointRef) !in stopsById
    || (calls[i].aimedArrival.Some? && (k == -1 || k > i))
  }

  /** Call `i` fails in the first loop exactly in the cases `AimedCallFails` names. */
  lemma AimedCallsFail(feedId: string, stopsById: map<FeedScopedId, Element>, calls: seq<EstimatedCall>)
    ensures forall i :: 0 <= i < |calls| ==>
              (AimedStopTimeAt(feedId, stopsById, calls, i).Failure? <==> AimedCallFails(feedId, stopsById, calls, i))
  {
    forall i | 0 <= i < |calls|
      ensures AimedStopTimeAt(feedId, stopsById, calls, i).Failure? <==> AimedCallFails(feedId, stopsById, calls, i)
    {
      FirstAimedDepartureOfPrefix(calls, i + 1);
    }
  }

  /**
   * An added journey fails to build exactly when one call fails, or when no call has an
   * aimed departure and some call has an expected time.
   */
  lemma AddedTripFailure(feedId: string, stopsById: map<FeedScopedId, Element>, trip: Trip,
                         calls: seq<EstimatedCall>, journeyInaccurate: bool, journeyCancelled: bool)
    ensures AddedTripOf(feedId, stopsById, trip, calls, journeyInaccurate, journeyCancelled).Failure? <==>
            (exists i :: 0 <= i < |calls| && AimedCallFails(feedId, stopsById, calls, i))
            || (FirstAimedDepartureIndex(calls) == -1 && exists i :: 0 <= i < |calls| && HasExpected(calls[i]))
  {
    AimedStopTimesFailure(feedId, stopsById, calls, |calls|);
    AimedCallsFail(feedId, stopsById, calls);
    var callFails := exists i :: 0 <= i < |calls| && AimedCallFails(feedId, stopsById, calls, i);
    assert callFails <==> AimedStopTimes(feedId, stopsById, calls, |calls|).Failure?;
    assert FirstAimedDeparture(calls).None? <==> FirstAimedDepartureIndex(calls) == -1;
    var r := AddedTripOf(feedId, stopsById, trip, calls, journeyInaccurate, journeyCancelled);
    match AimedStopTimes(feedId, stopsById, calls, |calls|)
    case Failure(_) =>
      assert r.Failure?;
    case Success(aimed) =>
      assert r.Failure? <==> RealtimeStops(aimed, calls, FirstAimedDeparture(calls), journeyInaccurate).Failure?;
  }
}
