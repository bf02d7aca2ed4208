// The matchers of the SIRI updater (SiriTimetableSnapshotSource): they find the
// scheduled trips and trip patterns that a Vehicle Monitoring activity or an
// Estimated Timetable journey refers to.  They change nothing; the snapshot they
// read is given to them as `view`, the contents the public snapshot accessor returns
// (None while no snapshot has been published).

module SiriMatching {
  import opened Wrappers
  import opened Framework
  import opened StationElements
  import opened Timetables
  import opened SiriMessages

  const NullPointer := "NullPointerException"
  const IndexOutOfBounds := "IndexOutOfBoundsException"

  /** The lookups of the transit service that the matchers consult. */
  datatype TransitIndex = TransitIndex(
    /** `getPatternForTrip`, keyed by trip id */
    patternForTrip: map<FeedScopedId, Pattern>,
    /** the calendar service's `getServiceDatesForServiceId` */
    serviceDates: map<FeedScopedId, set<Date>>,
    /** `getStopForId` */
    stopsById: map<FeedScopedId, Element>)

  /** Collaborators outside this model, as functions of what they are given. */
  datatype Collaborators = Collaborators(
    /** `SiriFuzzyTripMatcher.findTripByDatedVehicleJourneyRef` */
    exactMatch: (EstimatedVehicleJourney, string) -> Option<Trip>,
    /** `SiriFuzzyTripMatcher.match` for a journey; null is the empty sequence */
    fuzzyMatchJourney: (EstimatedVehicleJourney, string) -> seq<Trip>,
    /** `SiriFuzzyTripMatcher.match` for a vehicle activity; null is the empty sequence */
    fuzzyMatchActivity: (VehicleActivity, string) -> seq<Trip>,
    /** `TimetableHelper.createUpdatedTripTimes` for a journey */
    updatedTripTimesForJourney: (Timetable, EstimatedVehicleJourney, FeedScopedId) -> Option<TripTimes>,
    /** `createUpdatedTripTimes` for a vehicle activity */
    updatedTripTimesForActivity: (Timetable, VehicleActivity, FeedScopedId) -> Option<TripTimes>,
    /** `TimetableHelper.createModifiedStops`; None is null */
    modifiedStops: (Pattern, EstimatedVehicleJourney) -> Option<seq<Element>>,
    /** `TimetableHelper.createModifiedStopTimes` */
    modifiedStopTimes: (Pattern, TripTimes, EstimatedVehicleJourney) -> seq<StopTime>,
    /** `TransitModel.getOrCreateServiceIdForDate`; None is null */
    serviceIdForDate: Date -> Option<FeedScopedId>)

  function ServiceDates(ix: TransitIndex, serviceId: FeedScopedId): set<Date>
  {
    if serviceId in ix.serviceDates then ix.serviceDates[serviceId] else {}
  }

  /** The trip's service runs on the date. */
  predicate RunsOn(ix: TransitIndex, trip: Trip, date: Date)
  {
    date in ServiceDates(ix, trip.serviceId)
  }

  function PatternOf(ix: TransitIndex, trip: Trip): Option<Pattern>
  {
    if trip.id in ix.patternForTrip then Some(ix.patternForTrip[trip.id]) else None
  }

  function StopForId(ix: TransitIndex, id: FeedScopedId): Option<Element>
  {
    if id in ix.stopsById then Some(ix.stopsById[id]) else None
  }

  /**
   * A pattern stop matches a SIRI stop reference by its id within the feed, or by sharing
   * its parent station with the stop that the reference names in the same feed.
   */
  predicate StopMatches(ix: TransitIndex, stop: Element, ref: string)
  {
    stop.id.id == ref
    || (IsPartOfStation(stop) && IsPartOfSameStationAs(stop, StopForId(ix, FeedScopedId(stop.id.feedId, ref))))
  }

  /** A stop matches a reference to a sibling under the same parent station. */
  lemma StopMatchesSibling(ix: TransitIndex, stop: Element, ref: string, sibling: Element)
    requires StopForId(ix, FeedScopedId(stop.id.feedId, ref)) == Some(sibling)
    requires stop.parentStation.Some? && sibling.parentStation.Some?
    requires stop.parentStation.value.id == sibling.parentStation.value.id
    ensures StopMatches(ix, stop, ref)
  {
    SameStationMeansSharedParent(stop, Some(sibling));
  }

  /** `getCurrentTimetable`: the published timetable of the pattern on the date, else its scheduled one. */
  function CurrentTimetable(view: Option<Contents>, p: Pattern, date: Date): (r: Timetable)
    ensures view.None? ==> r == p.scheduled
    ensures view.Some? && (p.id, date) !in view.value.timetables ==> r == p.scheduled
  {
    if view.Some? then Resolve(view.value, p, Some(date)) else p.scheduled
  }

  // ------------------------------------------------------------- transit sub-mode

  const ReplacementRailService := "replacementRailService"
  const RailReplacementBus := "railReplacementBus"

  /**
   * `resolveTransitSubMode`: the sub-mode of an added trip that replaces a route;
   * `replacedRouteMode` is the replaced route's mode, None when no route is replaced.
   */
  function ResolveTransitSubMode(mode: TransitMode, replacedRouteMode: Option<TransitMode>): (r: Option<string>)
    ensures r == Some(ReplacementRailService) <==> replacedRouteMode == Some(Rail) && mode == Rail
    ensures r == Some(RailReplacementBus) <==> replacedRouteMode == Some(Rail) && mode == Bus
    ensures r.None? <==> replacedRouteMode != Some(Rail) || (mode != Rail && mode != Bus)
  {
    if replacedRouteMode.Some? && replacedRouteMode.value == Rail then
      if mode == Rail then Some(ReplacementRailService)
      else if mode == Bus then Some(RailReplacementBus)
      else None
    else None
  }

  // ---------------------------------------------------------------- service date

  function DateOf(t: Option<DateTime>): Option<Date>
  {
    if t.Some? then Some(t.value.date) else None
  }

  /** The journey's recorded calls, an absent list being empty. */
  function RecordedCalls(j: EstimatedVehicleJourney): seq<RecordedCall>
  {
    if j.recordedCalls.Some? then j.recordedCalls.value else []
  }

  /**
   * `getServiceDateForEstimatedVehicleJourney`: the date of the first recorded call's aimed
   * departure, else of the first estimated call's; reading a missing first estimated call throws.
   */
  function ServiceDateForJourney(j: EstimatedVehicleJourney): (r: Result<Option<Date>>)
    ensures r.Failure? <==> |RecordedCalls(j)| == 0 && (j.estimatedCalls.None? || |j.estimatedCalls.value| == 0)
    ensures |RecordedCalls(j)| > 0 ==> r == Success(DateOf(RecordedCalls(j)[0].aimedDeparture))
  {
    var rec := RecordedCalls(j);
    if |rec| > 0 then Success(DateOf(rec[0].aimedDeparture))
    else if j.estimatedCalls.None? then Failure(NullPointer)
    else if |j.estimatedCalls.value| == 0 then Failure(IndexOutOfBounds)
    else Success(DateOf(j.estimatedCalls.value[0].aimedDeparture))
  }

  // --------------------------------------------- Vehicle Monitoring: trip match

  /** The trips, in order, whose service runs on the date. */
  function TripsRunningOn(ix: TransitIndex, trips: seq<Trip>, date: Date): (r: seq<Trip>)
    ensures forall t :: t in r <==> t in trips && RunsOn(ix, t, date)
    ensures |r| <= |trips|
    ensures |r| > 0 ==> exists i :: 0 <= i < |trips| && trips[i] == r[0] && forall k :: 0 <= k < i ==> !RunsOn(ix, trips[k], date)
  {
    if |trips| == 0 then []
    else if RunsOn(ix, trips[0], date) then [trips[0]] + TripsRunningOn(ix, trips[1..], date)
    else
      var rest := TripsRunningOn(ix, trips[1..], date);
      assert forall t :: t in trips[1..] ==> t in trips;
      FirstRunningShifts(ix, trips, date, rest);
      rest
  }

  /** Past a first trip that does not run, the first running trip keeps its place one further on. */
  lemma FirstRunningShifts(ix: TransitIndex, trips: seq<Trip>, date: Date, rest: seq<Trip>)
    requires |trips| > 0 && !RunsOn(ix, trips[0], date)
    requires |rest| > 0 ==> exists i :: 0 <= i < |trips| - 1 && trips[1..][i] == rest[0]
                                        && forall k :: 0 <= k < i ==> !RunsOn(ix, trips[1..][k], date)
    ensures |rest| > 0 ==> exists i :: 0 <= i < |trips| && trips[i] == rest[0]
                                       && forall k :: 0 <= k < i ==> !RunsOn(ix, trips[k], date)
  {
    if |rest| > 0 {
      var i :| 0 <= i < |trips| - 1 && trips[1..][i] == rest[0]
               && forall k :: 0 <= k < i ==> !RunsOn(ix, trips[1..][k], date);
      assert trips[i + 1] == rest[0];
      forall k | 0 <= k < i + 1
        ensures !RunsOn(ix, trips[k], date)
      {
        if k > 0 {
          assert trips[k] == trips[1..][k - 1];
        }
      }
    }
  }

  /** The first trip whose route's own id is the line reference. */
  function FirstOnLine(trips: seq<Trip>, lineRef: string): (r: Option<Trip>)
    ensures r.Some? ==> r.value in trips && r.value.routeId.id == lineRef
    ensures r.None? <==> forall t :: t in trips ==> t.routeId.id != lineRef
  {
    if |trips| == 0 then None
    else if trips[0].routeId.id == lineRef then Some(trips[0])
    else
      var r := FirstOnLine(trips[1..], lineRef);
      assert forall t :: t in trips[1..] ==> t in trips;
      assert trips == [trips[0]] + trips[1..];
      r
  }

  /** The service date of a vehicle activity: its origin's aimed departure, else `today`. */
  function VehicleServiceDate(mvj: MonitoredVehicleJourney, today: Date): Date
  {
    if mvj.originAimedDeparture.Some? then mvj.originAimedDeparture.value.date else today
  }

  /**
   * Vehicle Monitoring `getTripForJourney`: among the trips running on the activity's date,
   * the only one, else the first on the activity's line, else the first; None when none runs.
   * `systemToday` is today's date in the system's time zone.
   */
  function VehicleTripForJourney(ix: TransitIndex, trips: seq<Trip>, mvj: MonitoredVehicleJourney,
                                 systemToday: Date): (r: Option<Trip>)
    ensures var date := VehicleServiceDate(mvj, systemToday);
            r.Some? ==> r.value in trips && RunsOn(ix, r.value, date)
    ensures var date := VehicleServiceDate(mvj, systemToday);
            r.None? <==> forall t :: t in trips ==> !RunsOn(ix, t, date)
    ensures var date := VehicleServiceDate(mvj, systemToday);
            mvj.lineRef.Some? && (exists t :: t in trips && RunsOn(ix, t, date) && t.routeId.id == mvj.lineRef.value)
            ==> r.Some? && r.value.routeId.id == mvj.lineRef.value
  {
    var date := VehicleServiceDate(mvj, systemToday);
    var results := TripsRunningOn(ix, trips, date);
    if |results| == 1 then
      assert forall t :: t in results ==> t == results[0];
      Some(results[0])
    else if |results| > 1 then
      if mvj.lineRef.Some? && FirstOnLine(results, mvj.lineRef.value).Some? then FirstOnLine(results, mvj.lineRef.value)
      else Some(results[0])
    else
      assert forall t :: t in trips && RunsOn(ix, t, date) ==> t in results;
      None
  }

  // ------------------------------------------ Vehicle Monitoring: pattern match

  /** `HashSet.add` on trip patterns, whose equality is their id: kept once, in first-seen order. */
  function InsertPattern(ps: seq<Pattern>, p: Pattern): (r: seq<Pattern>)
    ensures (exists q :: q in ps && q.id == p.id) ==> r == ps
    ensures (forall q :: q in ps ==> q.id != p.id) ==> r == ps + [p]
  {
    if exists q :: q in ps && q.id == p.id then ps else ps + [p]
  }

  predicate DistinctPatternIds(ps: seq<Pattern>)
  {
    forall i, k :: 0 <= i < k < |ps| ==> ps[i].id != ps[k].id
  }

  lemma InsertPatternKeepsIds(ps: seq<Pattern>, p: Pattern, id: PatternId)
    requires exists q :: q in ps && q.id == id
    ensures exists q :: q in InsertPattern(ps, p) && q.id == id
  {
    var q :| q in ps && q.id == id;
    assert q in InsertPattern(ps, p);
  }

  lemma InsertPatternKeepsDistinct(ps: seq<Pattern>, p: Pattern)
    requires DistinctPatternIds(ps)
    ensures DistinctPatternIds(InsertPattern(ps, p))
    ensures forall q :: q in InsertPattern(ps, p) ==> q in ps || q == p
    ensures exists q :: q in InsertPattern(ps, p) && q.id == p.id
  {
    if forall q :: q in ps ==> q.id != p.id {
      var r := ps + [p];
      forall i, k | 0 <= i < k < |r|
        ensures r[i].id != r[k].id
      {
        if k == |ps| {
          assert r[i] in ps;
        }
      }
      assert r[|ps|] == p;
    }
  }

  /** What `getPatternsForTrip` adds for one trip: the pattern when the activity's ends match it. */
  function VehiclePatternOfTrip(ix: TransitIndex, buffer: Contents, trip: Trip, mvj: MonitoredVehicleJourney,
                                originRef: string, date: Date): (r: Result<Option<Pattern>>)
    ensures r.Success? && r.value.Some? ==>
              RunsOn(ix, trip, date) && PatternOf(ix, trip).Some? && |PatternOf(ix, trip).value.stops| > 0
              && (r.value == PatternOf(ix, trip) || r.value == RealtimeAddedTripPattern(buffer, trip.id, date))
    ensures r.Success? && r.value.Some? && mvj.destinationRef.None? ==>
              r.value == PatternOf(ix, trip) && r.value.value.stops[0].stop.id.id == originRef
    ensures r.Success? && r.value.Some? && mvj.destinationRef.Some? ==>
              var p := PatternOf(ix, trip).value;
              StopMatches(ix, p.stops[0].stop, originRef)
              && StopMatches(ix, p.stops[|p.stops| - 1].stop, mvj.destinationRef.value)
    ensures !RunsOn(ix, trip, date) ==> r == Success(None)
    ensures RunsOn(ix, trip, date) && PatternOf(ix, trip).Some? && |PatternOf(ix, trip).value.stops| > 0
            && mvj.destinationRef.Some? ==>
              var p := PatternOf(ix, trip).value;
              var added := RealtimeAddedTripPattern(buffer, trip.id, date);
              StopMatches(ix, p.stops[0].stop, originRef)
              && StopMatches(ix, p.stops[|p.stops| - 1].stop, mvj.destinationRef.value)
              ==> r == Success(if added.Some? then added else Some(p))
    ensures RunsOn(ix, trip, date) && PatternOf(ix, trip).Some? && |PatternOf(ix, trip).value.stops| > 0
            && mvj.destinationRef.None? ==>
              var p := PatternOf(ix, trip).value;
              p.stops[0].stop.id.id == originRef && |p.scheduled| > 0 && |p.scheduled[0].stops| > 0
              ==> r == Success(Some(p))
  {
    var p := PatternOf(ix, trip);
    if !RunsOn(ix, trip, date) then Success(None)
    else if p.None? then Failure(NullPointer)
    else if |p.value.stops| == 0 then Failure(IndexOutOfBounds)
    else
      var first := p.value.stops[0].stop;
      var last := p.value.stops[|p.value.stops| - 1].stop;
      if mvj.destinationRef.Some? then
        if StopMatches(ix, first, originRef) && StopMatches(ix, last, mvj.destinationRef.value) then
          var added := RealtimeAddedTripPattern(buffer, trip.id, date);
          Success(if added.Some? then added else p)
        else Success(None)
      else if first.id.id == originRef then
        if |p.value.scheduled| == 0 || |p.value.scheduled[0].stops| == 0 then Failure(IndexOutOfBounds)
        else Success(p)
      else Success(None)
  }

  /** The patterns that the first `k` trips contribute, or the first exception. */
  function VehiclePatterns(ix: TransitIndex, buffer: Contents, trips: seq<Trip>, mvj: MonitoredVehicleJourney,
                           originRef: string, date: Date, k: nat): (r: Result<seq<Pattern>>)
    requires k <= |trips|
    ensures r.Success? ==> DistinctPatternIds(r.value)
    ensures r.Success? ==> forall q :: q in r.value ==>
              exists i :: 0 <= i < k && VehiclePatternOfTrip(ix, buffer, trips[i], mvj, originRef, date) == Success(Some(q))
    ensures r.Success? ==> forall i :: 0 <= i < k ==> VehiclePatternOfTrip(ix, buffer, trips[i], mvj, originRef, date).Success?
  {
    if k == 0 then Success([])
    else
      match VehiclePatterns(ix, buffer, trips, mvj, originRef, date, k - 1)
      case Failure(e) => Failure(e)
      case Success(ps) =>
        match VehiclePatternOfTrip(ix, buffer, trips[k - 1], mvj, originRef, date)
        case Failure(e) => Failure(e)
        case Success(None) => Success(ps)
        case Success(Some(p)) =>
          InsertPatternKeepsDistinct(ps, p);
          Success(InsertPattern(ps, p))
  }

  /** Every pattern a trip contributes is in the result, by id, and the result fails only when a trip's contribution does. */
  lemma {:induction false} VehiclePatternsComplete(ix: TransitIndex, buffer: Contents, trips: seq<Trip>,
                                                   mvj: MonitoredVehicleJourney, originRef: string, date: Date, k: nat)
    requires k <= |trips|
    ensures var r := VehiclePatterns(ix, buffer, trips, mvj, originRef, date, k);
            r.Success? ==> forall i :: 0 <= i < k && VehiclePatternOfTrip(ix, buffer, trips[i], mvj, originRef, date).Success?
                                       && VehiclePatternOfTrip(ix, buffer, trips[i], mvj, originRef, date).value.Some? ==>
                             exists q :: q in r.value && q.id == VehiclePatternOfTrip(ix, buffer, trips[i], mvj, originRef, date).value.value.id
    ensures (forall i :: 0 <= i < k ==> VehiclePatternOfTrip(ix, buffer, trips[i], mvj, originRef, date).Success?) ==>
              VehiclePatterns(ix, buffer, trips, mvj, originRef, date, k).Success?
  {
    forall i | 0 <= i < k && VehiclePatterns(ix, buffer, trips, mvj, originRef, date, k).Success?
               && VehiclePatternOfTrip(ix, buffer, trips[i], mvj, originRef, date).Success?
               && VehiclePatternOfTrip(ix, buffer, trips[i], mvj, originRef, date).value.Some?
      ensures exists q :: q in VehiclePatterns(ix, buffer, trips, mvj, originRef, date, k).value
                          && q.id == VehiclePatternOfTrip(ix, buffer, trips[i], mvj, originRef, date).value.value.id
    {
      VehiclePatternFound(ix, buffer, trips, mvj, originRef, date, k, i);
    }
    VehiclePatternsSucceed(ix, buffer, trips, mvj, originRef, date, k);
  }

  /** The pattern trip `i` contributes is, by id, in the patterns of any longer prefix that succeeds. */
  lemma {:induction false} VehiclePatternFound(ix: TransitIndex, buffer: Contents, trips: seq<Trip>,
                                               mvj: MonitoredVehicleJourney, originRef: string, date: Date, k: nat, i: nat)
    requires i < k <= |trips|
    requires VehiclePatterns(ix, buffer, trips, mvj, originRef, date, k).Success?
    requires VehiclePatternOfTrip(ix, buffer, trips[i], mvj, originRef, date).Success?
    requires VehiclePatternOfTrip(ix, buffer, trips[i], mvj, originRef, date).value.Some?
    ensures exists q :: q in VehiclePatterns(ix, buffer, trips, mvj, originRef, date, k).value
                        && q.id == VehiclePatternOfTrip(ix, buffer, trips[i], mvj, originRef, date).value.value.id
  {
    var prev := VehiclePatterns(ix, buffer, trips, mvj, originRef, date, k - 1);
    var here := VehiclePatternOfTrip(ix, buffer, trips[k - 1], mvj, originRef, date);
    VehiclePatternsStep(ix, buffer, trips, mvj, originRef, date, k);
    if i < k - 1 {
      VehiclePatternFound(ix, buffer, trips, mvj, originRef, date, k - 1, i);
      if here.value.Some? {
        InsertPatternKeepsIds(prev.value, here.value.value, VehiclePatternOfTrip(ix, buffer, trips[i], mvj, originRef, date).value.value.id);
      }
    } else if here.value.Some? {
      InsertPatternKeepsDistinct(prev.value, here.value.value);
    }
  }

  /** One step of `VehiclePatterns`: a successful prefix of `k` trips extends the successful prefix of `k - 1`. */
  lemma VehiclePatternsStep(ix: TransitIndex, buffer: Contents, trips: seq<Trip>,
                            mvj: MonitoredVehicleJourney, originRef: string, date: Date, k: nat)
    requires 0 < k <= |trips|
    requires VehiclePatterns(ix, buffer, trips, mvj, originRef, date, k).Success?
    ensures var prev := VehiclePatterns(ix, buffer, trips, mvj, originRef, date, k - 1);
            var here := VehiclePatternOfTrip(ix, buffer, trips[k - 1], mvj, originRef, date);
            prev.Success? && here.Success?
            && VehiclePatterns(ix, buffer, trips, mvj, originRef, date, k).value
               == if here.value.Some? then InsertPattern(prev.value, here.value.value) else prev.value
  {
  }

  /** The patterns of a prefix are found when every trip of it contributes without an exception. */
  lemma {:induction false} VehiclePatternsSucceed(ix: TransitIndex, buffer: Contents, trips: seq<Trip>,
                                                  mvj: MonitoredVehicleJourney, originRef: string, date: Date, k: nat)
    requires k <= |trips|
    ensures (forall i :: 0 <= i < k ==> VehiclePatternOfTrip(ix, buffer, trips[i], mvj, originRef, date).Success?) ==>
              VehiclePatterns(ix, buffer, trips, mvj, originRef, date, k).Success?
  {
    if k > 0 {
      VehiclePatternsSucceed(ix, buffer, trips, mvj, originRef, date, k - 1);
    }
  }

  /**
   * Vehicle Monitoring `getPatternsForTrip`: None without an origin; otherwise the distinct
   * patterns of the trips running on the activity's date whose ends match the activity's.
   * The realtime-added pattern is read from the working buffer; `transitToday` is today's
   * date in the transit model's time zone.
   */
  function VehiclePatternsForTrip(ix: TransitIndex, buffer: Contents, trips: seq<Trip>, mvj: MonitoredVehicleJourney,
                                  transitToday: Date): (r: Result<Option<seq<Pattern>>>)
    ensures mvj.originRef.None? <==> r == Success(None)
    ensures r.Success? && r.value.Some? ==>
              DistinctPatternIds(r.value.value)
              && forall q :: q in r.value.value ==>
                   exists t :: t in trips && RunsOn(ix, t, VehicleServiceDate(mvj, transitToday))
                               && (Some(q) == PatternOf(ix, t)
                                   || Some(q) == RealtimeAddedTripPattern(buffer, t.id, VehicleServiceDate(mvj, transitToday)))
    ensures r.Success? && r.value.Some? ==>
              var date := VehicleServiceDate(mvj, transitToday);
              (forall q :: q in r.value.value ==>
                 exists t :: t in trips && VehiclePatternOfTrip(ix, buffer, t, mvj, mvj.originRef.value, date) == Success(Some(q)))
              && (forall t :: t in trips && VehiclePatternOfTrip(ix, buffer, t, mvj, mvj.originRef.value, date).Success?
                               && VehiclePatternOfTrip(ix, buffer, t, mvj, mvj.originRef.value, date).value.Some? ==>
                    exists q :: q in r.value.value
                                && q.id == VehiclePatternOfTrip(ix, buffer, t, mvj, mvj.originRef.value, date).value.value.id)
    ensures mvj.originRef.Some? && (forall t :: t in trips ==>
              VehiclePatternOfTrip(ix, buffer, t, mvj, mvj.originRef.value, VehicleServiceDate(mvj, transitToday)).Success?)
            ==> r.Success?
  {
    if mvj.originRef.None? then Success(None)
    else
      var date := VehicleServiceDate(mvj, transitToday);
      VehiclePatternsComplete(ix, buffer, trips, mvj, mvj.originRef.value, date, |trips|);
      assert forall t :: t in trips ==> exists i :: 0 <= i < |trips| && trips[i] == t;
      match VehiclePatterns(ix, buffer, trips, mvj, mvj.originRef.value, date, |trips|)
      case Failure(e) => Failure(e)
      case Success(ps) => Success(Some(ps))
  }

  // ------------------------------------------- Estimated Timetable: pattern match

  /** The first and last stop references of a journey and its date. */
  datatype JourneyEnds = JourneyEnds(firstStopRef: string, lastStopRef: string, date: Date)

  /**
   * The part of `getPatternForTrip` before it consults the snapshot: the first stop and
   * date come from the first recorded call, else the first estimated call; the last stop
   * from the last estimated call, else the last recorded call.
   */
  function JourneyEndsOf(j: EstimatedVehicleJourney): (r: Result<Option<JourneyEnds>>)
    ensures j.estimatedCalls.None? ==> r == Success(None)
    ensures r.Success? && r.value.Some? ==> ServiceDateForJourney(j) == Success(Some(r.value.value.date))
    ensures r.Success? && r.value.None? ==> j.estimatedCalls.None? || (|RecordedCalls(j)| == 0 && |j.estimatedCalls.value| == 0)
  {
    if j.estimatedCalls.None? then Success(None)
    else
      var est := j.estimatedCalls.value;
      var rec := RecordedCalls(j);
      if |rec| > 0 then
        if rec[0].aimedDeparture.None? then Failure(NullPointer)
        else
          var last := if |est| > 0 then est[|est| - 1].stopPointRef else rec[|rec| - 1].stopPointRef;
          Success(Some(JourneyEnds(rec[0].stopPointRef, last, rec[0].aimedDeparture.value.date)))
      else if |est| > 0 then
        if est[0].aimedDeparture.None? then Failure(NullPointer)
        else Success(Some(JourneyEnds(est[0].stopPointRef, est[|est| - 1].stopPointRef, est[0].aimedDeparture.value.date)))
      else Success(None)
  }

  /** `getPatternForTrip` reaches the snapshot accessor. */
  predicate PatternForTripReadsSnapshot(j: EstimatedVehicleJourney)
  {
    JourneyEndsOf(j).Success? && JourneyEndsOf(j).value.Some?
  }

  /** The pattern `getPatternForTrip` settles on: the published realtime-added one, else the trip's. */
  function CandidatePattern(ix: TransitIndex, trip: Trip, date: Date, view: Option<Contents>): Option<Pattern>
  {
    var added := if view.Some? then RealtimeAddedTripPattern(view.value, trip.id, date) else None;
    if added.Some? then added else PatternOf(ix, trip)
  }

  /**
   * Estimated Timetable `getPatternForTrip`: the candidate pattern when the journey's date is
   * a service date of the trip and both the journey's first and last stops match the
   * pattern's; None when the estimated calls are missing or anything does not match.
   */
  function PatternForTrip(ix: TransitIndex, trip: Trip, j: EstimatedVehicleJourney, view: Option<Contents>)
    : (r: Result<Option<Pattern>>)
    ensures j.estimatedCalls.None? ==> r == Success(None)
    ensures r.Success? && r.value.Some? ==>
              PatternForTripReadsSnapshot(j)
              && var e := JourneyEndsOf(j).value.value;
                 var p := r.value.value;
                 RunsOn(ix, trip, e.date) && r.value == CandidatePattern(ix, trip, e.date, view)
                 && |p.stops| > 0
                 && StopMatches(ix, p.stops[0].stop, e.firstStopRef)
                 && StopMatches(ix, p.stops[|p.stops| - 1].stop, e.lastStopRef)
    ensures (PatternForTripReadsSnapshot(j) && CandidatePattern(ix, trip, JourneyEndsOf(j).value.value.date, view).Some?
             && |CandidatePattern(ix, trip, JourneyEndsOf(j).value.value.date, view).value.stops| > 0
             && !RunsOn(ix, trip, JourneyEndsOf(j).value.value.date)) ==> r == Success(None)
    ensures PatternForTripReadsSnapshot(j) ==>
              var e := JourneyEndsOf(j).value.value;
              var c := CandidatePattern(ix, trip, e.date, view);
              c.Some? && |c.value.stops| > 0 && RunsOn(ix, trip, e.date)
              && StopMatches(ix, c.value.stops[0].stop, e.firstStopRef)
              && StopMatches(ix, c.value.stops[|c.value.stops| - 1].stop, e.lastStopRef)
              ==> r == Success(c)
  {
    match JourneyEndsOf(j)
    case Failure(e) => Failure(e)
    case Success(None) => Success(None)
    case Success(Some(e)) =>
      var p := CandidatePattern(ix, trip, e.date, view);
      if p.None? then Failure(NullPointer)
      else if |p.value.stops| == 0 then Failure(IndexOutOfBounds)
      else if !RunsOn(ix, trip, e.date) then Success(None)
      else
        var first := p.value.stops[0].stop;
        var last := p.value.stops[|p.value.stops| - 1].stop;
        if StopMatches(ix, first, e.firstStopRef) && StopMatches(ix, last, e.lastStopRef) then Success(p)
        else Success(None)
  }

  // ---------------------------------------------- Estimated Timetable: trip match

  /** Where `getTripForJourney` starts: stop number (1-based), first stop and aimed departure. */
  datatype JourneyStart = JourneyStart(stopNumber: int, firstStopRef: string, departure: Option<DateTime>)

  function JourneyStartOf(j: EstimatedVehicleJourney): Option<JourneyStart>
  {
    var rec := RecordedCalls(j);
    if |rec| > 0 then Some(JourneyStart(1, rec[0].stopPointRef, rec[0].aimedDeparture))
    else if j.estimatedCalls.Some? && |j.estimatedCalls.value| > 0 then
      var c := j.estimatedCalls.value[0];
      var n := if c.order.Some? then c.order.value else if c.visitNumber.Some? then c.visitNumber.value else 1;
      Some(JourneyStart(n, c.stopPointRef, c.aimedDeparture))
    else None
  }

  /** The trips of the timetable whose scheduled departure at `pos` is `secs` and that run on the date. */
  function TripsDepartingAt(ix: TransitIndex, t: Timetable, pos: nat, secs: int, date: Date): (r: Result<seq<Trip>>)
    ensures r.Success? ==> forall x :: x in r.value ==>
              RunsOn(ix, x, date) && exists tt :: tt in t && tt.trip == x && pos < |tt.stops| && tt.stops[pos].scheduledDeparture == secs
    ensures r.Failure? <==> exists tt :: tt in t && pos >= |tt.stops|
    ensures r.Success? ==> forall tt :: tt in t && tt.stops[pos].scheduledDeparture == secs && RunsOn(ix, tt.trip, date) ==>
              tt.trip in r.value
  {
    if |t| == 0 then Success([])
    else if pos >= |t[0].stops| then Failure(IndexOutOfBounds)
    else
      match TripsDepartingAt(ix, t[1..], pos, secs, date)
      case Failure(e) =>
        assert forall tt :: tt in t[1..] ==> tt in t;
        Failure(e)
      case Success(rest) =>
        assert forall tt :: tt in t[1..] ==> tt in t;
        assert forall tt :: tt in t ==> tt == t[0] || tt in t[1..];
        var here := if t[0].stops[pos].scheduledDeparture == secs && RunsOn(ix, t[0].trip, date) then [t[0].trip] else [];
        Success(here + rest)
  }

  /** What one trip contributes to `getTripForJourney`, and whether it consulted the snapshot. */
  function EstimatedTripCandidates(ix: TransitIndex, trip: Trip, start: JourneyStart, date: Date, secs: int,
                                   view: Option<Contents>): (r: (Result<seq<Trip>>, bool))
    ensures r.0.Success? ==> forall x :: x in r.0.value ==> RunsOn(ix, x, date)
    ensures !RunsOn(ix, trip, date) ==> r == (Success([]), false)
    ensures RunsOn(ix, trip, date) && PatternOf(ix, trip).Some? && 1 <= start.stopNumber < |PatternOf(ix, trip).value.stops|
            && StopMatches(ix, PatternOf(ix, trip).value.stops[start.stopNumber - 1].stop, start.firstStopRef) ==>
              var p := PatternOf(ix, trip).value;
              r == (TripsDepartingAt(ix, CurrentTimetable(view, p, date), start.stopNumber - 1, secs, date), true)
    ensures r.0.Success? && |r.0.value| > 0 ==>
              RunsOn(ix, trip, date) && PatternOf(ix, trip).Some? && 1 <= start.stopNumber < |PatternOf(ix, trip).value.stops|
              && StopMatches(ix, PatternOf(ix, trip).value.stops[start.stopNumber - 1].stop, start.firstStopRef)
  {
    if !RunsOn(ix, trip, date) then (Success([]), false)
    else match PatternOf(ix, trip)
      case None => (Failure(NullPointer), false)
      case Some(p) =>
        if !(start.stopNumber < |p.stops|) then (Success([]), false)
        else if start.stopNumber < 1 then (Failure(IndexOutOfBounds), false)
        else if !StopMatches(ix, p.stops[start.stopNumber - 1].stop, start.firstStopRef) then (Success([]), false)
        else (TripsDepartingAt(ix, CurrentTimetable(view, p, date), start.stopNumber - 1, secs, date), true)
  }

  predicate HasTripId(ts: seq<Trip>, id: FeedScopedId)
  {
    exists y :: y in ts && y.id == id
  }

  predicate DistinctTripIds(ts: seq<Trip>)
  {
    forall i, k :: 0 <= i < k < |ts| ==> ts[i].id != ts[k].id
  }

  /** `HashSet.add` on trips, whose equality is their id. */
  function InsertTrip(ts: seq<Trip>, t: Trip): (r: seq<Trip>)
    requires DistinctTripIds(ts)
    ensures DistinctTripIds(r)
    ensures forall x :: x in r ==> x in ts || x == t
    ensures forall x :: x in ts ==> x in r
    ensures HasTripId(r, t.id)
  {
    if HasTripId(ts, t.id) then ts
    else
      var r := ts + [t];
      assert r[|ts|] == t;
      assert forall i :: 0 <= i < |ts| ==> r[i] in ts;
      r
  }

  /** `HashSet.addAll` on trips. */
  function InsertTrips(ts: seq<Trip>, more: seq<Trip>): (r: seq<Trip>)
    requires DistinctTripIds(ts)
    ensures DistinctTripIds(r)
    ensures forall x :: x in r ==> x in ts || x in more
    ensures forall x :: x in ts ==> x in r
    ensures forall x :: x in more ==> HasTripId(r, x.id)
    decreases |more|
  {
    if |more| == 0 then ts
    else
      var first := InsertTrip(ts, more[0]);
      var r := InsertTrips(first, more[1..]);
      assert forall x :: x in more[1..] ==> x in more;
      assert forall x :: x in more ==> x == more[0] || x in more[1..];
      assert HasTripId(r, more[0].id) by {
        var y :| y in first && y.id == more[0].id;
        assert y in r;
      }
      r
  }

  /** The trips that the first `k` fuzzy matches contribute, and whether the snapshot was consulted. */
  function EstimatedTrips(ix: TransitIndex, trips: seq<Trip>, k: nat, start: JourneyStart, date: Date, secs: int,
                          view: Option<Contents>): (r: (Result<seq<Trip>>, bool))
    requires k <= |trips|
    ensures r.0.Success? ==> DistinctTripIds(r.0.value)
    ensures r.0.Success? ==> forall x :: x in r.0.value ==> RunsOn(ix, x, date)
  {
    if k == 0 then (Success([]), false)
    else
      var prev := EstimatedTrips(ix, trips, k - 1, start, date, secs, view);
      if prev.0.Failure? then prev
      else
        var c := EstimatedTripCandidates(ix, trips[k - 1], start, date, secs, view);
        if c.0.Failure? then (Failure(c.0.error), prev.1 || c.1)
        else (Success(InsertTrips(prev.0.value, c.0.value)), prev.1 || c.1)
  }

  /** Every trip a fuzzy match contributes is in the result, by id. */
  lemma {:induction false} EstimatedTripsComplete(ix: TransitIndex, trips: seq<Trip>, k: nat, start: JourneyStart, date: Date,
                                                  secs: int, view: Option<Contents>)
    requires k <= |trips|
    ensures var r := EstimatedTrips(ix, trips, k, start, date, secs, view);
            r.0.Success? ==>
              forall i :: 0 <= i < k ==>
                EstimatedTripCandidates(ix, trips[i], start, date, secs, view).0.Success?
                && forall x :: x in EstimatedTripCandidates(ix, trips[i], start, date, secs, view).0.value ==> HasTripId(r.0.value, x.id)
  {
    if k > 0 {
      EstimatedTripsComplete(ix, trips, k - 1, start, date, secs, view);
      var prev := EstimatedTrips(ix, trips, k - 1, start, date, secs, view);
      var c := EstimatedTripCandidates(ix, trips[k - 1], start, date, secs, view);
      if prev.0.Success? && c.0.Success? {
        var r := InsertTrips(prev.0.value, c.0.value);
        forall i, x | 0 <= i < k - 1 && x in EstimatedTripCandidates(ix, trips[i], start, date, secs, view).0.value
          ensures HasTripId(r, x.id)
        {
          var y :| y in prev.0.value && y.id == x.id;
          assert y in r;
        }
      }
    }
  }

  /** Every trip in the result was contributed by one of the fuzzy matches. */
  lemma {:induction false} EstimatedTripsSound(ix: TransitIndex, trips: seq<Trip>, k: nat, start: JourneyStart, date: Date,
                                               secs: int, view: Option<Contents>, x: Trip)
    requires k <= |trips|
    requires EstimatedTrips(ix, trips, k, start, date, secs, view).0.Success?
    requires x in EstimatedTrips(ix, trips, k, start, date, secs, view).0.value
    ensures exists i :: 0 <= i < k && EstimatedTripCandidates(ix, trips[i], start, date, secs, view).0.Success?
                        && x in EstimatedTripCandidates(ix, trips[i], start, date, secs, view).0.value
  {
    var prev := EstimatedTrips(ix, trips, k - 1, start, date, secs, view);
    var c := EstimatedTripCandidates(ix, trips[k - 1], start, date, secs, view);
    if x in prev.0.value {
      EstimatedTripsSound(ix, trips, k - 1, start, date, secs, view, x);
      var i :| 0 <= i < k - 1 && EstimatedTripCandidates(ix, trips[i], start, date, secs, view).0.Success?
               && x in EstimatedTripCandidates(ix, trips[i], start, date, secs, view).0.value;
      assert 0 <= i < k;
    } else {
      assert x in c.0.value;
    }
  }

  /** The date and time `getTripForJourney` matches against: the aimed departure, else `now`. */
  function StartTime(start: JourneyStart, now: DateTime): DateTime
  {
    if start.departure.Some? then start.departure.value else now
  }

  /**
   * Estimated Timetable `getTripForJourney`: the trips running on the journey's date whose
   * pattern has the journey's first stop at the reported stop number and whose current
   * timetable departs there at the journey's time; None when there are none.  `now` is
   * the current time in the transit model's time zone.
   */
  function EstimatedTripForJourney(ix: TransitIndex, trips: seq<Trip>, j: EstimatedVehicleJourney, now: DateTime,
                                   view: Option<Contents>): (r: (Result<Option<seq<Trip>>>, bool))
    ensures JourneyStartOf(j).None? ==> r == (Success(None), false)
    ensures r.0.Success? && r.0.value.Some? ==>
              JourneyStartOf(j).Some? && |r.0.value.value| > 0
              && forall x :: x in r.0.value.value ==> RunsOn(ix, x, StartTime(JourneyStartOf(j).value, now).date)
    ensures JourneyStartOf(j).Some? && r.0.Success? ==>
              var start := JourneyStartOf(j).value;
              var t := StartTime(start, now);
              var secs := SecondsSinceStartOfService(t, t);
              (forall i :: 0 <= i < |trips| ==>
                 EstimatedTripCandidates(ix, trips[i], start, t.date, secs, view).0.Success?
                 && forall x :: x in EstimatedTripCandidates(ix, trips[i], start, t.date, secs, view).0.value ==>
                      r.0.value.Some? && HasTripId(r.0.value.value, x.id))
              && (r.0.value.Some? ==> forall x :: x in r.0.value.value ==>
                    exists i :: 0 <= i < |trips| && EstimatedTripCandidates(ix, trips[i], start, t.date, secs, view).0.Success?
                                && x in EstimatedTripCandidates(ix, trips[i], start, t.date, secs, view).0.value)
  {
    match JourneyStartOf(j)
    case None => (Success(None), false)
    case Some(start) =>
      var t := StartTime(start, now);
      var secs := SecondsSinceStartOfService(t, t);
      EstimatedTripsComplete(ix, trips, |trips|, start, t.date, secs, view);
      var m := EstimatedTrips(ix, trips, |trips|, start, t.date, secs, view);
      if m.0.Failure? then (Failure(m.0.error), m.1)
      else if |m.0.value| >= 1 then
        assert forall x :: x in m.0.value ==>
                 exists i :: 0 <= i < |trips| && EstimatedTripCandidates(ix, trips[i], start, t.date, secs, view).0.Success?
                             && x in EstimatedTripCandidates(ix, trips[i], start, t.date, secs, view).0.value by {
          forall x | x in m.0.value
            ensures exists i :: 0 <= i < |trips| && EstimatedTripCandidates(ix, trips[i], start, t.date, secs, view).0.Success?
                                && x in EstimatedTripCandidates(ix, trips[i], start, t.date, secs, view).0.value
          {
            EstimatedTripsSound(ix, trips, |trips|, start, t.date, secs, view, x);
          }
        }
        (Success(Some(m.0.value)), m.1)
      else (Success(None), m.1)
  }

  // ------------------------------------------ Estimated Timetable: modified trip

  /** What the matching phase of `handleModifiedTrip` hands to the update phase. */
  datatype ModifiedTripPlan = ModifiedTripPlan(serviceDate: Date, times: seq<TripTimes>, patterns: seq<Pattern>)

  /** The fuzzy branch: trip times and distinct patterns for the first `k` matching trips. */
  function FuzzyPlan(ix: TransitIndex, col: Collaborators, matching: seq<Trip>, k: nat, j: EstimatedVehicleJourney,
                     date: Date, view: Option<Contents>): (r: (Result<(seq<TripTimes>, seq<Pattern>)>, bool))
    requires k <= |matching|
    ensures r.0.Success? ==> DistinctPatternIds(r.0.value.1)
    ensures r.0.Success? ==> |r.0.value.1| <= |r.0.value.0|
    ensures r.0.Success? ==> forall p :: p in r.0.value.1 ==>
              exists i :: 0 <= i < k && PatternForTrip(ix, matching[i], j, view) == Success(Some(p))
  {
    if k == 0 then (Success(([], [])), false)
    else
      var prev := FuzzyPlan(ix, col, matching, k - 1, j, date, view);
      var trip := matching[k - 1];
      var reached := prev.1 || PatternForTripReadsSnapshot(j);
      if prev.0.Failure? then prev
      else
        var (times, patterns) := prev.0.value;
        match PatternForTrip(ix, trip, j, view)
        case Failure(e) => (Failure(e), reached)
        case Success(None) => (prev.0, reached)
        case Success(Some(p)) =>
          match col.updatedTripTimesForJourney(CurrentTimetable(view, p, date), j, trip.id)
          case None => (prev.0, true)
          case Some(tt) =>
            InsertPatternKeepsDistinct(patterns, p);
            (Success((times + [tt], InsertPattern(patterns, p))), true)
  }

  /**
   * The matching phase of Estimated Timetable `handleModifiedTrip`: None when the journey is
   * reported as not monitored without being cancelled, has no service date, or matches no
   * pattern or trip times; otherwise the service date, the updated trip times and the
   * distinct patterns to apply them to.  The second component tells whether the snapshot
   * accessor was reached.
   */
  function PlanModifiedTrip(ix: TransitIndex, col: Collaborators, feedId: string, j: EstimatedVehicleJourney,
                            now: DateTime, view: Option<Contents>): (r: (Result<Option<ModifiedTripPlan>>, bool))
    ensures IsFalse(j.monitored) && IsFalse(j.cancellation) ==> r == (Success(None), false)
    ensures r.0.Success? && r.0.value.Some? ==>
              var plan := r.0.value.value;
              ServiceDateForJourney(j) == Success(Some(plan.serviceDate))
              && |plan.patterns| > 0 && |plan.times| > 0 && DistinctPatternIds(plan.patterns)
              && r.1
    ensures !(IsFalse(j.monitored) && IsFalse(j.cancellation)) && j.lineRef.None? ==> r == (Failure(NullPointer), false)
    ensures var sd := ServiceDateForJourney(j);
            var exact := col.exactMatch(j, feedId);
            !(IsFalse(j.monitored) && IsFalse(j.cancellation)) && j.lineRef.Some? && sd.Success? && sd.value.Some? && exact.Some? ==>
              (PatternOf(ix, exact.value).None? ==> r == (Success(None), false))
              && (PatternOf(ix, exact.value).Some? ==>
                    var p := PatternOf(ix, exact.value).value;
                    var date := sd.value.value;
                    var tt := col.updatedTripTimesForJourney(CurrentTimetable(view, p, date), j, exact.value.id);
                    r.1 && (tt.None? ==> r.0 == Success(None))
                    && (tt.Some? ==> r.0 == Success(Some(ModifiedTripPlan(date, [tt.value], [p])))))
  {
    if IsFalse(j.monitored) && IsFalse(j.cancellation) then (Success(None), false)
    else if j.lineRef.None? then (Failure(NullPointer), false)
    else match ServiceDateForJourney(j)
      case Failure(e) => (Failure(e), false)
      case Success(None) => (Success(None), false)
      case Success(Some(date)) =>
        match col.exactMatch(j, feedId)
        case Some(trip) =>
          (match PatternOf(ix, trip)
           case None => (Success(None), false)
           case Some(p) =>
             match col.updatedTripTimesForJourney(CurrentTimetable(view, p, date), j, trip.id)
             case None => (Success(None), true)
             case Some(tt) => (Success(Some(ModifiedTripPlan(date, [tt], [p]))), true))
        case None =>
          var trips := col.fuzzyMatchJourney(j, feedId);
          if |trips| == 0 then (Success(None), false)
          else
            var m := EstimatedTripForJourney(ix, trips, j, now, view);
            if m.0.Failure? then (Failure(m.0.error), m.1)
            else if m.0.value.None? then (Success(None), m.1)
            else
              var matching := m.0.value.value;
              var f := FuzzyPlan(ix, col, matching, |matching|, j, date, view);
              var reached := m.1 || f.1;
              if f.0.Failure? then (Failure(f.0.error), reached)
              else if |f.0.value.1| == 0 || |f.0.value.0| == 0 then (Success(None), reached)
              else
                assert f.1 by {
                  FuzzyPlanReachedWhenPatterns(ix, col, matching, |matching|, j, date, view);
                }
                (Success(Some(ModifiedTripPlan(date, f.0.value.0, f.0.value.1))), reached)
  }

  /** When the exact matcher finds the trip, the fuzzy matcher plays no part in the plan. */
  lemma ExactMatchShadowsFuzzy(ix: TransitIndex, col: Collaborators, fuzzy: (EstimatedVehicleJourney, string) -> seq<Trip>,
                               feedId: string, j: EstimatedVehicleJourney, now: DateTime, view: Option<Contents>)
    requires col.exactMatch(j, feedId).Some?
    ensures PlanModifiedTrip(ix, col, feedId, j, now, view)
            == PlanModifiedTrip(ix, col.(fuzzyMatchJourney := fuzzy), feedId, j, now, view)
  {
  }

  /**
   * Every matching trip whose pattern matches and whose updated trip times exist contributes
   * those trip times, and its pattern by id; a successful plan had no failing trip.
   */
  lemma {:induction false} FuzzyPlanComplete(ix: TransitIndex, col: Collaborators, matching: seq<Trip>, k: nat,
                                             j: EstimatedVehicleJourney, date: Date, view: Option<Contents>)
    requires k <= |matching|
    ensures var r := FuzzyPlan(ix, col, matching, k, j, date, view);
            r.0.Success? ==>
              forall i :: 0 <= i < k ==>
                PatternForTrip(ix, matching[i], j, view).Success?
                && (PatternForTrip(ix, matching[i], j, view).value.Some? ==>
                      var p := PatternForTrip(ix, matching[i], j, view).value.value;
                      var tt := col.updatedTripTimesForJourney(CurrentTimetable(view, p, date), j, matching[i].id);
                      tt.Some? ==> tt.value in r.0.value.0 && exists q :: q in r.0.value.1 && q.id == p.id)
  {
    if k > 0 {
      FuzzyPlanComplete(ix, col, matching, k - 1, j, date, view);
      var prev := FuzzyPlan(ix, col, matching, k - 1, j, date, view);
      if prev.0.Success? {
        var pft := PatternForTrip(ix, matching[k - 1], j, view);
        if pft.Success? && pft.value.Some? {
          var p := pft.value.value;
          var tt := col.updatedTripTimesForJourney(CurrentTimetable(view, p, date), j, matching[k - 1].id);
          if tt.Some? {
            var ps := InsertPattern(prev.0.value.1, p);
            InsertPatternKeepsDistinct(prev.0.value.1, p);
            assert forall q :: q in prev.0.value.1 ==> q in ps;
            assert forall u :: u in prev.0.value.0 ==> u in prev.0.value.0 + [tt.value];
          }
        }
      }
    }
  }

  /** Every trip times of a fuzzy plan are the updated times of a matching trip's matched pattern. */
  lemma {:induction false} FuzzyPlanSound(ix: TransitIndex, col: Collaborators, matching: seq<Trip>, k: nat,
                                          j: EstimatedVehicleJourney, date: Date, view: Option<Contents>, tt: TripTimes)
    requires k <= |matching|
    requires FuzzyPlan(ix, col, matching, k, j, date, view).0.Success?
    requires tt in FuzzyPlan(ix, col, matching, k, j, date, view).0.value.0
    ensures exists i :: 0 <= i < k && PatternForTrip(ix, matching[i], j, view).Success?
                        && PatternForTrip(ix, matching[i], j, view).value.Some?
                        && col.updatedTripTimesForJourney(CurrentTimetable(view, PatternForTrip(ix, matching[i], j, view).value.value, date),
                                                          j, matching[i].id) == Some(tt)
  {
    var prev := FuzzyPlan(ix, col, matching, k - 1, j, date, view);
    if tt in prev.0.value.0 {
      FuzzyPlanSound(ix, col, matching, k - 1, j, date, view, tt);
      var i :| 0 <= i < k - 1 && PatternForTrip(ix, matching[i], j, view).Success?
               && PatternForTrip(ix, matching[i], j, view).value.Some?
               && col.updatedTripTimesForJourney(CurrentTimetable(view, PatternForTrip(ix, matching[i], j, view).value.value, date),
                                                 j, matching[i].id) == Some(tt);
      assert 0 <= i < k;
    }
  }

  /** A fuzzy plan that found a pattern consulted the snapshot for it. */
  lemma {:induction false} FuzzyPlanReachedWhenPatterns(ix: TransitIndex, col: Collaborators, matching: seq<Trip>, k: nat,
                                                        j: EstimatedVehicleJourney, date: Date, view: Option<Contents>)
    requires k <= |matching|
    ensures var r := FuzzyPlan(ix, col, matching, k, j, date, view);
            r.0.Success? && |r.0.value.0| > 0 ==> r.1
  {
    if k > 0 {
      FuzzyPlanReachedWhenPatterns(ix, col, matching, k - 1, j, date, view);
    }
  }
}
