// SiriTimetableSnapshotSource: applies SIRI Estimated Timetable and Vehicle Monitoring
// deliveries to a working buffer of real-time timetables and publishes immutable
// snapshots of it, at most once per `maxSnapshotFrequency` milliseconds unless forced.
//
// The writer runs alone: the buffer lock is not modelled, and the public snapshot
// accessor, which the writer itself also calls, is given whether the lock can be
// taken (from inside the writer it always can, the lock being re-entrant).  All clock
// readings of one batch are one instant, passed in as a `Clock`.

module SiriSource {
  import opened Wrappers
  import opened Framework
  import opened StationElements
  import opened Timetables
  import opened SiriMessages
  import opened SiriAddedTrip
  import opened SiriMatching

  /** One instant as the updater reads it: milliseconds, local time in the transit zone, date in the system zone. */
  datatype Clock = Clock(millis: int, transitNow: DateTime, systemToday: Date)

  /** The counters one version frame (or one delivery of activities) ends with. */
  datatype Counters = Counters(handled: nat, added: nat, skipped: nat, notMonitored: nat)

  function Total(c: Counters): nat
  {
    c.handled + c.added + c.skipped + c.notMonitored
  }

  /** The number of journeys flagged as extra journeys, which `handleAddedTrip` takes. */
  function ExtraJourneys(js: seq<EstimatedVehicleJourney>): nat
  {
    if |js| == 0 then 0
    else ExtraJourneys(js[..|js| - 1]) + (if IsTrue(js[|js| - 1].extraJourney) then 1 else 0)
  }

  /** The number of other journeys reported as not monitored. */
  function UnmonitoredJourneys(js: seq<EstimatedVehicleJourney>): nat
  {
    if |js| == 0 then 0
    else
      var j := js[|js| - 1];
      UnmonitoredJourneys(js[..|js| - 1]) + (if !IsTrue(j.extraJourney) && IsFalse(j.monitored) then 1 else 0)
  }

  /** The number of other journeys reported as neither monitored nor cancelled, which are left alone. */
  function IgnoredJourneys(js: seq<EstimatedVehicleJourney>): nat
  {
    if |js| == 0 then 0
    else
      var j := js[|js| - 1];
      IgnoredJourneys(js[..|js| - 1])
      + (if !IsTrue(j.extraJourney) && IsFalse(j.monitored) && IsFalse(j.cancellation) then 1 else 0)
  }

  /** How counting one more journey `j` moves the counters from `c` to `next`. */
  predicate JourneyCounted(j: EstimatedVehicleJourney, c: Counters, next: Counters)
  {
    Total(next) == Total(c) + 1
    && c.handled <= next.handled && c.added <= next.added && c.skipped <= next.skipped && c.notMonitored <= next.notMonitored
    && (IsTrue(j.extraJourney) ==> next.handled == c.handled && next.notMonitored == c.notMonitored)
    && (!IsTrue(j.extraJourney) ==>
          next.added == c.added
          && (next.notMonitored == c.notMonitored || (next.notMonitored == c.notMonitored + 1 && IsFalse(j.monitored)))
          && (IsFalse(j.monitored) && IsFalse(j.cancellation) ==> next.notMonitored == c.notMonitored + 1))
  }

  /** The frames of one more delivery, with one counter record per journey-counted frame, extend the batch's records. */
  lemma FrameCountersAppend(ds: seq<EstimatedTimetableDelivery>, d: nat, counters: seq<Counters>, more: seq<Counters>)
    requires d < |ds|
    requires |counters| == |Frames(ds[..d])|
    requires forall f :: 0 <= f < |counters| ==> Total(counters[f]) == |Frames(ds[..d])[f].journeys|
    requires var fs := if ds[d].versionFrames.Some? then ds[d].versionFrames.value else [];
             |more| == |fs| && forall f :: 0 <= f < |fs| ==> Total(more[f]) == |fs[f].journeys|
    ensures |counters + more| == |Frames(ds[..d + 1])|
    ensures forall f :: 0 <= f < |counters + more| ==> Total((counters + more)[f]) == |Frames(ds[..d + 1])[f].journeys|
  {
    assert ds[..d + 1] == ds[..d] + [ds[d]];
    FramesAppend(ds[..d], ds[d]);
  }

  /** The version frames of a batch that carry journeys, in order. */
  function Frames(deliveries: seq<EstimatedTimetableDelivery>): (r: seq<EstimatedVersionFrame>)
    ensures |deliveries| == 0 ==> r == []
  {
    if |deliveries| == 0 then []
    else
      var fs := if deliveries[0].versionFrames.Some? then deliveries[0].versionFrames.value else [];
      fs + Frames(deliveries[1..])
  }

  lemma FramesAppend(a: seq<EstimatedTimetableDelivery>, d: EstimatedTimetableDelivery)
    ensures Frames(a + [d]) == Frames(a) + (if d.versionFrames.Some? then d.versionFrames.value else [])
  {
    if |a| == 0 {
      assert a + [d] == [d];
    } else {
      assert (a + [d])[1..] == a[1..] + [d];
      FramesAppend(a[1..], d);
    }
  }

  /** The activity lists of a Vehicle Monitoring batch that are present, in order. */
  function ActivityLists(deliveries: seq<VehicleMonitoringDelivery>): seq<seq<VehicleActivity>>
  {
    if |deliveries| == 0 then []
    else
      (if deliveries[0].vehicleActivities.Some? then [deliveries[0].vehicleActivities.value] else [])
      + ActivityLists(deliveries[1..])
  }

  lemma ActivityListsAppend(a: seq<VehicleMonitoringDelivery>, d: VehicleMonitoringDelivery)
    ensures ActivityLists(a + [d]) == ActivityLists(a) + (if d.vehicleActivities.Some? then [d.vehicleActivities.value] else [])
  {
    if |a| == 0 {
      assert a + [d] == [d];
    } else {
      assert (a + [d])[1..] == a[1..] + [d];
      ActivityListsAppend(a[1..], d);
    }
  }

  /** The dated service journey id of a journey: DatedVehicleJourneyRef, else the framed one. */
  function DatedServiceJourneyRef(j: EstimatedVehicleJourney): Option<string>
  {
    if j.datedVehicleJourneyRef.Some? then j.datedVehicleJourneyRef else j.framedVehicleJourneyRef
  }

  /** The added trip was built and its trip times are in the buffer under its real-time pattern for `date`. */
  predicate AddedTripVisible(c: Contents, trip: Trip, date: Date, added: Result<AddedTrip>)
  {
    added.Success?
    && var p := RealtimeAddedTripPattern(c, trip.id, date);
       p.Some? && p.value.stops == StopPatternOf(added.value.aimedStopTimes)
       && GetTripTimes(Resolve(c, p.value, Some(date)), trip.id) == Some(added.value.tripTimes)
  }

  /** `AddedTripOf` once both of its loops have succeeded. */
  lemma AddedTripOfUnfold(feedId: string, stopsById: map<FeedScopedId, Element>, trip: Trip, calls: seq<EstimatedCall>,
                          journeyInaccurate: bool, journeyCancelled: bool, aimed: seq<StopTime>, stops: seq<StopTimes>)
    requires AimedStopTimes(feedId, stopsById, calls, |calls|) == Success(aimed)
    requires |aimed| == |calls|
    requires RealtimeStops(aimed, calls, FirstAimedDeparture(calls), journeyInaccurate) == Success(stops)
    ensures AddedTripOf(feedId, stopsById, trip, calls, journeyInaccurate, journeyCancelled).Success?
    ensures AddedTripOf(feedId, stopsById, trip, calls, journeyInaccurate, journeyCancelled).value.aimedStopTimes == aimed
    ensures AddedTripOf(feedId, stopsById, trip, calls, journeyInaccurate, journeyCancelled).value.tripTimes
            == (if journeyCancelled then CancelTrip(TripTimes(trip, stops, Scheduled))
                else TripTimes(trip, stops, Scheduled).(state := Added))
  {
  }

  // ------------------------------------------------- the writer's state as values

  /** The trip patterns made for real-time stop patterns, by stop pattern, route and service date. */
  type PatternCache = map<(seq<PatternStop>, FeedScopedId, Date), Pattern>

  /** What an Estimated Timetable update reads and writes: the buffer, the pattern cache and the id generator. */
  datatype Writer = Writer(buffer: Buffer, cache: PatternCache, next: nat)

  /** Cached patterns hold their key's stops and route, are real-time ones with empty scheduled timetables and generated ids. */
  predicate CacheValid(cache: PatternCache, next: nat)
  {
    forall k :: k in cache ==>
      cache[k].stops == k.0 && cache[k].routeId == k.1
      && cache[k].createdByRealtime && cache[k].scheduled == []
      && cache[k].id.RealtimePattern? && cache[k].id.number < next
  }

  /** `getOrCreateTripPattern`: the cached pattern for the key, else a new one with the next generated id. */
  function CachedPattern(w: Writer, stops: seq<PatternStop>, trip: Trip, date: Date): (Pattern, Writer)
  {
    var key := (stops, trip.routeId, date);
    if key in w.cache then (w.cache[key], w)
    else
      var p := Pattern(RealtimePattern(trip.id.feedId, w.next), trip.routeId, stops, [], true);
      (p, w.(cache := w.cache[key := p], next := w.next + 1))
  }

  /** A second lookup with the same key finds the pattern of the first and changes nothing. */
  lemma CachedPatternStable(w: Writer, stops: seq<PatternStop>, trip: Trip, date: Date)
    ensures var first := CachedPattern(w, stops, trip, date);
            CachedPattern(first.1, stops, trip, date) == first
  {
  }

  /** Lookups keep the cache valid and answer with a real-time pattern for the stops and route, with no scheduled trips. */
  lemma CachedPatternValid(w: Writer, stops: seq<PatternStop>, trip: Trip, date: Date)
    requires CacheValid(w.cache, w.next)
    ensures var r := CachedPattern(w, stops, trip, date);
            CacheValid(r.1.cache, r.1.next) && r.1.buffer == w.buffer && r.1.next >= w.next
            && r.0.stops == stops && r.0.routeId == trip.routeId && r.0.createdByRealtime && r.0.scheduled == []
  {
  }

  /** The buffer writes of `addTripToGraphAndBuffer`: the trip times, the dated service journey id if any, the trip times again. */
  function WrittenAddedTrip(b: Buffer, feedId: string, pattern: Pattern, tt: TripTimes, date: Date,
                            j: EstimatedVehicleJourney): (Buffer, bool)
  {
    var first := Update(b, pattern, tt, date).0;
    var dsj := DatedServiceJourneyRef(j);
    var second := if dsj.Some? then AddTripOnServiceDate(first, FeedScopedId(feedId, dsj.value), tt.trip.id, date) else first;
    Update(second, pattern, tt, date)
  }

  /** `addTripToGraphAndBuffer` on values. */
  function AddedToGraph(w: Writer, feedId: string, trip: Trip, stopTimes: seq<StopTime>, stops: Option<seq<Element>>,
                        tt: TripTimes, date: Date, j: EstimatedVehicleJourney): (Result<bool>, Writer)
  {
    if stops.None? then (Failure(NullPointer), w)
    else if |stopTimes| != |stops.value| then
      (Failure("IllegalArgumentException: number of stop should match the number of stop time updates"), w)
    else
      var c := CachedPattern(w, StopPatternOf(stopTimes), trip, date);
      var written := WrittenAddedTrip(c.1.buffer, feedId, c.0, tt, date, j);
      (Success(written.1), c.1.(buffer := written.0))
  }

  /** `cancelScheduledTrip` on values: a cancelled copy of the scheduled times goes into the date's timetable. */
  function ScheduledCancelled(ix: TransitIndex, b: Buffer, trip: Trip, date: Date): Buffer
  {
    var p := PatternOf(ix, trip);
    if p.None? then b
    else
      var tt := GetTripTimes(p.value.scheduled, trip.id);
      if tt.None? then b else Update(b, p.value, CancelTrip(tt.value), date).0
  }

  /** `removePreviousRealtimeUpdate` on values. */
  function PreviousRemoved(b: Buffer, trip: Trip, date: Date): Buffer
  {
    var p := RealtimeAddedTripPattern(b.contents, trip.id, date);
    if p.None? then b
    else RemoveRealtimeUpdatedTripTimes(RemoveLastAddedTripPattern(b, trip.id, date), p.value, trip.id, date)
  }

  /**
   * One (trip times, pattern) pair of Estimated Timetable `handleModifiedTrip`: the outcome,
   * the trip times the next pattern sees, and the new writer state.
   */
  function AppliedToPattern(ix: TransitIndex, col: Collaborators, feedId: string, j: EstimatedVehicleJourney, w: Writer,
                            tt: TripTimes, pattern: Pattern, date: Date): (Result<bool>, TripTimes, Writer)
  {
    if |tt.stops| != |pattern.stops| then (Success(false), tt, w)
    else if IsCanceled(tt) then
      var u := Update(w.buffer, pattern, tt, date);
      (Success(u.1), tt, w.(buffer := u.0))
    else
      var cleared := PreviousRemoved(ScheduledCancelled(ix, w.buffer, tt.trip, date), tt.trip, date);
      var ms := col.modifiedStops(pattern, j);
      if ms.Some? && |ms.value| == 0 then (Success(false), CancelTrip(tt), w.(buffer := cleared))
      else
        var a := AddedToGraph(w.(buffer := cleared), feedId, tt.trip, col.modifiedStopTimes(pattern, tt, j), ms, tt, date, j);
        (a.0, tt, a.1)
  }

  /** The inner loop of the update phase: trip times `tt` applied to the patterns from `k` on. */
  function PatternsApplied(ix: TransitIndex, col: Collaborators, feedId: string, j: EstimatedVehicleJourney,
                           patterns: seq<Pattern>, date: Date, w: Writer, k: nat, tt: TripTimes, acc: bool)
    : (Result<bool>, Writer)
    requires k <= |patterns|
    decreases |patterns| - k
  {
    if k == |patterns| then (Success(acc), w)
    else
      var a := AppliedToPattern(ix, col, feedId, j, w, tt, patterns[k], date);
      if a.0.Failure? then (Failure(a.0.error), a.2)
      else PatternsApplied(ix, col, feedId, j, patterns, date, a.2, k + 1, a.1, acc || a.0.value)
  }

  /** The update phase of `handleModifiedTrip`: every trip times from `i` on, applied to every pattern. */
  function PlanApplied(ix: TransitIndex, col: Collaborators, feedId: string, j: EstimatedVehicleJourney,
                       plan: ModifiedTripPlan, w: Writer, i: nat, acc: bool): (Result<bool>, Writer)
    requires i <= |plan.times|
    decreases |plan.times| - i
  {
    if i == |plan.times| then (Success(acc), w)
    else
      var r := PatternsApplied(ix, col, feedId, j, plan.patterns, plan.serviceDate, w, 0, plan.times[i], acc);
      if r.0.Failure? then r
      else PlanApplied(ix, col, feedId, j, plan, r.1, i + 1, r.0.value)
  }

  // ------------------------------------------- reading the snapshot, as values

  /** The published side: the last snapshot's contents (None before the first) and when it was taken. */
  datatype Published = Published(view: Option<Contents>, lastSnapshotTime: int)

  /** The public snapshot accessor with the lock: commits a dirty buffer once `freq` has passed, restamping the time. */
  function ReadSnapshot(b: Buffer, pub: Published, clock: int, freq: int): (Buffer, Published)
  {
    if clock - pub.lastSnapshotTime > freq then
      if b.dirty then (b.(dirty := false), Published(Some(b.contents), clock))
      else (b, pub.(lastSnapshotTime := clock))
    else (b, pub)
  }

  /** `handleTripPatternUpdate` on values: read the snapshot, update the pattern's current timetable for the date. */
  function PatternUpdated(col: Collaborators, b: Buffer, pub: Published, clock: int, freq: int, p: Pattern,
                          activity: VehicleActivity, tripId: FeedScopedId, date: Date): (Buffer, Published, bool)
  {
    var read := ReadSnapshot(b, pub, clock, freq);
    var updated := col.updatedTripTimesForActivity(CurrentTimetable(read.1.view, p, date), activity, tripId);
    if updated.None? then (read.0, read.1, false)
    else
      var u := Update(read.0, p, updated.value, date);
      (u.0, read.1, u.1)
  }

  /** The loop of Vehicle Monitoring `handleModifiedTrip`: the activity applied to the patterns from `k` on. */
  function PatternsUpdated(col: Collaborators, b: Buffer, pub: Published, clock: int, freq: int, ps: seq<Pattern>, k: nat,
                           activity: VehicleActivity, tripId: FeedScopedId, date: Date, acc: bool): (Buffer, Published, bool)
    requires k <= |ps|
    decreases |ps| - k
  {
    if k == |ps| then (b, pub, acc)
    else
      var u := PatternUpdated(col, b, pub, clock, freq, ps[k], activity, tripId, date);
      PatternsUpdated(col, u.0, u.1, clock, freq, ps, k + 1, activity, tripId, date, acc || u.2)
  }

  /**
   * The checks of Vehicle Monitoring `handleModifiedTrip` before its loop: the matched trip
   * and the patterns to update, None when the activity is skipped.
   */
  function VehiclePlan(ix: TransitIndex, col: Collaborators, feedId: string, activity: VehicleActivity, clock: Clock,
                       c: Contents): (r: Result<Option<(Trip, seq<Pattern>)>>)
  {
    if activity.validUntil.None? then Failure(NullPointer)
    else if activity.validUntil.value < clock.millis then Success(None)
    else if activity.monitoredVehicleJourney.None? then Success(None)
    else
      var mvj := activity.monitoredVehicleJourney.value;
      if mvj.vehicleRef.None? || mvj.lineRef.None? || IsFalse(mvj.monitored) then Success(None)
      else
        var trips := col.fuzzyMatchActivity(activity, feedId);
        if |trips| == 0 then Success(None)
        else
          var trip := VehicleTripForJourney(ix, trips, mvj, clock.systemToday);
          if trip.None? then Success(None)
          else
            var patterns := VehiclePatternsForTrip(ix, c, trips, mvj, clock.transitNow.date);
            if patterns.Failure? then Failure(patterns.error)
            else if patterns.value.None? then Success(None)
            else Success(Some((trip.value, patterns.value.value)))
  }

  /** At one instant, reading the snapshot a second time changes nothing. */
  lemma ReadSnapshotTwice(b: Buffer, pub: Published, clock: int, freq: int)
    ensures var once := ReadSnapshot(b, pub, clock, freq);
            ReadSnapshot(once.0, once.1, clock, freq) == once
  {
  }

  /** What `purgeExpiredData(today)` leaves: the last purge date, the buffer and whether anything went. */
  function PurgeOutcome(lastPurge: Option<Date>, b: Buffer, today: Date): (Option<Date>, Buffer, bool)
  {
    var cutoff := today - 2;
    if lastPurge.Some? && lastPurge.value > cutoff then (lastPurge, b, false)
    else
      var purged := Purge(b, cutoff);
      (Some(cutoff), purged.0, purged.1)
  }

  /**
   * The tail of a batch that did not throw, on values: the purge when enabled, then
   * `getTimetableSnapshot(force)`, forced exactly when the purge removed something.
   */
  function BatchPublished(purgeEnabled: bool, lastPurge: Option<Date>, b: Buffer, pub: Published, clock: Clock, freq: int)
    : (r: (Option<Date>, Buffer, Published))
    ensures var o := PurgeOutcome(lastPurge, b, clock.transitNow.date);
            var forced := purgeEnabled && o.2;
            var due := clock.millis - pub.lastSnapshotTime > freq;
            r.0 == (if purgeEnabled then o.0 else lastPurge)
            && r.1.contents == (if purgeEnabled then o.1.contents else b.contents)
            && (forced || (due && b.dirty) ==> r.2 == Published(Some(r.1.contents), clock.millis) && !r.1.dirty)
            && (!forced && due && !b.dirty ==> r.2 == pub.(lastSnapshotTime := clock.millis) && !r.1.dirty)
            && (!forced && !due ==> r.2 == pub && r.1.dirty == b.dirty)
  {
    var o := if purgeEnabled then PurgeOutcome(lastPurge, b, clock.transitNow.date) else (lastPurge, b, false);
    if o.2 then (o.0, o.1.(dirty := false), Published(Some(o.1.contents), clock.millis))
    else
      var rs := ReadSnapshot(o.1, pub, clock.millis, freq);
      (o.0, rs.0, rs.1)
  }

  // ------------------------------------------ whole journeys and batches, as values

  /** What an Estimated Timetable batch reads and writes: the writer state, the transit index, the trips by id and the published side. */
  datatype Updater = Updater(w: Writer, ix: TransitIndex, trips: map<FeedScopedId, Trip>, pub: Published)

  /**
   * The end of `handleAddedTrip` on values: the trip and a pattern holding its trip times
   * go into the index, then trip times whose times decrease are rejected and the others
   * are added to the graph and the buffer.
   */
  function AddedTripRegistered(feedId: string, j: EstimatedVehicleJourney, trip: Trip, date: Date, at: AddedTrip,
                               id: PatternId, s: Updater): (Result<bool>, Updater)
  {
    var pattern := Pattern(id, trip.routeId, StopPatternOf(at.aimedStopTimes), [at.tripTimes], false);
    var s1 := s.(ix := s.ix.(patternForTrip := s.ix.patternForTrip[trip.id := pattern]), trips := s.trips[trip.id := trip]);
    var a := IncreasingTripAdded(s1.w, feedId, j, trip, date, at);
    (a.0, s1.(w := a.1))
  }

  /** Trip times whose times decrease are rejected; the others are added to the graph and the buffer. */
  function IncreasingTripAdded(w: Writer, feedId: string, j: EstimatedVehicleJourney, trip: Trip, date: Date, at: AddedTrip)
    : (Result<bool>, Writer)
  {
    if !TimesIncreasing(at.tripTimes) then (Failure("IllegalStateException: Non-increasing triptimes for added trip"), w)
    else AddedToGraph(w, feedId, trip, at.aimedStopTimes, Some(at.stops), at.tripTimes, date, j)
  }

  /** The second half of `handleAddedTrip` on values: the pattern id is drawn once the aimed stop times are built. */
  function JourneyAdded(feedId: string, j: EstimatedVehicleJourney, trip: Trip, date: Date, calls: seq<EstimatedCall>,
                        s: Updater): (Result<bool>, Updater)
  {
    var aimed := AimedStopTimes(feedId, s.ix.stopsById, calls, |calls|);
    if aimed.Failure? then (Failure(aimed.error), s)
    else BuiltTripAdded(feedId, j, trip, date,
                        AddedTripOf(feedId, s.ix.stopsById, trip, calls, IsTrue(j.predictionInaccurate), IsTrue(j.cancellation)), s)
  }

  /** The rest of `handleAddedTrip` once the aimed stop times are built: the pattern id is drawn, then the built trip is registered. */
  function BuiltTripAdded(feedId: string, j: EstimatedVehicleJourney, trip: Trip, date: Date, built: Result<AddedTrip>,
                          s: Updater): (Result<bool>, Updater)
  {
    var id := RealtimePattern(trip.id.feedId, s.w.next);
    var s1 := s.(w := s.w.(next := s.w.next + 1));
    if built.Failure? then (Failure(built.error), s1)
    else AddedTripRegistered(feedId, j, trip, date, built.value, id, s1)
  }

  /** `handleAddedTrip` on values. */
  function AddedTripHandled(col: Collaborators, feedId: string, j: EstimatedVehicleJourney, s: Updater): (Result<bool>, Updater)
  {
    if j.estimatedVehicleJourneyCode.None? then (Failure("NullPointerException: EstimatedVehicleJourneyCode is required"), s)
    else if j.lineRef.None? then (Failure("NullPointerException: LineRef is required"), s)
    else if j.operatorRef.None? then (Failure("NullPointerException: OperatorRef is required"), s)
    else
      var sd := ServiceDateForJourney(j);
      if sd.Failure? then (Failure(sd.error), s)
      else if sd.value.None? then (Success(false), s)
      else
        var sid := col.serviceIdForDate(sd.value.value);
        if sid.None? then (Success(false), s)
        else if j.estimatedCalls.None? then (Failure(NullPointer), s)
        else
          var trip := Trip(FeedScopedId(feedId, j.estimatedVehicleJourneyCode.value), FeedScopedId(feedId, j.lineRef.value), sid.value);
          JourneyAdded(feedId, j, trip, sd.value.value, j.estimatedCalls.value, s)
  }

  /**
   * Estimated Timetable `handleModifiedTrip` on values: the matching phase reads the
   * published snapshot once when it reaches the accessor, then the plan is applied.
   */
  function ModifiedTripHandled(col: Collaborators, feedId: string, j: EstimatedVehicleJourney, clock: Clock, freq: int,
                               s: Updater): (Result<bool>, Updater)
  {
    var read := ReadSnapshot(s.w.buffer, s.pub, clock.millis, freq);
    var planned := PlanModifiedTrip(s.ix, col, feedId, j, clock.transitNow, read.1.view);
    var s1 := if planned.1 then s.(w := s.w.(buffer := read.0), pub := read.1) else s;
    if planned.0.Failure? then (Failure(planned.0.error), s1)
    else if planned.0.value.None? then (Success(false), s1)
    else
      var a := PlanApplied(s.ix, col, feedId, j, planned.0.value.value, s1.w, 0, false);
      (a.0, s1.(w := a.1))
  }

  /**
   * One journey of a version frame: an extra journey is added, any failure of it counted
   * as skipped; any other journey is modified, and an exception from that ends the batch.
   */
  function JourneyApplied(col: Collaborators, feedId: string, j: EstimatedVehicleJourney, clock: Clock, freq: int,
                          s: Updater, c: Counters): (Result<Counters>, Updater)
  {
    if IsTrue(j.extraJourney) then ExtraJourneyCounted(AddedTripHandled(col, feedId, j, s), c)
    else ModifiedJourneyCounted(ModifiedTripHandled(col, feedId, j, clock, freq, s), j, c)
  }

  /** An extra journey, given what `handleAddedTrip` did: counted as added when it returned true, and as skipped otherwise. */
  function ExtraJourneyCounted(a: (Result<bool>, Updater), c: Counters): (Result<Counters>, Updater)
  {
    (Success(if a.0 == Success(true) then c.(added := c.added + 1) else c.(skipped := c.skipped + 1)), a.1)
  }

  /** Any other journey, given what `handleModifiedTrip` did: counted as handled, not monitored or skipped; an exception is passed on. */
  function ModifiedJourneyCounted(m: (Result<bool>, Updater), j: EstimatedVehicleJourney, c: Counters): (Result<Counters>, Updater)
  {
    if m.0.Failure? then (Failure(m.0.error), m.1)
    else if m.0.value then (Success(c.(handled := c.handled + 1)), m.1)
    else if IsFalse(j.monitored) then (Success(c.(notMonitored := c.notMonitored + 1)), m.1)
    else (Success(c.(skipped := c.skipped + 1)), m.1)
  }

  /** The journeys of one version frame from `i` on, in order, each to the state its predecessor left. */
  function FrameApplied(col: Collaborators, feedId: string, js: seq<EstimatedVehicleJourney>, clock: Clock, freq: int,
                        s: Updater, i: nat, c: Counters): (Result<Counters>, Updater)
    requires i <= |js|
    decreases |js| - i
  {
    if i == |js| then (Success(c), s)
    else
      var a := JourneyApplied(col, feedId, js[i], clock, freq, s, c);
      if a.0.Failure? then a
      else FrameApplied(col, feedId, js, clock, freq, a.1, i + 1, a.0.value)
  }

  /** The version frames of one delivery from `n` on, one counter record per frame. */
  function FramesApplied(col: Collaborators, feedId: string, frames: seq<EstimatedVersionFrame>, clock: Clock, freq: int,
                         s: Updater, n: nat, acc: seq<Counters>): (Result<seq<Counters>>, Updater)
    requires n <= |frames|
    decreases |frames| - n
  {
    if n == |frames| then (Success(acc), s)
    else
      var f := FrameApplied(col, feedId, frames[n].journeys, clock, freq, s, 0, Counters(0, 0, 0, 0));
      if f.0.Failure? then (Failure(f.0.error), f.1)
      else FramesApplied(col, feedId, frames, clock, freq, f.1, n + 1, acc + [f.0.value])
  }

  /** The deliveries of an Estimated Timetable batch from `d` on, before the purge and the snapshot. */
  function DeliveriesApplied(col: Collaborators, feedId: string, ds: seq<EstimatedTimetableDelivery>, clock: Clock, freq: int,
                             s: Updater, d: nat, acc: seq<Counters>): (Result<seq<Counters>>, Updater)
    requires d <= |ds|
    decreases |ds| - d
  {
    if d == |ds| then (Success(acc), s)
    else
      var frames := if ds[d].versionFrames.Some? then ds[d].versionFrames.value else [];
      var f := FramesApplied(col, feedId, frames, clock, freq, s, 0, []);
      if f.0.Failure? then (Failure(f.0.error), f.1)
      else DeliveriesApplied(col, feedId, ds, clock, freq, f.1, d + 1, acc + f.0.value)
  }

  /** Vehicle Monitoring `handleModifiedTrip` on values. */
  function VehicleHandled(ix: TransitIndex, col: Collaborators, feedId: string, activity: VehicleActivity, serviceDate: Date,
                          clock: Clock, freq: int, b: Buffer, pub: Published): (Result<bool>, Buffer, Published)
  {
    var plan := VehiclePlan(ix, col, feedId, activity, clock, b.contents);
    if plan.Failure? then (Failure(plan.error), b, pub)
    else if plan.value.None? then (Success(false), b, pub)
    else
      var out := PatternsUpdated(col, b, pub, clock.millis, freq, plan.value.value.1, 0, activity, plan.value.value.0.id,
                                 serviceDate, false);
      (Success(out.2), out.0, out.1)
  }

  /** The activities of one delivery from `i` on, in order; an exception ends the batch. */
  function ActivitiesApplied(ix: TransitIndex, col: Collaborators, feedId: string, activities: seq<VehicleActivity>,
                             serviceDate: Date, clock: Clock, freq: int, b: Buffer, pub: Published, i: nat, c: Counters)
    : (Result<Counters>, Buffer, Published)
    requires i <= |activities|
    decreases |activities| - i
  {
    if i == |activities| then (Success(c), b, pub)
    else
      var h := VehicleHandled(ix, col, feedId, activities[i], serviceDate, clock, freq, b, pub);
      if h.0.Failure? then (Failure(h.0.error), h.1, h.2)
      else
        var c' := if h.0.value then c.(handled := c.handled + 1) else c.(skipped := c.skipped + 1);
        ActivitiesApplied(ix, col, feedId, activities, serviceDate, clock, freq, h.1, h.2, i + 1, c')
  }

  /** The deliveries of a Vehicle Monitoring batch from `d` on, for today's date in the transit zone. */
  function VehicleDeliveriesApplied(ix: TransitIndex, col: Collaborators, feedId: string, ds: seq<VehicleMonitoringDelivery>,
                                    clock: Clock, freq: int, b: Buffer, pub: Published, d: nat, acc: seq<Counters>)
    : (Result<seq<Counters>>, Buffer, Published)
    requires d <= |ds|
    decreases |ds| - d
  {
    if d == |ds| then (Success(acc), b, pub)
    else if ds[d].vehicleActivities.None? then VehicleDeliveriesApplied(ix, col, feedId, ds, clock, freq, b, pub, d + 1, acc)
    else
      var a := ActivitiesApplied(ix, col, feedId, ds[d].vehicleActivities.value, clock.transitNow.date, clock, freq, b, pub,
                                 0, Counters(0, 0, 0, 0));
      if a.0.Failure? then (Failure(a.0.error), a.1, a.2)
      else VehicleDeliveriesApplied(ix, col, feedId, ds, clock, freq, a.1, a.2, d + 1, acc + [a.0.value])
  }

  /** `addTripToGraphAndBuffer` accepts trip times with one stop per stop time and increasing times, and makes them visible. */
  lemma AddedToGraphAccepts(w: Writer, feedId: string, trip: Trip, stopTimes: seq<StopTime>, stops: seq<Element>,
                            tt: TripTimes, date: Date, j: EstimatedVehicleJourney)
    requires CacheValid(w.cache, w.next)
    requires |stopTimes| == |stops| == |tt.stops| && TimesIncreasing(tt) && tt.trip == trip
    ensures AddedToGraph(w, feedId, trip, stopTimes, Some(stops), tt, date, j).0 == Success(true)
    ensures var c := AddedToGraph(w, feedId, trip, stopTimes, Some(stops), tt, date, j).1.buffer.contents;
            var p := RealtimeAddedTripPattern(c, trip.id, date);
            p.Some? && p.value.stops == StopPatternOf(stopTimes) && GetTripTimes(Resolve(c, p.value, Some(date)), trip.id) == Some(tt)
  {
    var c := CachedPattern(w, StopPatternOf(stopTimes), trip, date);
    CachedPatternValid(w, StopPatternOf(stopTimes), trip, date);
    var first := Update(c.1.buffer, c.0, tt, date).0;
    var dsj := DatedServiceJourneyRef(j);
    var second := if dsj.Some? then AddTripOnServiceDate(first, FeedScopedId(feedId, dsj.value), trip.id, date) else first;
    assert Update(second, c.0, tt, date).1;
    UpdateIsVisible(second, c.0, tt, date);
  }

  /** A built added trip has one stop, one aimed stop time and one stop's trip times per call. */
  lemma AddedTripShape(feedId: string, stopsById: map<FeedScopedId, Element>, trip: Trip, calls: seq<EstimatedCall>,
                       journeyInaccurate: bool, journeyCancelled: bool)
    requires AddedTripOf(feedId, stopsById, trip, calls, journeyInaccurate, journeyCancelled).Success?
    ensures var at := AddedTripOf(feedId, stopsById, trip, calls, journeyInaccurate, journeyCancelled).value;
            AimedStopTimes(feedId, stopsById, calls, |calls|) == Success(at.aimedStopTimes)
            && |at.aimedStopTimes| == |at.stops| == |at.tripTimes.stops| == |calls| && at.tripTimes.trip == trip
  {
  }

  /** The second half of `handleAddedTrip` accepts a built added trip with increasing times. */
  lemma JourneyAddedAccepts(feedId: string, j: EstimatedVehicleJourney, trip: Trip, date: Date, calls: seq<EstimatedCall>,
                            s: Updater)
    requires CacheValid(s.w.cache, s.w.next)
    requires AddedTripOf(feedId, s.ix.stopsById, trip, calls, IsTrue(j.predictionInaccurate), IsTrue(j.cancellation)).Success?
    requires TimesIncreasing(AddedTripOf(feedId, s.ix.stopsById, trip, calls, IsTrue(j.predictionInaccurate),
                                         IsTrue(j.cancellation)).value.tripTimes)
    ensures JourneyAdded(feedId, j, trip, date, calls, s).0 == Success(true)
    ensures AddedTripVisible(JourneyAdded(feedId, j, trip, date, calls, s).1.w.buffer.contents, trip, date,
                             AddedTripOf(feedId, s.ix.stopsById, trip, calls, IsTrue(j.predictionInaccurate), IsTrue(j.cancellation)))
    ensures JourneyAdded(feedId, j, trip, date, calls, s).1.trips == s.trips[trip.id := trip]
  {
    var built := AddedTripOf(feedId, s.ix.stopsById, trip, calls, IsTrue(j.predictionInaccurate), IsTrue(j.cancellation));
    AddedTripShape(feedId, s.ix.stopsById, trip, calls, IsTrue(j.predictionInaccurate), IsTrue(j.cancellation));
    assert JourneyAdded(feedId, j, trip, date, calls, s) == BuiltTripAdded(feedId, j, trip, date, built, s);
    BuiltTripAccepted(feedId, j, trip, date, built.value, s);
  }

  /**
   * The second loop of `handleAddedTrip` and the trip's final state: from the aimed stop
   * times of the first loop, the added trip as `AddedTripOf` builds it.
   */
  method FinishAddedTrip(feedId: string, stopsById: map<FeedScopedId, Element>, trip: Trip, calls: seq<EstimatedCall>,
                         journeyInaccurate: bool, journeyCancelled: bool,
                         aimed: seq<StopTime>, addedStops: seq<Element>, departureTime: Option<DateTime>)
    returns (r: Result<AddedTrip>)
    requires AimedStopTimes(feedId, stopsById, calls, |calls|) == Success(aimed)
    requires addedStops == seq(|aimed|, i requires 0 <= i < |aimed| => aimed[i].stop)
    requires departureTime == FirstAimedDeparture(calls)
    ensures r == AddedTripOf(feedId, stopsById, trip, calls, journeyInaccurate, journeyCancelled)
    ensures r.Success? ==> r.value.stops == addedStops && r.value.aimedStopTimes == aimed && r.value.tripTimes.trip == trip
  {
    var stops := BuildRealtimeStops(aimed, calls, departureTime, journeyInaccurate);
    if stops.Failure? {
      return Failure(stops.error);
    }
    var tripTimes := TripTimes(trip, stops.value, Scheduled);
    if journeyCancelled {
      tripTimes := CancelTrip(tripTimes);
    } else {
      tripTimes := tripTimes.(state := Added);
    }
    AddedTripOfUnfold(feedId, stopsById, trip, calls, journeyInaccurate, journeyCancelled, aimed, stops.value);
    r := Success(AddedTrip(addedStops, aimed, tripTimes));
  }

  /** A built trip is registered under the next pattern id, after the counter has moved on. */
  lemma BuiltTripRegistered(feedId: string, j: EstimatedVehicleJourney, trip: Trip, date: Date, at: AddedTrip, s: Updater)
    ensures BuiltTripAdded(feedId, j, trip, date, Success(at), s)
            == AddedTripRegistered(feedId, j, trip, date, at, RealtimePattern(trip.id.feedId, s.w.next),
                                   s.(w := s.w.(next := s.w.next + 1)))
  {
  }

  /** The registration of a built trip accepts trip times with one stop per aimed stop time and increasing times. */
  lemma AddedTripRegisteredAccepts(feedId: string, j: EstimatedVehicleJourney, trip: Trip, date: Date, at: AddedTrip,
                                   id: PatternId, s: Updater)
    requires CacheValid(s.w.cache, s.w.next)
    requires |at.aimedStopTimes| == |at.stops| == |at.tripTimes.stops| && TimesIncreasing(at.tripTimes) && at.tripTimes.trip == trip
    ensures AddedTripRegistered(feedId, j, trip, date, at, id, s).0 == Success(true)
    ensures AddedTripVisible(AddedTripRegistered(feedId, j, trip, date, at, id, s).1.w.buffer.contents, trip, date, Success(at))
    ensures AddedTripRegistered(feedId, j, trip, date, at, id, s).1.trips == s.trips[trip.id := trip]
  {
    var pattern := Pattern(id, trip.routeId, StopPatternOf(at.aimedStopTimes), [at.tripTimes], false);
    var s1 := s.(ix := s.ix.(patternForTrip := s.ix.patternForTrip[trip.id := pattern]), trips := s.trips[trip.id := trip]);
    AddedToGraphAccepts(s1.w, feedId, trip, at.aimedStopTimes, at.stops, at.tripTimes, date, j);
  }

  /** The end of `handleAddedTrip` accepts trip times with one stop per aimed stop time and increasing times. */
  lemma BuiltTripAccepted(feedId: string, j: EstimatedVehicleJourney, trip: Trip, date: Date, at: AddedTrip, s: Updater)
    requires CacheValid(s.w.cache, s.w.next)
    requires |at.aimedStopTimes| == |at.stops| == |at.tripTimes.stops| && TimesIncreasing(at.tripTimes) && at.tripTimes.trip == trip
    ensures BuiltTripAdded(feedId, j, trip, date, Success(at), s).0 == Success(true)
    ensures AddedTripVisible(BuiltTripAdded(feedId, j, trip, date, Success(at), s).1.w.buffer.contents, trip, date, Success(at))
    ensures BuiltTripAdded(feedId, j, trip, date, Success(at), s).1.trips == s.trips[trip.id := trip]
  {
    var s1 := s.(w := s.w.(next := s.w.next + 1));
    BuiltTripRegistered(feedId, j, trip, date, at, s);
    AddedTripRegisteredAccepts(feedId, j, trip, date, at, RealtimePattern(trip.id.feedId, s.w.next), s1);
  }

  /**
   * An extra journey with code, line, operator, a service date with a service id and calls
   * whose stop times and trip times can be built, with increasing times, is accepted and
   * becomes visible for its date.
   */
  lemma AddedTripAccepted(col: Collaborators, feedId: string, j: EstimatedVehicleJourney, s: Updater, date: Date, trip: Trip)
    requires CacheValid(s.w.cache, s.w.next)
    requires j.estimatedVehicleJourneyCode.Some? && j.lineRef.Some? && j.operatorRef.Some? && j.estimatedCalls.Some?
    requires ServiceDateForJourney(j) == Success(Some(date)) && col.serviceIdForDate(date).Some?
    requires trip == Trip(FeedScopedId(feedId, j.estimatedVehicleJourneyCode.value), FeedScopedId(feedId, j.lineRef.value),
                          col.serviceIdForDate(date).value)
    requires AddedTripOf(feedId, s.ix.stopsById, trip, j.estimatedCalls.value, IsTrue(j.predictionInaccurate), IsTrue(j.cancellation)).Success?
    requires TimesIncreasing(AddedTripOf(feedId, s.ix.stopsById, trip, j.estimatedCalls.value, IsTrue(j.predictionInaccurate),
                                         IsTrue(j.cancellation)).value.tripTimes)
    ensures AddedTripHandled(col, feedId, j, s).0 == Success(true)
    ensures AddedTripVisible(AddedTripHandled(col, feedId, j, s).1.w.buffer.contents, trip, date,
                             AddedTripOf(feedId, s.ix.stopsById, trip, j.estimatedCalls.value, IsTrue(j.predictionInaccurate),
                                         IsTrue(j.cancellation)))
    ensures AddedTripHandled(col, feedId, j, s).1.trips == s.trips[trip.id := trip]
  {
    assert AddedTripHandled(col, feedId, j, s) == JourneyAdded(feedId, j, trip, date, j.estimatedCalls.value, s);
    JourneyAddedAccepts(feedId, j, trip, date, j.estimatedCalls.value, s);
  }

  /**
   * Journeys that are neither extra, monitored nor cancelled are counted as not monitored
   * and leave the whole state as it was: no snapshot is read for them.
   */
  lemma {:induction false} IgnoredJourneysLeaveStateAlone(col: Collaborators, feedId: string, js: seq<EstimatedVehicleJourney>,
                                                          clock: Clock, freq: int, s: Updater, i: nat, c: Counters)
    requires i <= |js|
    requires forall k :: i <= k < |js| ==> !IsTrue(js[k].extraJourney) && IsFalse(js[k].monitored) && IsFalse(js[k].cancellation)
    ensures FrameApplied(col, feedId, js, clock, freq, s, i, c) == (Success(c.(notMonitored := c.notMonitored + (|js| - i))), s)
    decreases |js| - i
  {
    if i < |js| {
      IgnoredJourneysLeaveStateAlone(col, feedId, js, clock, freq, s, i + 1, c.(notMonitored := c.notMonitored + 1));
    }
  }

  /** Activities that are no longer valid at the batch's instant are skipped and change nothing. */
  lemma {:induction false} ExpiredActivitiesLeaveStateAlone(ix: TransitIndex, col: Collaborators, feedId: string,
                                                            activities: seq<VehicleActivity>, serviceDate: Date, clock: Clock,
                                                            freq: int, b: Buffer, pub: Published, i: nat, c: Counters)
    requires i <= |activities|
    requires forall k :: i <= k < |activities| ==>
               activities[k].validUntil.Some? && activities[k].validUntil.value < clock.millis
    ensures ActivitiesApplied(ix, col, feedId, activities, serviceDate, clock, freq, b, pub, i, c)
            == (Success(c.(skipped := c.skipped + (|activities| - i))), b, pub)
    decreases |activities| - i
  {
    if i < |activities| {
      ExpiredActivitiesLeaveStateAlone(ix, col, feedId, activities, serviceDate, clock, freq, b, pub, i + 1,
                                       c.(skipped := c.skipped + 1));
    }
  }

  class SiriTimetableSnapshotSource {
    /** The working copy, private to the writer. */
    var buffer: Buffer
    /** The last published snapshot, null until the first commit. */
    var snapshot: Snapshot?
    var lastSnapshotTime: int
    var lastPurgeDate: Option<Date>
    var maxSnapshotFrequency: int
    var purgeExpiredData: bool
    /** The transit model's patterns by trip, calendars and stops; added trips extend the patterns. */
    var index: TransitIndex
    /** The transit model's trips by id. */
    var tripForId: map<FeedScopedId, Trip>
    /** Trip patterns created for real-time stop patterns, by stop pattern and route. */
    var patternCache: PatternCache
    /** The trip pattern id generator's next number. */
    var nextPatternNumber: nat
    const collab: Collaborators

    /** The pattern cache is valid. */
    predicate Valid()
      reads this
    {
      CacheValid(patternCache, nextPatternNumber)
    }

    /** The state an Estimated Timetable update writes. */
    function State(): Writer
      reads this
    {
      Writer(buffer, patternCache, nextPatternNumber)
    }

    /** The state an Estimated Timetable batch reads and writes. */
    function UpdaterState(): Updater
      reads this
    {
      Updater(State(), index, tripForId, PublishedState())
    }

    /** The published side as a value. */
    function PublishedState(): Published
      reads this
    {
      Published(View(), lastSnapshotTime)
    }

    constructor (index: TransitIndex, tripForId: map<FeedScopedId, Trip>, collab: Collaborators)
      ensures Valid()
      ensures buffer == EmptyBuffer && snapshot == null && lastSnapshotTime == -1 && lastPurgeDate == None
      ensures maxSnapshotFrequency == 1000 && purgeExpiredData
      ensures this.index == index && this.tripForId == tripForId && this.collab == collab
      ensures patternCache == map[] && nextPatternNumber == 0
    {
      buffer := EmptyBuffer;
      snapshot := null;
      lastSnapshotTime := -1;
      lastPurgeDate := None;
      maxSnapshotFrequency := 1000;
      purgeExpiredData := true;
      this.index := index;
      this.tripForId := tripForId;
      patternCache := map[];
      nextPatternNumber := 0;
      this.collab := collab;
    }

    /** The contents of the published snapshot, None while there is none. */
    function View(): Option<Contents>
      reads this
    {
      if snapshot == null then None else Some(snapshot.contents)
    }

    /** Asking for a snapshot at `clock` would commit the buffer. */
    predicate CommitDue(clock: int)
      reads this
    {
      clock - lastSnapshotTime > maxSnapshotFrequency && buffer.dirty
    }

    /** What the public accessor would return at `clock`. */
    function ViewAfterAccess(clock: int): (r: Option<Contents>)
      reads this
      ensures !CommitDue(clock) ==> r == View()
      ensures CommitDue(clock) ==> r == Some(buffer.contents)
    {
      if CommitDue(clock) then Some(buffer.contents) else View()
    }

    /**
     * `getTimetableSnapshot(force)`: within `maxSnapshotFrequency` of the last snapshot and
     * not forced, the previous snapshot is returned and nothing changes; otherwise the buffer
     * is committed when forced or dirty, and the snapshot time is restamped either way.
     */
    method GetTimetableSnapshot(force: bool, clock: int) returns (s: Snapshot?)
      modifies this`snapshot, this`lastSnapshotTime, this`buffer
      ensures s == snapshot
      ensures buffer.contents == old(buffer.contents)
      ensures !force && clock - old(lastSnapshotTime) <= maxSnapshotFrequency ==>
                snapshot == old(snapshot) && lastSnapshotTime == old(lastSnapshotTime) && buffer == old(buffer)
      ensures force || clock - old(lastSnapshotTime) > maxSnapshotFrequency ==> lastSnapshotTime == clock
      ensures (force || clock - old(lastSnapshotTime) > maxSnapshotFrequency) && (force || old(buffer.dirty)) ==>
                snapshot != null && fresh(snapshot) && snapshot.contents == old(buffer.contents) && !buffer.dirty
      ensures !force && !old(buffer.dirty) ==> snapshot == old(snapshot) && buffer == old(buffer)
      ensures View() == if force then Some(old(buffer.contents)) else old(ViewAfterAccess(clock))
      ensures !force ==> (buffer, PublishedState()) == old(ReadSnapshot(buffer, PublishedState(), clock, maxSnapshotFrequency))
    {
      if force || clock - lastSnapshotTime > maxSnapshotFrequency {
        if force || buffer.dirty {
          snapshot := new Snapshot.Commit(buffer);
          buffer := buffer.(dirty := false);
        }
        lastSnapshotTime := clock;
      }
      s := snapshot;
    }

    /**
     * The public `getTimetableSnapshot()`: with the lock, the non-forcing commit path;
     * without it, the current snapshot.  Afterwards no commit is due at the same instant, so
     * asking again at that instant changes nothing.
     */
    method ReaderSnapshot(lockAvailable: bool, clock: int) returns (s: Snapshot?)
      modifies this`snapshot, this`lastSnapshotTime, this`buffer
      ensures s == snapshot
      ensures buffer.contents == old(buffer.contents)
      ensures !lockAvailable ==> snapshot == old(snapshot) && lastSnapshotTime == old(lastSnapshotTime) && buffer == old(buffer)
      ensures lockAvailable ==> View() == old(ViewAfterAccess(clock)) && !CommitDue(clock)
      ensures old(!CommitDue(clock)) ==> snapshot == old(snapshot) && buffer == old(buffer)
      ensures lockAvailable ==> (buffer, PublishedState()) == old(ReadSnapshot(buffer, PublishedState(), clock, maxSnapshotFrequency))
    {
      if lockAvailable {
        s := GetTimetableSnapshot(false, clock);
      } else {
        s := snapshot;
      }
    }

    /**
     * `purgeExpiredData`: with cutoff two days before today, does nothing when the last
     * purge date is after the cutoff; otherwise records the cutoff and purges the buffer
     * up to and including it, telling whether anything went.
     */
    method PurgeExpiredData(today: Date) returns (modified: bool)
      modifies this`buffer, this`lastPurgeDate
      ensures var cutoff := today - 2;
              old(lastPurgeDate).Some? && old(lastPurgeDate).value > cutoff ==>
                !modified && buffer == old(buffer) && lastPurgeDate == old(lastPurgeDate)
      ensures var cutoff := today - 2;
              !(old(lastPurgeDate).Some? && old(lastPurgeDate).value > cutoff) ==>
                lastPurgeDate == Some(cutoff) && (buffer, modified) == Purge(old(buffer), cutoff)
      ensures (lastPurgeDate, buffer, modified) == old(PurgeOutcome(lastPurgeDate, buffer, today))
    {
      var previously := today - 2;
      if lastPurgeDate.Some? && lastPurgeDate.value > previously {
        return false;
      }
      lastPurgeDate := Some(previously);
      var purged := Purge(buffer, previously);
      buffer := purged.0;
      modified := purged.1;
    }

    /**
     * `cancelScheduledTrip`: writes a cancelled copy of the trip's scheduled times into the
     * date's timetable of its pattern; the pattern's scheduled timetable stays as it is.
     */
    method CancelScheduledTrip(trip: Trip, date: Date) returns (success: bool)
      modifies this`buffer
      ensures buffer == ScheduledCancelled(index, old(buffer), trip, date)
      ensures success <==> PatternOf(index, trip).Some? && GetTripTimes(PatternOf(index, trip).value.scheduled, trip.id).Some?
      ensures !success ==> buffer == old(buffer)
      ensures success ==>
                var p := PatternOf(index, trip).value;
                buffer == Update(old(buffer), p, CancelTrip(GetTripTimes(p.scheduled, trip.id).value), date).0
      ensures SameOutside(old(buffer).contents, buffer.contents, date)
    {
      var pattern := PatternOf(index, trip);
      if pattern.None? {
        return false;
      }
      var tripTimes := GetTripTimes(pattern.value.scheduled, trip.id);
      if tripTimes.None? {
        return false;
      }
      var newTripTimes := CancelTrip(tripTimes.value);
      var updated := Update(buffer, pattern.value, newTripTimes, date);
      buffer := updated.0;
      success := true;
    }

    /**
     * `removePreviousRealtimeUpdate`: forgets the real-time pattern of (trip, date) and the
     * trip's times in that pattern's timetable for the date, when there is such a pattern.
     */
    method RemovePreviousRealtimeUpdate(trip: Trip, date: Date) returns (success: bool)
      modifies this`buffer
      ensures buffer == PreviousRemoved(old(buffer), trip, date)
      ensures success <==> old(RealtimeAddedTripPattern(buffer.contents, trip.id, date)).Some?
      ensures !success ==> buffer == old(buffer)
      ensures RealtimeAddedTripPattern(buffer.contents, trip.id, date).None?
      ensures success ==>
                var p := old(RealtimeAddedTripPattern(buffer.contents, trip.id, date)).value;
                buffer == RemoveRealtimeUpdatedTripTimes(RemoveLastAddedTripPattern(old(buffer), trip.id, date), p, trip.id, date)
      ensures success ==>
                var p := old(RealtimeAddedTripPattern(buffer.contents, trip.id, date)).value;
                (p.id, date) in old(buffer).contents.timetables && UniqueTrips(old(buffer).contents.timetables[(p.id, date)]) ==>
                  GetTripTimes(Resolve(buffer.contents, p, Some(date)), trip.id).None?
      ensures SameOutside(old(buffer).contents, buffer.contents, date)
    {
      var pattern := RealtimeAddedTripPattern(buffer.contents, trip.id, date);
      if pattern.None? {
        return false;
      }
      var b1 := RemoveLastAddedTripPattern(buffer, trip.id, date);
      buffer := RemoveRealtimeUpdatedTripTimes(b1, pattern.value, trip.id, date);
      SameOutsideTransitive(old(buffer).contents, b1.contents, buffer.contents, date);
      success := true;
    }

    /**
     * The pattern cache: the same stop pattern on the same route for the same service date
     * gives the same pattern. A new pattern has an empty scheduled timetable, since
     * `addTripToGraphAndBuffer` clears the trip times it has just put there.
     */
    method GetOrCreatePattern(stops: seq<PatternStop>, trip: Trip, date: Date) returns (p: Pattern)
      requires Valid()
      modifies this`patternCache, this`nextPatternNumber
      ensures Valid()
      ensures p.stops == stops && p.routeId == trip.routeId && p.createdByRealtime && p.scheduled == []
      ensures (stops, trip.routeId, date) in old(patternCache) ==>
                p == old(patternCache)[(stops, trip.routeId, date)] && patternCache == old(patternCache)
      ensures (stops, trip.routeId, date) !in old(patternCache) ==>
                p.id == RealtimePattern(trip.id.feedId, old(nextPatternNumber))
                && patternCache == old(patternCache)[(stops, trip.routeId, date) := p]
      ensures patternCache[(stops, trip.routeId, date)] == p
      ensures (p, State()) == old(CachedPattern(State(), stops, trip, date))
      ensures nextPatternNumber >= old(nextPatternNumber)
    {
      var key := (stops, trip.routeId, date);
      if key in patternCache {
        return patternCache[key];
      }
      p := Pattern(RealtimePattern(trip.id.feedId, nextPatternNumber), trip.routeId, stops, [], true);
      nextPatternNumber := nextPatternNumber + 1;
      patternCache := patternCache[key := p];
    }

    /**
     * `addTripToGraphAndBuffer`: fails on missing stops or a stop count differing from the
     * stop times'; otherwise writes the trip times into the date's timetable of the cached
     * pattern for the stop pattern, registers that pattern for (trip, date) and the dated
     * service journey id if the journey has one, and tells whether the update was accepted.
     */
    method AddTripToGraphAndBuffer(feedId: string, trip: Trip, stopTimes: seq<StopTime>, stops: Option<seq<Element>>,
                                   tripTimes: TripTimes, date: Date, j: EstimatedVehicleJourney)
      returns (r: Result<bool>)
      requires Valid()
      requires tripTimes.trip == trip
      modifies this`buffer, this`patternCache, this`nextPatternNumber
      ensures Valid()
      ensures stops.None? || |stopTimes| != |stops.value| ==> r.Failure? && buffer == old(buffer)
      ensures r.Success? <==> stops.Some? && |stopTimes| == |stops.value|
      ensures r.Success? ==> (r.value <==> |tripTimes.stops| == |stopTimes| && TimesIncreasing(tripTimes))
      ensures r.Success? ==> (StopPatternOf(stopTimes), trip.routeId, date) in patternCache
      ensures (r, State()) == old(AddedToGraph(State(), feedId, trip, stopTimes, stops, tripTimes, date, j))
      ensures r.Success? && r.value ==>
                var p := RealtimeAddedTripPattern(buffer.contents, trip.id, date);
                p.Some? && p.value.stops == StopPatternOf(stopTimes) && p.value.createdByRealtime
                && p.value.scheduled == [] && p == Some(patternCache[(StopPatternOf(stopTimes), trip.routeId, date)])
                && GetTripTimes(Resolve(buffer.contents, p.value, Some(date)), trip.id) == Some(tripTimes)
      ensures r.Success? && DatedServiceJourneyRef(j).Some? ==>
                buffer.contents.datedServiceJourneys
                  == old(buffer.contents.datedServiceJourneys)[FeedScopedId(feedId, DatedServiceJourneyRef(j).value) := (trip.id, date)]
      ensures DatedServiceJourneyRef(j).None? ==> buffer.contents.datedServiceJourneys == old(buffer.contents.datedServiceJourneys)
      ensures !(r.Success? && r.value) ==> buffer.contents.realtimeAdded == old(buffer.contents.realtimeAdded)
      ensures SameOutside(old(buffer).contents, buffer.contents, date)
    {
      if stops.None? {
        return Failure(NullPointer);
      }
      if |stopTimes| != |stops.value| {
        return Failure("IllegalArgumentException: number of stop should match the number of stop time updates");
      }
      ghost var c := CachedPattern(State(), StopPatternOf(stopTimes), trip, date);
      var pattern := GetOrCreatePattern(StopPatternOf(stopTimes), trip, date);
      assert pattern == c.0 && buffer == c.1.buffer;
      r := WriteAddedTrip(feedId, pattern, tripTimes, date, j);
      assert State() == c.1.(buffer := buffer);
    }

    /**
     * The buffer writes of `addTripToGraphAndBuffer` for the cached pattern: the trip times,
     * then the dated service journey id if there is one, then the trip times once more.
     */
    method WriteAddedTrip(feedId: string, pattern: Pattern, tripTimes: TripTimes, date: Date, j: EstimatedVehicleJourney)
      returns (r: Result<bool>)
      requires pattern.createdByRealtime
      modifies this`buffer
      ensures r.Success? && (buffer, r.value) == WrittenAddedTrip(old(buffer), feedId, pattern, tripTimes, date, j)
      ensures r.Success? && (r.value <==> |tripTimes.stops| == |pattern.stops| && TimesIncreasing(tripTimes))
      ensures r.value ==>
                var p := RealtimeAddedTripPattern(buffer.contents, tripTimes.trip.id, date);
                p == Some(pattern) && GetTripTimes(Resolve(buffer.contents, pattern, Some(date)), tripTimes.trip.id) == Some(tripTimes)
      ensures DatedServiceJourneyRef(j).Some? ==>
                buffer.contents.datedServiceJourneys
                  == old(buffer.contents.datedServiceJourneys)[FeedScopedId(feedId, DatedServiceJourneyRef(j).value) := (tripTimes.trip.id, date)]
      ensures DatedServiceJourneyRef(j).None? ==> buffer.contents.datedServiceJourneys == old(buffer.contents.datedServiceJourneys)
      ensures !r.value ==> buffer.contents.realtimeAdded == old(buffer.contents.realtimeAdded)
      ensures SameOutside(old(buffer).contents, buffer.contents, date)
    {
      var b0 := buffer;
      var first := Update(b0, pattern, tripTimes, date);
      var b1 := first.0;
      var dsj := DatedServiceJourneyRef(j);
      var b2 := b1;
      if dsj.Some? {
        b2 := AddTripOnServiceDate(b1, FeedScopedId(feedId, dsj.value), tripTimes.trip.id, date);
      }
      assert SameOutside(b1.contents, b2.contents, date);
      var second := Update(b2, pattern, tripTimes, date);
      SameOutsideTransitive(b0.contents, b1.contents, b2.contents, date);
      SameOutsideTransitive(b0.contents, b2.contents, second.0.contents, date);
      if second.1 {
        UpdateIsVisible(b2, pattern, tripTimes, date);
      }
      buffer := second.0;
      return Success(second.1);
    }

    /**
     * `handleAddedTrip`: the journey's code, line and operator are required; without a
     * service date or a service id for it the journey is not added.  The trip is given the
     * stop times and trip times built from the estimated calls, is put into the index, and
     * fails with non-increasing times; otherwise it is added to the buffer.
     */
    method HandleAddedTrip(feedId: string, j: EstimatedVehicleJourney) returns (r: Result<bool>)
      requires Valid()
      modifies this`buffer, this`patternCache, this`nextPatternNumber, this`index, this`tripForId
      ensures Valid()
      ensures j.estimatedVehicleJourneyCode.None? || j.lineRef.None? || j.operatorRef.None? ==>
                r.Failure? && buffer == old(buffer) && index == old(index)
      ensures index.stopsById == old(index.stopsById) && index.serviceDates == old(index.serviceDates)
      ensures ServiceDateForJourney(j) == Success(None) ==> buffer == old(buffer)
      ensures j.estimatedVehicleJourneyCode.Some? && j.lineRef.Some? && j.operatorRef.Some?
              && ServiceDateForJourney(j).Success?
              && (ServiceDateForJourney(j).value.None? || collab.serviceIdForDate(ServiceDateForJourney(j).value.value).None?) ==>
                r == Success(false) && buffer == old(buffer) && index == old(index) && tripForId == old(tripForId)
      ensures r == Success(true) ==>
                j.estimatedVehicleJourneyCode.Some? && j.estimatedCalls.Some?
                && ServiceDateForJourney(j).Success? && ServiceDateForJourney(j).value.Some?
                && var tripId := FeedScopedId(feedId, j.estimatedVehicleJourneyCode.value);
                   var date := ServiceDateForJourney(j).value.value;
                   tripId in tripForId
                   && AddedTripVisible(buffer.contents, tripForId[tripId], date,
                                       AddedTripOf(feedId, old(index.stopsById), tripForId[tripId], j.estimatedCalls.value,
                                                   IsTrue(j.predictionInaccurate), IsTrue(j.cancellation)))
      ensures r == Success(true) ==>
                var tripId := FeedScopedId(feedId, j.estimatedVehicleJourneyCode.value);
                tripForId[tripId].routeId == FeedScopedId(feedId, j.lineRef.value)
                && Some(tripForId[tripId].serviceId) == collab.serviceIdForDate(ServiceDateForJourney(j).value.value)
      ensures r.Success? ==> ServiceDateForJourney(j).Success?
      ensures r.Success? && ServiceDateForJourney(j).value.Some? ==>
                SameOutside(old(buffer).contents, buffer.contents, ServiceDateForJourney(j).value.value)
      ensures (r, UpdaterState()) == old(AddedTripHandled(collab, feedId, j, UpdaterState()))
    {
      if j.estimatedVehicleJourneyCode.None? {
        return Failure("NullPointerException: EstimatedVehicleJourneyCode is required");
      }
      if j.lineRef.None? {
        return Failure("NullPointerException: LineRef is required");
      }
      if j.operatorRef.None? {
        return Failure("NullPointerException: OperatorRef is required");
      }
      var tripId := FeedScopedId(feedId, j.estimatedVehicleJourneyCode.value);
      var routeId := FeedScopedId(feedId, j.lineRef.value);
      var serviceDate := ServiceDateForJourney(j);
      if serviceDate.Failure? {
        return Failure(serviceDate.error);
      }
      if serviceDate.value.None? {
        return Success(false);
      }
      var date := serviceDate.value.value;
      var serviceId := collab.serviceIdForDate(date);
      if serviceId.None? {
        return Success(false);
      }
      var trip := Trip(tripId, routeId, serviceId.value);
      if j.estimatedCalls.None? {
        return Failure(NullPointer);
      }
      r := AddJourney(feedId, j, trip, date, j.estimatedCalls.value);
    }

    /**
     * The second half of `handleAddedTrip`, once the trip is known: builds the stop times
     * and trip times from the calls, puts the trip and its pattern into the index, and adds
     * the trip to the buffer unless its times decrease.
     */
    method AddJourney(feedId: string, j: EstimatedVehicleJourney, trip: Trip, date: Date, calls: seq<EstimatedCall>)
      returns (r: Result<bool>)
      requires Valid()
      modifies this`buffer, this`patternCache, this`nextPatternNumber, this`index, this`tripForId
      ensures Valid()
      ensures index.stopsById == old(index.stopsById) && index.serviceDates == old(index.serviceDates)
      ensures r.Success? ==> trip.id in tripForId && tripForId[trip.id] == trip
      ensures r == Success(true) ==>
                AddedTripVisible(buffer.contents, trip, date,
                                 AddedTripOf(feedId, old(index.stopsById), trip, calls,
                                             IsTrue(j.predictionInaccurate), IsTrue(j.cancellation)))
      ensures (r, UpdaterState()) == old(JourneyAdded(feedId, j, trip, date, calls, UpdaterState()))
      ensures SameOutside(old(buffer).contents, buffer.contents, date)
    {
      ghost var s0 := UpdaterState();
      var aimed, addedStops, departureTime := BuildAimedStopTimes(feedId, index.stopsById, calls);
      if aimed.Failure? {
        SameOutsideReflexive(buffer.contents, date);
        assert JourneyAdded(feedId, j, trip, date, calls, s0) == (Failure(aimed.error), s0);
        return Failure(aimed.error);
      }
      assert JourneyAdded(feedId, j, trip, date, calls, s0)
             == BuiltTripAdded(feedId, j, trip, date,
                               AddedTripOf(feedId, s0.ix.stopsById, trip, calls, IsTrue(j.predictionInaccurate), IsTrue(j.cancellation)), s0);
      r := AddBuiltJourney(feedId, j, trip, date, calls, aimed.value, addedStops, departureTime);
    }

    /**
     * `handleAddedTrip` once the aimed stop times are built: draws the pattern id, builds
     * the trip times and registers the trip.
     */
    method AddBuiltJourney(feedId: string, j: EstimatedVehicleJourney, trip: Trip, date: Date, calls: seq<EstimatedCall>,
                           aimed: seq<StopTime>, addedStops: seq<Element>, departureTime: Option<DateTime>)
      returns (r: Result<bool>)
      requires Valid()
      requires AimedStopTimes(feedId, index.stopsById, calls, |calls|) == Success(aimed)
      requires addedStops == seq(|aimed|, i requires 0 <= i < |aimed| => aimed[i].stop)
      requires departureTime == FirstAimedDeparture(calls)
      modifies this`buffer, this`patternCache, this`nextPatternNumber, this`index, this`tripForId
      ensures Valid()
      ensures index.stopsById == old(index.stopsById) && index.serviceDates == old(index.serviceDates)
      ensures r.Success? ==> trip.id in tripForId && tripForId[trip.id] == trip
      ensures r == Success(true) ==>
                AddedTripVisible(buffer.contents, trip, date,
                                 AddedTripOf(feedId, old(index.stopsById), trip, calls,
                                             IsTrue(j.predictionInaccurate), IsTrue(j.cancellation)))
      ensures (r, UpdaterState())
              == old(BuiltTripAdded(feedId, j, trip, date,
                                    AddedTripOf(feedId, index.stopsById, trip, calls, IsTrue(j.predictionInaccurate),
                                                IsTrue(j.cancellation)),
                                    UpdaterState()))
      ensures SameOutside(old(buffer).contents, buffer.contents, date)
    {
      SameOutsideReflexive(buffer.contents, date);
      ghost var s0 := UpdaterState();
      ghost var added := AddedTripOf(feedId, index.stopsById, trip, calls, IsTrue(j.predictionInaccurate), IsTrue(j.cancellation));
      var id := NextPatternId(trip);
      ghost var s1 := s0.(w := s0.w.(next := s0.w.next + 1));
      var built := FinishAddedTrip(feedId, index.stopsById, trip, calls, IsTrue(j.predictionInaccurate), IsTrue(j.cancellation),
                                   aimed, addedStops, departureTime);
      assert built == added;
      if built.Failure? {
        assert BuiltTripAdded(feedId, j, trip, date, built, s0) == (Failure(built.error), s1);
        return Failure(built.error);
      }
      BuiltTripRegistered(feedId, j, trip, date, built.value, s0);
      assert built.value == AddedTrip(addedStops, aimed, built.value.tripTimes);
      r := RegisterAddedTrip(feedId, j, trip, date, aimed, addedStops, built.value.tripTimes, id);
    }

    /**
     * The end of `handleAddedTrip`: the trip and a pattern holding its trip times are put
     * into the index; trip times whose times decrease are rejected, the others are added to
     * the buffer.
     */
    method RegisterAddedTrip(feedId: string, j: EstimatedVehicleJourney, trip: Trip, date: Date,
                             aimed: seq<StopTime>, addedStops: seq<Element>, tripTimes: TripTimes, id: PatternId)
      returns (r: Result<bool>)
      requires Valid() && tripTimes.trip == trip
      modifies this`buffer, this`patternCache, this`nextPatternNumber, this`index, this`tripForId
      ensures Valid()
      ensures index.stopsById == old(index.stopsById) && index.serviceDates == old(index.serviceDates)
      ensures trip.id in tripForId && tripForId[trip.id] == trip
      ensures trip.id in index.patternForTrip && index.patternForTrip[trip.id].id == id
              && index.patternForTrip[trip.id].scheduled == [tripTimes]
      ensures !TimesIncreasing(tripTimes) ==> r.Failure? && buffer == old(buffer)
      ensures r == Success(true) ==>
                var p := RealtimeAddedTripPattern(buffer.contents, trip.id, date);
                p.Some? && p.value.stops == StopPatternOf(aimed)
                && GetTripTimes(Resolve(buffer.contents, p.value, Some(date)), trip.id) == Some(tripTimes)
      ensures (r, UpdaterState()) == old(AddedTripRegistered(feedId, j, trip, date, AddedTrip(addedStops, aimed, tripTimes), id, UpdaterState()))
      ensures SameOutside(old(buffer).contents, buffer.contents, date)
    {
      SameOutsideReflexive(buffer.contents, date);
      var pattern := Pattern(id, trip.routeId, StopPatternOf(aimed), [], false);
      pattern := pattern.(scheduled := pattern.scheduled + [tripTimes]);
      assert pattern == Pattern(id, trip.routeId, StopPatternOf(aimed), [tripTimes], false);
      IndexAddedTrip(trip, pattern);
      ghost var s0 := old(UpdaterState());
      ghost var registered := s0.(ix := s0.ix.(patternForTrip := s0.ix.patternForTrip[trip.id := pattern]),
                                  trips := s0.trips[trip.id := trip]);
      assert UpdaterState() == registered;

      r := AddIncreasingTrip(feedId, j, trip, date, aimed, addedStops, tripTimes);
    }

    /** The end of `handleAddedTrip`: the trip times are checked, then added to the graph and the buffer. */
    method AddIncreasingTrip(feedId: string, j: EstimatedVehicleJourney, trip: Trip, date: Date,
                             aimed: seq<StopTime>, addedStops: seq<Element>, tripTimes: TripTimes)
      returns (r: Result<bool>)
      requires Valid() && tripTimes.trip == trip
      modifies this`buffer, this`patternCache, this`nextPatternNumber
      ensures Valid()
      ensures !TimesIncreasing(tripTimes) ==> r.Failure? && buffer == old(buffer)
      ensures r == Success(true) ==>
                var p := RealtimeAddedTripPattern(buffer.contents, trip.id, date);
                p.Some? && p.value.stops == StopPatternOf(aimed)
                && GetTripTimes(Resolve(buffer.contents, p.value, Some(date)), trip.id) == Some(tripTimes)
      ensures (r, State()) == old(IncreasingTripAdded(State(), feedId, j, trip, date, AddedTrip(addedStops, aimed, tripTimes)))
      ensures SameOutside(old(buffer).contents, buffer.contents, date)
    {
      if !TimesIncreasing(tripTimes) {
        SameOutsideReflexive(buffer.contents, date);
        return Failure("IllegalStateException: Non-increasing triptimes for added trip");
      }
      r := AddTripToGraphAndBuffer(feedId, trip, aimed, Some(addedStops), tripTimes, date, j);
    }

    /** `generateUniqueTripPatternId`: the next real-time pattern id of the trip's feed. */
    method NextPatternId(trip: Trip) returns (id: PatternId)
      requires Valid()
      modifies this`nextPatternNumber
      ensures Valid()
      ensures id == RealtimePattern(trip.id.feedId, old(nextPatternNumber))
      ensures UpdaterState() == old(UpdaterState()).(w := old(State()).(next := old(nextPatternNumber) + 1))
    {
      id := RealtimePattern(trip.id.feedId, nextPatternNumber);
      nextPatternNumber := nextPatternNumber + 1;
    }

    /** Puts an added trip and the pattern holding its trip times into the index. */
    method IndexAddedTrip(trip: Trip, pattern: Pattern)
      modifies this`index, this`tripForId
      ensures index == old(index).(patternForTrip := old(index.patternForTrip)[trip.id := pattern])
      ensures tripForId == old(tripForId)[trip.id := trip]
    {
      tripForId := tripForId[trip.id := trip];
      index := index.(patternForTrip := index.patternForTrip[trip.id := pattern]);
    }

    /**
     * One (trip times, pattern) pair of Estimated Timetable `handleModifiedTrip`: nothing
     * happens unless the stop counts agree.  Cancelled trip times go straight into the
     * buffer.  Otherwise the scheduled trip is cancelled for the date, an earlier real-time
     * pattern of the trip is removed, and the trip is added with its modified stops; an
     * empty list of modified stops cancels the trip times instead.
     */
    method ApplyToPattern(feedId: string, j: EstimatedVehicleJourney, tripTimes: TripTimes, pattern: Pattern, date: Date)
      returns (r: Result<bool>, after: TripTimes)
      requires Valid()
      modifies this`buffer, this`patternCache, this`nextPatternNumber
      ensures Valid()
      ensures after.trip == tripTimes.trip && after.stops == tripTimes.stops
      ensures |tripTimes.stops| != |pattern.stops| ==> r == Success(false) && after == tripTimes && buffer == old(buffer)
      ensures |tripTimes.stops| == |pattern.stops| && IsCanceled(tripTimes) ==>
                r.Success? && after == tripTimes && (buffer, r.value) == Update(old(buffer), pattern, tripTimes, date)
      ensures |tripTimes.stops| == |pattern.stops| && !IsCanceled(tripTimes) ==>
                RealtimeAddedTripPattern(buffer.contents, tripTimes.trip.id, date).None? || (r.Success? && r.value)
      ensures |tripTimes.stops| == |pattern.stops| && !IsCanceled(tripTimes) && collab.modifiedStops(pattern, j) == Some([]) ==>
                r == Success(false) && after == CancelTrip(tripTimes)
                && buffer == PreviousRemoved(ScheduledCancelled(index, old(buffer), tripTimes.trip, date), tripTimes.trip, date)
      ensures (r, after, State()) == old(AppliedToPattern(index, collab, feedId, j, State(), tripTimes, pattern, date))
      ensures SameOutside(old(buffer).contents, buffer.contents, date)
    {
      after := tripTimes;
      if |tripTimes.stops| != |pattern.stops| {
        return Success(false), after;
      }
      if IsCanceled(tripTimes) {
        var updated := Update(buffer, pattern, tripTimes, date);
        buffer := updated.0;
        return Success(updated.1), after;
      }
      var trip := tripTimes.trip;
      var b0 := buffer;
      var cancelled := CancelScheduledTrip(trip, date);
      var b1 := buffer;
      var removed := RemovePreviousRealtimeUpdate(trip, date);
      var b2 := buffer;
      SameOutsideTransitive(b0.contents, b1.contents, b2.contents, date);
      var modifiedStops := collab.modifiedStops(pattern, j);
      var modifiedStopTimes := collab.modifiedStopTimes(pattern, tripTimes, j);
      if modifiedStops.Some? && |modifiedStops.value| == 0 {
        after := CancelTrip(tripTimes);
        return Success(false), after;
      }
      r := AddTripToGraphAndBuffer(feedId, trip, modifiedStopTimes, modifiedStops, tripTimes, date, j);
      SameOutsideTransitive(b0.contents, b2.contents, buffer.contents, date);
    }

    /**
     * Estimated Timetable `handleModifiedTrip`.  The matching phase reads the published
     * snapshot through the public accessor, which it reaches at most at one instant and
     * with an unchanged buffer, so only its first call can commit; it is modelled as one
     * call when reached.  The update phase applies every matched trip times to every
     * matched pattern, in order.
     */
    method HandleModifiedTrip(feedId: string, j: EstimatedVehicleJourney, clock: Clock) returns (r: Result<bool>)
      requires Valid()
      modifies this`buffer, this`patternCache, this`nextPatternNumber, this`snapshot, this`lastSnapshotTime
      ensures Valid()
      ensures IsFalse(j.monitored) && IsFalse(j.cancellation) ==>
                r == Success(false) && buffer == old(buffer) && snapshot == old(snapshot)
      ensures r == Success(true) ==> ServiceDateForJourney(j).Success? && ServiceDateForJourney(j).value.Some?
      ensures ServiceDateForJourney(j).Success? && ServiceDateForJourney(j).value.Some? ==>
                SameOutside(old(buffer).contents, buffer.contents, ServiceDateForJourney(j).value.value)
      ensures !(ServiceDateForJourney(j).Success? && ServiceDateForJourney(j).value.Some?) ==>
                buffer.contents == old(buffer.contents)
      ensures var planned := old(PlanModifiedTrip(index, collab, feedId, j, clock.transitNow, ViewAfterAccess(clock.millis)));
              var read := old(ReadSnapshot(buffer, PublishedState(), clock.millis, maxSnapshotFrequency));
              var start := Writer(if planned.1 then read.0 else old(buffer), old(patternCache), old(nextPatternNumber));
              PublishedState() == (if planned.1 then read.1 else old(PublishedState()))
              && (planned.0.Failure? ==> r == Failure(planned.0.error) && State() == start)
              && (planned.0 == Success(None) ==> r == Success(false) && State() == start)
              && (planned.0.Success? && planned.0.value.Some? ==>
                    (r, State()) == PlanApplied(index, collab, feedId, j, planned.0.value.value, start, 0, false))
      ensures (r, UpdaterState()) == old(ModifiedTripHandled(collab, feedId, j, clock, maxSnapshotFrequency, UpdaterState()))
    {
      var view := ViewAfterAccess(clock.millis);
      assert view == ReadSnapshot(buffer, PublishedState(), clock.millis, maxSnapshotFrequency).1.view;
      var planned := PlanModifiedTrip(index, collab, feedId, j, clock.transitNow, view);
      if planned.1 {
        var s := ReaderSnapshot(true, clock.millis);
      }
      if planned.0.Failure? {
        return Failure(planned.0.error);
      }
      if planned.0.value.None? {
        return Success(false);
      }
      var plan := planned.0.value.value;
      r := ApplyPlan(feedId, j, plan);
    }

    /** The update phase of Estimated Timetable `handleModifiedTrip`: every matched trip times, in order. */
    method ApplyPlan(feedId: string, j: EstimatedVehicleJourney, plan: ModifiedTripPlan) returns (r: Result<bool>)
      requires Valid()
      modifies this`buffer, this`patternCache, this`nextPatternNumber
      ensures Valid()
      ensures SameOutside(old(buffer).contents, buffer.contents, plan.serviceDate)
      ensures (r, State()) == old(PlanApplied(index, collab, feedId, j, plan, State(), 0, false))
    {
      ghost var w0 := State();
      var result := false;
      var i := 0;
      while i < |plan.times|
        invariant 0 <= i <= |plan.times|
        invariant Valid()
        invariant SameOutside(old(buffer).contents, buffer.contents, plan.serviceDate)
        invariant PlanApplied(index, collab, feedId, j, plan, w0, 0, false) == PlanApplied(index, collab, feedId, j, plan, State(), i, result)
      {
        var b := buffer;
        var applied := ApplyTripTimes(feedId, j, plan.patterns, plan.serviceDate, plan.times[i], result);
        SameOutsideTransitive(old(buffer).contents, b.contents, buffer.contents, plan.serviceDate);
        if applied.Failure? {
          return Failure(applied.error);
        }
        result := applied.value;
        i := i + 1;
      }
      return Success(result);
    }

    /** One trip times of the update phase, applied to every matched pattern in order; `acc` is the outcome so far. */
    method ApplyTripTimes(feedId: string, j: EstimatedVehicleJourney, patterns: seq<Pattern>, date: Date,
                          tripTimes: TripTimes, acc: bool)
      returns (r: Result<bool>)
      requires Valid()
      modifies this`buffer, this`patternCache, this`nextPatternNumber
      ensures Valid()
      ensures SameOutside(old(buffer).contents, buffer.contents, date)
      ensures (r, State()) == old(PatternsApplied(index, collab, feedId, j, patterns, date, State(), 0, tripTimes, acc))
    {
      ghost var w0 := State();
      var tt := tripTimes;
      var result := acc;
      var k := 0;
      while k < |patterns|
        invariant 0 <= k <= |patterns|
        invariant Valid()
        invariant SameOutside(old(buffer).contents, buffer.contents, date)
        invariant PatternsApplied(index, collab, feedId, j, patterns, date, w0, 0, tripTimes, acc)
                  == PatternsApplied(index, collab, feedId, j, patterns, date, State(), k, tt, result)
      {
        var b := buffer;
        var applied;
        applied, tt := ApplyToPattern(feedId, j, tt, patterns[k], date);
        SameOutsideTransitive(old(buffer).contents, b.contents, buffer.contents, date);
        if applied.Failure? {
          return Failure(applied.error);
        }
        result := result || applied.value;
        k := k + 1;
      }
      return Success(result);
    }

    /**
     * `handleTripPatternUpdate`: applies the activity to the pattern's current timetable and
     * writes the result into the buffer for the service date.
     */
    method HandleTripPatternUpdate(pattern: Pattern, activity: VehicleActivity, trip: Trip, serviceDate: Date, clock: int)
      returns (success: bool)
      modifies this`buffer, this`snapshot, this`lastSnapshotTime
      ensures SameOutside(old(buffer).contents, buffer.contents, serviceDate)
      ensures var updated := collab.updatedTripTimesForActivity(CurrentTimetable(old(ViewAfterAccess(clock)), pattern, serviceDate),
                                                                activity, trip.id);
              (updated.None? ==> !success && buffer.contents == old(buffer.contents))
              && (updated.Some? ==> (buffer.contents, success) == (Update(old(buffer), pattern, updated.value, serviceDate).0.contents,
                                                                    Update(old(buffer), pattern, updated.value, serviceDate).1))
      ensures (buffer, PublishedState(), success)
              == old(PatternUpdated(collab, buffer, PublishedState(), clock, maxSnapshotFrequency, pattern, activity, trip.id, serviceDate))
    {
      var s := ReaderSnapshot(true, clock);
      var view := if s == null then None else Some(s.contents);
      if s != null {
        ReadSnapshotTwice(old(buffer), old(PublishedState()), clock, maxSnapshotFrequency);
        s := ReaderSnapshot(true, clock);
        view := Some(s.contents);
      }
      var updated := collab.updatedTripTimesForActivity(CurrentTimetable(view, pattern, serviceDate), activity, trip.id);
      if updated.None? {
        return false;
      }
      var u := Update(buffer, pattern, updated.value, serviceDate);
      buffer := u.0;
      success := u.1;
    }

    /**
     * Vehicle Monitoring `handleModifiedTrip`: an expired activity, one without journey,
     * vehicle or line, or one reported as not monitored is skipped; otherwise the matched
     * trip's update is applied to every pattern matched for the activity.
     */
    method HandleModifiedVehicle(feedId: string, activity: VehicleActivity, serviceDate: Date, clock: Clock)
      returns (r: Result<bool>)
      modifies this`buffer, this`snapshot, this`lastSnapshotTime
      ensures activity.validUntil.None? ==> r.Failure? && buffer == old(buffer)
      ensures activity.validUntil.Some? && activity.validUntil.value < clock.millis ==>
                r == Success(false) && buffer == old(buffer) && snapshot == old(snapshot)
      ensures activity.monitoredVehicleJourney.Some? && IsFalse(activity.monitoredVehicleJourney.value.monitored) ==>
                r.Failure? || r == Success(false)
      ensures r == Success(true) ==>
                activity.monitoredVehicleJourney.Some?
                && var mvj := activity.monitoredVehicleJourney.value;
                var trips := collab.fuzzyMatchActivity(activity, feedId);
                mvj.vehicleRef.Some? && mvj.lineRef.Some? && !IsFalse(mvj.monitored)
                && VehicleTripForJourney(old(index), trips, mvj, clock.systemToday).Some?
                && VehiclePatternsForTrip(old(index), old(buffer).contents, trips, mvj, clock.transitNow.date).Success?
      ensures SameOutside(old(buffer).contents, buffer.contents, serviceDate)
      ensures var plan := old(VehiclePlan(index, collab, feedId, activity, clock, buffer.contents));
              (plan.Failure? ==> r == Failure(plan.error) && buffer == old(buffer) && PublishedState() == old(PublishedState()))
              && (plan == Success(None) ==> r == Success(false) && buffer == old(buffer) && PublishedState() == old(PublishedState()))
              && (plan.Success? && plan.value.Some? ==>
                    var out := PatternsUpdated(collab, old(buffer), old(PublishedState()), clock.millis, maxSnapshotFrequency,
                                               plan.value.value.1, 0, activity, plan.value.value.0.id, serviceDate, false);
                    r == Success(out.2) && buffer == out.0 && PublishedState() == out.1)
      ensures (r, buffer, PublishedState())
              == old(VehicleHandled(index, collab, feedId, activity, serviceDate, clock, maxSnapshotFrequency, buffer, PublishedState()))
    {
      var plan := VehiclePlan(index, collab, feedId, activity, clock, buffer.contents);
      if plan.Failure? {
        return Failure(plan.error);
      }
      if plan.value.None? {
        return Success(false);
      }
      var trip := plan.value.value.0;
      var ps := plan.value.value.1;
      var success := false;
      var i := 0;
      while i < |ps|
        invariant 0 <= i <= |ps|
        invariant SameOutside(old(buffer).contents, buffer.contents, serviceDate)
        invariant PatternsUpdated(collab, old(buffer), old(PublishedState()), clock.millis, maxSnapshotFrequency, ps, 0, activity, trip.id, serviceDate, false)
                  == PatternsUpdated(collab, buffer, PublishedState(), clock.millis, maxSnapshotFrequency, ps, i, activity, trip.id, serviceDate, success)
      {
        var b := buffer;
        var handled := HandleTripPatternUpdate(ps[i], activity, trip, serviceDate, clock.millis);
        SameOutsideTransitive(old(buffer).contents, b.contents, buffer.contents, serviceDate);
        success := success || handled;
        i := i + 1;
      }
      return Success(success);
    }

    /**
     * One journey of a version frame: an extra journey is added and counted as added or,
     * whatever went wrong, skipped; any other journey is modified and counted as handled,
     * not monitored or skipped, and an exception from it is passed on.
     */
    method ApplyJourney(feedId: string, journey: EstimatedVehicleJourney, clock: Clock, c: Counters) returns (r: Result<Counters>)
      requires Valid()
      modifies this`buffer, this`patternCache, this`nextPatternNumber, this`snapshot, this`lastSnapshotTime,
               this`index, this`tripForId
      ensures Valid()
      ensures (r, UpdaterState()) == old(JourneyApplied(collab, feedId, journey, clock, maxSnapshotFrequency, UpdaterState(), c))
      ensures r.Failure? ==> !IsTrue(journey.extraJourney)
      ensures r.Success? ==> Total(r.value) == Total(c) + 1
      ensures r.Success? && IsTrue(journey.extraJourney) ==>
                r.value.handled == c.handled && r.value.notMonitored == c.notMonitored
      ensures r.Success? && !IsTrue(journey.extraJourney) ==>
                r.value.added == c.added
                && (r.value.notMonitored == c.notMonitored || (r.value.notMonitored == c.notMonitored + 1 && IsFalse(journey.monitored)))
                && (IsFalse(journey.monitored) && IsFalse(journey.cancellation) ==> r.value.notMonitored == c.notMonitored + 1)
      ensures r.Success? ==> JourneyCounted(journey, c, r.value)
      ensures index.stopsById == old(index.stopsById) && index.serviceDates == old(index.serviceDates)
    {
      if IsTrue(journey.extraJourney) {
        r := ApplyExtraJourney(feedId, journey, c);
      } else {
        r := ApplyModifiedJourney(feedId, journey, clock, c);
      }
    }

    /** An extra journey of a version frame: added and counted as added, or, whatever went wrong, counted as skipped. */
    method ApplyExtraJourney(feedId: string, journey: EstimatedVehicleJourney, c: Counters) returns (r: Result<Counters>)
      requires Valid() && IsTrue(journey.extraJourney)
      modifies this`buffer, this`patternCache, this`nextPatternNumber, this`index, this`tripForId
      ensures Valid()
      ensures r.Success?
      ensures (r, UpdaterState()) == ExtraJourneyCounted(old(AddedTripHandled(collab, feedId, journey, UpdaterState())), c)
      ensures index.stopsById == old(index.stopsById) && index.serviceDates == old(index.serviceDates)
    {
      ghost var a := AddedTripHandled(collab, feedId, journey, UpdaterState());
      var added := HandleAddedTrip(feedId, journey);
      assert added == a.0 && UpdaterState() == a.1;
      if added == Success(true) {
        r := Success(c.(added := c.added + 1));
      } else {
        r := Success(c.(skipped := c.skipped + 1));
      }
    }

    /**
     * Any other journey of a version frame: modified and counted as handled, not monitored
     * or skipped; an exception from it is passed on.
     */
    method ApplyModifiedJourney(feedId: string, journey: EstimatedVehicleJourney, clock: Clock, c: Counters)
      returns (r: Result<Counters>)
      requires Valid() && !IsTrue(journey.extraJourney)
      modifies this`buffer, this`patternCache, this`nextPatternNumber, this`snapshot, this`lastSnapshotTime,
               this`index, this`tripForId
      ensures Valid()
      ensures (r, UpdaterState())
              == ModifiedJourneyCounted(old(ModifiedTripHandled(collab, feedId, journey, clock, maxSnapshotFrequency, UpdaterState())), journey, c)
      ensures index.stopsById == old(index.stopsById) && index.serviceDates == old(index.serviceDates)
    {
      ghost var m := ModifiedTripHandled(collab, feedId, journey, clock, maxSnapshotFrequency, UpdaterState());
      var handled := HandleModifiedTrip(feedId, journey, clock);
      assert handled == m.0 && UpdaterState() == m.1;
      if handled.Failure? {
        return Failure(handled.error);
      }
      if handled.value {
        r := Success(c.(handled := c.handled + 1));
      } else if IsFalse(journey.monitored) {
        r := Success(c.(notMonitored := c.notMonitored + 1));
      } else {
        r := Success(c.(skipped := c.skipped + 1));
      }
    }

    /** Handles the journeys of one version frame, in order, counting each journey exactly once. */
    method ApplyFrame(feedId: string, frame: EstimatedVersionFrame, clock: Clock) returns (r: Result<Counters>)
      requires Valid()
      modifies this`buffer, this`patternCache, this`nextPatternNumber, this`snapshot, this`lastSnapshotTime,
               this`index, this`tripForId
      ensures Valid()
      ensures (r, UpdaterState())
              == old(FrameApplied(collab, feedId, frame.journeys, clock, maxSnapshotFrequency, UpdaterState(), 0, Counters(0, 0, 0, 0)))
      ensures r.Success? ==> Total(r.value) == |frame.journeys|
      ensures r.Success? ==> r.value.added <= |frame.journeys| && r.value.handled <= |frame.journeys|
      ensures r.Failure? ==> exists i :: 0 <= i < |frame.journeys| && !IsTrue(frame.journeys[i].extraJourney)
      ensures r.Success? ==> r.value.added <= ExtraJourneys(frame.journeys)
      ensures r.Success? ==> r.value.handled + r.value.notMonitored <= |frame.journeys| - ExtraJourneys(frame.journeys)
      ensures r.Success? ==> IgnoredJourneys(frame.journeys) <= r.value.notMonitored <= UnmonitoredJourneys(frame.journeys)
      ensures index.stopsById == old(index.stopsById) && index.serviceDates == old(index.serviceDates)
    {
      ghost var s0 := UpdaterState();
      var c := Counters(0, 0, 0, 0);
      var i := 0;
      while i < |frame.journeys|
        invariant 0 <= i <= |frame.journeys|
        invariant Valid()
        invariant FrameApplied(collab, feedId, frame.journeys, clock, maxSnapshotFrequency, s0, 0, Counters(0, 0, 0, 0))
                  == FrameApplied(collab, feedId, frame.journeys, clock, maxSnapshotFrequency, UpdaterState(), i, c)
        invariant c.handled + c.added + c.skipped + c.notMonitored == i
        invariant c.added <= ExtraJourneys(frame.journeys[..i])
        invariant c.handled + c.notMonitored <= i - ExtraJourneys(frame.journeys[..i])
        invariant IgnoredJourneys(frame.journeys[..i]) <= c.notMonitored <= UnmonitoredJourneys(frame.journeys[..i])
        invariant index.stopsById == old(index.stopsById) && index.serviceDates == old(index.serviceDates)
      {
        assert frame.journeys[..i + 1][..i] == frame.journeys[..i];
        ghost var before := UpdaterState();
        var next := ApplyJourney(feedId, frame.journeys[i], clock, c);
        if next.Failure? {
          return next;
        }
        assert FrameApplied(collab, feedId, frame.journeys, clock, maxSnapshotFrequency, before, i, c)
               == FrameApplied(collab, feedId, frame.journeys, clock, maxSnapshotFrequency, UpdaterState(), i + 1, next.value);
        c := next.value;
        i := i + 1;
      }
      assert frame.journeys[..i] == frame.journeys;
      return Success(c);
    }

    /** Handles the version frames of one delivery, one counter record per frame. */
    method ApplyFrames(feedId: string, frames: seq<EstimatedVersionFrame>, clock: Clock) returns (r: Result<seq<Counters>>)
      requires Valid()
      modifies this`buffer, this`patternCache, this`nextPatternNumber, this`snapshot, this`lastSnapshotTime,
               this`index, this`tripForId
      ensures Valid()
      ensures r.Success? ==> |r.value| == |frames| && forall f :: 0 <= f < |frames| ==> Total(r.value[f]) == |frames[f].journeys|
      ensures (r, UpdaterState()) == old(FramesApplied(collab, feedId, frames, clock, maxSnapshotFrequency, UpdaterState(), 0, []))
    {
      ghost var s0 := UpdaterState();
      var counters: seq<Counters> := [];
      var n := 0;
      while n < |frames|
        invariant 0 <= n <= |frames|
        invariant Valid()
        invariant FramesApplied(collab, feedId, frames, clock, maxSnapshotFrequency, s0, 0, [])
                  == FramesApplied(collab, feedId, frames, clock, maxSnapshotFrequency, UpdaterState(), n, counters)
        invariant |counters| == n && forall f :: 0 <= f < n ==> Total(counters[f]) == |frames[f].journeys|
      {
        var c := ApplyFrame(feedId, frames[n], clock);
        if c.Failure? {
          return Failure(c.error);
        }
        counters := counters + [c.value];
        n := n + 1;
      }
      return Success(counters);
    }

    /**
     * The tail of both batch methods: purge if enabled, and take a snapshot, forced when the
     * purge removed anything.
     */
    method PublishAfterBatch(clock: Clock) returns (modified: bool)
      modifies this`buffer, this`lastPurgeDate, this`snapshot, this`lastSnapshotTime
      ensures var o := old(PurgeOutcome(lastPurgeDate, buffer, clock.transitNow.date));
              if purgeExpiredData then lastPurgeDate == o.0 && buffer.contents == o.1.contents && modified == o.2
              else lastPurgeDate == old(lastPurgeDate) && buffer.contents == old(buffer.contents) && !modified
      ensures modified ==> snapshot != null && fresh(snapshot) && View() == Some(buffer.contents)
                           && lastSnapshotTime == clock.millis && !buffer.dirty
      ensures !modified && clock.millis - old(lastSnapshotTime) > maxSnapshotFrequency && old(buffer.dirty) ==>
                View() == Some(buffer.contents) && lastSnapshotTime == clock.millis && !buffer.dirty
      ensures !modified && !(clock.millis - old(lastSnapshotTime) > maxSnapshotFrequency && old(buffer.dirty)) ==>
                snapshot == old(snapshot)
      ensures lastSnapshotTime == clock.millis || lastSnapshotTime == old(lastSnapshotTime)
      ensures (lastPurgeDate, buffer, PublishedState())
              == old(BatchPublished(purgeExpiredData, lastPurgeDate, buffer, PublishedState(), clock, maxSnapshotFrequency))
    {
      modified := false;
      if purgeExpiredData {
        modified := PurgeExpiredData(clock.transitNow.date);
      }
      var s := GetTimetableSnapshot(modified, clock.millis);
    }

    /**
     * `applyEstimatedTimetable`: nothing without updates; a full dataset first clears the
     * feed's real-time data; then every journey of every version frame is handled and
     * counted once per frame; an exception from a modified trip aborts the batch.
     */
    method ApplyEstimatedTimetable(feedId: string, fullDataset: bool, updates: Option<seq<EstimatedTimetableDelivery>>,
                                   clock: Clock)
      returns (r: Result<seq<Counters>>, ghost start: Buffer, ghost batch: Buffer)
      requires Valid()
      modifies this`buffer, this`patternCache, this`nextPatternNumber, this`snapshot, this`lastSnapshotTime,
               this`index, this`tripForId, this`lastPurgeDate
      ensures Valid()
      ensures updates.None? ==> r == Success([]) && buffer == old(buffer) && snapshot == old(snapshot)
      ensures r.Success? && updates.Some? ==>
                |r.value| == |Frames(updates.value)|
                && forall f :: 0 <= f < |r.value| ==> Total(r.value[f]) == |Frames(updates.value)[f].journeys|
      ensures updates.Some? ==> start == if fullDataset then Clear(old(buffer), feedId) else old(buffer)
      ensures r.Success? && updates.Some? ==>
                var o := PurgeOutcome(old(lastPurgeDate), batch, clock.transitNow.date);
                (if purgeExpiredData then lastPurgeDate == o.0 && buffer.contents == o.1.contents
                 else lastPurgeDate == old(lastPurgeDate) && buffer.contents == batch.contents)
                && (purgeExpiredData && o.2 ==> View() == Some(buffer.contents) && lastSnapshotTime == clock.millis)
      ensures updates.Some? && |updates.value| == 0 ==> batch == start
      ensures updates.Some? ==>
                var s0 := Updater(Writer(start, old(patternCache), old(nextPatternNumber)), old(index), old(tripForId), old(PublishedState()));
                var out := DeliveriesApplied(collab, feedId, updates.value, clock, maxSnapshotFrequency, s0, 0, []);
                r == out.0 && batch == out.1.w.buffer && index == out.1.ix && tripForId == out.1.trips
                && patternCache == out.1.w.cache && nextPatternNumber == out.1.w.next
                && (r.Failure? ==> buffer == batch && PublishedState() == out.1.pub)
                && (r.Success? ==> (lastPurgeDate, buffer, PublishedState())
                                   == BatchPublished(purgeExpiredData, old(lastPurgeDate), batch, out.1.pub, clock, maxSnapshotFrequency))
    {
      start, batch := buffer, buffer;
      if updates.None? {
        return Success([]), start, batch;
      }
      r, start := ClearAndApplyDeliveries(feedId, fullDataset, updates.value, clock);
      batch := buffer;
      if r.Failure? {
        return;
      }
      var modified := PublishAfterBatch(clock);
    }

    /** The part of `applyEstimatedTimetable` before the purge and the snapshot: the optional clear, then the deliveries. */
    method ClearAndApplyDeliveries(feedId: string, fullDataset: bool, deliveries: seq<EstimatedTimetableDelivery>, clock: Clock)
      returns (r: Result<seq<Counters>>, ghost start: Buffer)
      requires Valid()
      modifies this`buffer, this`patternCache, this`nextPatternNumber, this`snapshot, this`lastSnapshotTime,
               this`index, this`tripForId
      ensures Valid()
      ensures r.Success? ==>
                |r.value| == |Frames(deliveries)|
                && forall f :: 0 <= f < |r.value| ==> Total(r.value[f]) == |Frames(deliveries)[f].journeys|
      ensures start == if fullDataset then Clear(old(buffer), feedId) else old(buffer)
      ensures |deliveries| == 0 ==> buffer == start
      ensures (r, UpdaterState())
              == DeliveriesApplied(collab, feedId, deliveries, clock, maxSnapshotFrequency,
                                   Updater(Writer(start, old(patternCache), old(nextPatternNumber)), old(index), old(tripForId),
                                           old(PublishedState())), 0, [])
    {
      if fullDataset {
        buffer := Clear(buffer, feedId);
      }
      start := buffer;
      r := ApplyDeliveries(feedId, deliveries, clock);
    }

    /** The deliveries of an Estimated Timetable batch, in order, one counter record per version frame. */
    method ApplyDeliveries(feedId: string, deliveries: seq<EstimatedTimetableDelivery>, clock: Clock)
      returns (r: Result<seq<Counters>>)
      requires Valid()
      modifies this`buffer, this`patternCache, this`nextPatternNumber, this`snapshot, this`lastSnapshotTime,
               this`index, this`tripForId
      ensures Valid()
      ensures r.Success? ==>
                |r.value| == |Frames(deliveries)|
                && forall f :: 0 <= f < |r.value| ==> Total(r.value[f]) == |Frames(deliveries)[f].journeys|
      ensures (r, UpdaterState()) == old(DeliveriesApplied(collab, feedId, deliveries, clock, maxSnapshotFrequency, UpdaterState(), 0, []))
    {
      ghost var s0 := UpdaterState();
      var counters: seq<Counters> := [];
      var d := 0;
      while d < |deliveries|
        invariant 0 <= d <= |deliveries|
        invariant Valid()
        invariant DeliveriesApplied(collab, feedId, deliveries, clock, maxSnapshotFrequency, s0, 0, [])
                  == DeliveriesApplied(collab, feedId, deliveries, clock, maxSnapshotFrequency, UpdaterState(), d, counters)
        invariant |counters| == |Frames(deliveries[..d])|
        invariant forall f :: 0 <= f < |counters| ==> Total(counters[f]) == |Frames(deliveries[..d])[f].journeys|
      {
        var frames := if deliveries[d].versionFrames.Some? then deliveries[d].versionFrames.value else [];
        var more := ApplyFrames(feedId, frames, clock);
        if more.Failure? {
          return Failure(more.error);
        }
        FrameCountersAppend(deliveries, d, counters, more.value);
        counters := counters + more.value;
        d := d + 1;
      }
      assert deliveries[..d] == deliveries;
      return Success(counters);
    }

    /** Handles the activities of one delivery, in order, counting each activity exactly once. */
    method ApplyActivities(feedId: string, activities: seq<VehicleActivity>, serviceDate: Date, clock: Clock)
      returns (r: Result<Counters>)
      modifies this`buffer, this`snapshot, this`lastSnapshotTime
      ensures r.Success? ==> Total(r.value) == |activities| && r.value.added == 0 && r.value.notMonitored == 0
      ensures SameOutside(old(buffer).contents, buffer.contents, serviceDate)
      ensures (r, buffer, PublishedState())
              == old(ActivitiesApplied(index, collab, feedId, activities, serviceDate, clock, maxSnapshotFrequency,
                                       buffer, PublishedState(), 0, Counters(0, 0, 0, 0)))
    {
      ghost var b0, p0 := buffer, PublishedState();
      var c := Counters(0, 0, 0, 0);
      var i := 0;
      while i < |activities|
        invariant 0 <= i <= |activities|
        invariant c.handled + c.skipped == i && c.added == 0 && c.notMonitored == 0
        invariant SameOutside(old(buffer).contents, buffer.contents, serviceDate)
        invariant ActivitiesApplied(index, collab, feedId, activities, serviceDate, clock, maxSnapshotFrequency, b0, p0, 0, Counters(0, 0, 0, 0))
                  == ActivitiesApplied(index, collab, feedId, activities, serviceDate, clock, maxSnapshotFrequency,
                                       buffer, PublishedState(), i, c)
      {
        var b := buffer;
        ghost var rest := ActivitiesApplied(index, collab, feedId, activities, serviceDate, clock, maxSnapshotFrequency,
                                            buffer, PublishedState(), i, c);
        var handled := HandleModifiedVehicle(feedId, activities[i], serviceDate, clock);
        SameOutsideTransitive(old(buffer).contents, b.contents, buffer.contents, serviceDate);
        if handled.Failure? {
          assert rest == (Failure(handled.error), buffer, PublishedState());
          return Failure(handled.error);
        }
        if handled.value {
          c := c.(handled := c.handled + 1);
        } else {
          c := c.(skipped := c.skipped + 1);
        }
        assert rest == ActivitiesApplied(index, collab, feedId, activities, serviceDate, clock, maxSnapshotFrequency,
                                         buffer, PublishedState(), i + 1, c);
        i := i + 1;
      }
      return Success(c);
    }

    /**
     * `applyVehicleMonitoring`: nothing without updates; a full dataset first clears the
     * feed's real-time data; then every present activity list is handled for today's date
     * in the transit zone and counted once.
     */
    method ApplyVehicleMonitoring(feedId: string, fullDataset: bool, updates: Option<seq<VehicleMonitoringDelivery>>,
                                  clock: Clock)
      returns (r: Result<seq<Counters>>, ghost start: Buffer, ghost batch: Buffer)
      modifies this`buffer, this`snapshot, this`lastSnapshotTime, this`lastPurgeDate
      ensures updates.None? ==> r == Success([]) && buffer == old(buffer) && snapshot == old(snapshot)
      ensures r.Success? && updates.Some? ==>
                |r.value| == |ActivityLists(updates.value)|
                && forall f :: 0 <= f < |r.value| ==> Total(r.value[f]) == |ActivityLists(updates.value)[f]|
      ensures updates.Some? ==> start == if fullDataset then Clear(old(buffer), feedId) else old(buffer)
      ensures r.Success? && updates.Some? ==>
                var o := PurgeOutcome(old(lastPurgeDate), batch, clock.transitNow.date);
                (if purgeExpiredData then lastPurgeDate == o.0 && buffer.contents == o.1.contents
                 else lastPurgeDate == old(lastPurgeDate) && buffer.contents == batch.contents)
                && (purgeExpiredData && o.2 ==> View() == Some(buffer.contents) && lastSnapshotTime == clock.millis)
      ensures updates.Some? && |updates.value| == 0 ==> batch == start
      ensures updates.Some? ==> SameOutside(start.contents, batch.contents, clock.transitNow.date)
      ensures updates.Some? ==>
                var out := VehicleDeliveriesApplied(index, collab, feedId, updates.value, clock, maxSnapshotFrequency,
                                                    start, old(PublishedState()), 0, []);
                r == out.0 && batch == out.1 && (r.Failure? ==> buffer == batch && PublishedState() == out.2)
                && (r.Success? ==> (lastPurgeDate, buffer, PublishedState())
                                   == BatchPublished(purgeExpiredData, old(lastPurgeDate), batch, out.2, clock, maxSnapshotFrequency))
    {
      start, batch := buffer, buffer;
      if updates.None? {
        return Success([]), start, batch;
      }
      if fullDataset {
        buffer := Clear(buffer, feedId);
      }
      start := buffer;
      r := ApplyVehicleDeliveries(feedId, updates.value, clock);
      batch := buffer;
      if r.Failure? {
        return;
      }
      var modified := PublishAfterBatch(clock);
    }

    /** The deliveries of a Vehicle Monitoring batch, in order, one counter record per present activity list. */
    method ApplyVehicleDeliveries(feedId: string, deliveries: seq<VehicleMonitoringDelivery>, clock: Clock)
      returns (r: Result<seq<Counters>>)
      modifies this`buffer, this`snapshot, this`lastSnapshotTime
      ensures r.Success? ==>
                |r.value| == |ActivityLists(deliveries)|
                && forall f :: 0 <= f < |r.value| ==> Total(r.value[f]) == |ActivityLists(deliveries)[f]|
      ensures SameOutside(old(buffer).contents, buffer.contents, clock.transitNow.date)
      ensures (r, buffer, PublishedState())
              == old(VehicleDeliveriesApplied(index, collab, feedId, deliveries, clock, maxSnapshotFrequency,
                                              buffer, PublishedState(), 0, []))
    {
      ghost var b0, p0 := buffer, PublishedState();
      SameOutsideReflexive(buffer.contents, clock.transitNow.date);
      var counters: seq<Counters> := [];
      var d := 0;
      while d < |deliveries|
        invariant 0 <= d <= |deliveries|
        invariant |counters| == |ActivityLists(deliveries[..d])|
        invariant forall f :: 0 <= f < |counters| ==> Total(counters[f]) == |ActivityLists(deliveries[..d])[f]|
        invariant SameOutside(old(buffer).contents, buffer.contents, clock.transitNow.date)
        invariant VehicleDeliveriesApplied(index, collab, feedId, deliveries, clock, maxSnapshotFrequency, b0, p0, 0, [])
                  == VehicleDeliveriesApplied(index, collab, feedId, deliveries, clock, maxSnapshotFrequency,
                                              buffer, PublishedState(), d, counters)
      {
        var serviceDate := clock.transitNow.date;
        assert deliveries[..d + 1] == deliveries[..d] + [deliveries[d]];
        ActivityListsAppend(deliveries[..d], deliveries[d]);
        if deliveries[d].vehicleActivities.Some? {
          var b := buffer;
          var c := ApplyActivities(feedId, deliveries[d].vehicleActivities.value, serviceDate, clock);
          SameOutsideTransitive(old(buffer).contents, b.contents, buffer.contents, serviceDate);
          if c.Failure? {
            return Failure(c.error);
          }
          counters := counters + [c.value];
        }
        d := d + 1;
      }
      assert deliveries[..d] == deliveries;
      return Success(counters);
    }
  }
}
