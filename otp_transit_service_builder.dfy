// OtpTransitServiceBuilder.limitServiceDays: cuts the transit service down to a period of
// service dates, then removes every entity left referring to something removed (trips
// without service, stop times without trip, patterns without trips, transfers to a trip
// that is gone).

module TransitServiceBuilder {
  import opened Wrappers
  import opened Framework
  import opened Collections

  /**
   * A period of service dates, inclusive at both ends; a missing end stands for the
   * unbounded minimum or maximum date.
   */
  datatype Interval = Interval(start: Option<Date>, end: Option<Date>)

  predicate IsUnbounded(i: Interval)
  {
    i.start.None? && i.end.None?
  }

  predicate Include(i: Interval, d: Date)
  {
    (i.start.None? || i.start.value <= d) && (i.end.None? || d <= i.end.value)
  }

  /** A period holding at least one date. */
  predicate NonEmpty(i: Interval)
  {
    i.start.None? || i.end.None? || i.start.value <= i.end.value
  }

  /** Neither period ends before the other starts. */
  predicate Overlap(a: Interval, b: Interval)
  {
    (a.start.None? || b.end.None? || a.start.value <= b.end.value)
    && (b.start.None? || a.end.None? || b.start.value <= a.end.value)
  }

  function Later(a: Option<Date>, b: Option<Date>): Option<Date>
  {
    if a.None? then b else if b.None? then a else Some(if a.value < b.value then b.value else a.value)
  }

  function Earlier(a: Option<Date>, b: Option<Date>): Option<Date>
  {
    if a.None? then b else if b.None? then a else Some(if a.value < b.value then a.value else b.value)
  }

  /** The dates in both periods. */
  function Intersection(a: Interval, b: Interval): (r: Interval)
    ensures forall d :: Include(r, d) <==> Include(a, d) && Include(b, d)
    ensures Overlap(a, b) && NonEmpty(a) && NonEmpty(b) ==> NonEmpty(r)
  {
    Interval(Later(a.start, b.start), Earlier(a.end, b.end))
  }

  /** For periods that hold dates, overlapping means sharing a date. */
  lemma OverlapIffCommonDate(a: Interval, b: Interval)
    requires NonEmpty(a) && NonEmpty(b)
    ensures Overlap(a, b) <==> exists d :: Include(a, d) && Include(b, d)
  {
    if Overlap(a, b) {
      var r := Intersection(a, b);
      var d := if r.start.Some? then r.start.value else if r.end.Some? then r.end.value else 0;
      assert Include(r, d);
    }
  }

  datatype ServiceCalendarDate = ServiceCalendarDate(serviceId: FeedScopedId, date: Date)

  datatype ServiceCalendar = ServiceCalendar(serviceId: FeedScopedId, period: Interval)

  datatype BuilderTrip = BuilderTrip(id: FeedScopedId, serviceId: FeedScopedId)

  /** A trip pattern under its stop pattern key, with the ids of its scheduled trips. */
  datatype PatternEntry = PatternEntry(stopPattern: int, trips: seq<FeedScopedId>)

  datatype TransferPoint = TripTransferPoint(trip: FeedScopedId, stopPosition: int) | OtherTransferPoint(ref: int)

  datatype ConstrainedTransfer = ConstrainedTransfer(from: TransferPoint, to: TransferPoint)

  /** The calendars that overlap `limit`, each cut down to the common dates, in order. */
  function KeptCalendars(calendars: seq<ServiceCalendar>, limit: Interval): (r: seq<ServiceCalendar>)
    ensures |r| <= |calendars|
    ensures forall c :: c in r ==> exists c0 :: c0 in calendars && Overlap(c0.period, limit) && c == c0.(period := Intersection(c0.period, limit))
    ensures forall c0 :: c0 in calendars && Overlap(c0.period, limit) ==> c0.(period := Intersection(c0.period, limit)) in r
  {
    if |calendars| == 0 then []
    else
      var c := calendars[|calendars| - 1];
      var rest := KeptCalendars(calendars[..|calendars| - 1], limit);
      assert forall x :: x in calendars <==> x in calendars[..|calendars| - 1] || x == c;
      if Overlap(c.period, limit) then rest + [c.(period := Intersection(c.period, limit))] else rest
  }

  /** Every service id any calendar or calendar date mentions. */
  function ServiceIdsOf(calendars: seq<ServiceCalendar>, dates: seq<ServiceCalendarDate>): set<FeedScopedId>
  {
    (set c | c in calendars :: c.serviceId) + (set d | d in dates :: d.serviceId)
  }

  /** `removeTrips`: the pattern without the trips that are not among `trips`. */
  function WithoutMissingTrips(p: PatternEntry, trips: set<FeedScopedId>): (r: PatternEntry)
    ensures r.stopPattern == p.stopPattern && |r.trips| <= |p.trips|
    ensures forall t :: t in r.trips <==> t in p.trips && t in trips
  {
    p.(trips := Filter(p.trips, t => t in trips))
  }

  /** The patterns with their trips restricted to `trips`, those left without a trip dropped. */
  function FixedPatterns(patterns: seq<PatternEntry>, trips: set<FeedScopedId>): (r: seq<PatternEntry>)
    ensures |r| <= |patterns|
    ensures forall p :: p in r ==> |p.trips| > 0 && forall t :: t in p.trips ==> t in trips
  {
    if |patterns| == 0 then []
    else
      var p := patterns[|patterns| - 1];
      var rest := FixedPatterns(patterns[..|patterns| - 1], trips);
      var fixed := WithoutMissingTrips(p, trips);
      if |fixed.trips| > 0 then rest + [fixed] else rest
  }

  /** A pattern is kept exactly when it still has a trip once its missing trips are dropped. */
  lemma {:induction false} FixedPatternsMembers(patterns: seq<PatternEntry>, trips: set<FeedScopedId>)
    ensures forall p :: p in FixedPatterns(patterns, trips) <==>
              exists p0 :: p0 in patterns && p == WithoutMissingTrips(p0, trips) && |p.trips| > 0
  {
    if |patterns| > 0 {
      var init := patterns[..|patterns| - 1];
      FixedPatternsMembers(init, trips);
      assert forall x :: x in patterns <==> x in init || x == patterns[|patterns| - 1];
    }
  }

  /** A trip transfer point whose trip is not among `trips`. */
  predicate PointTripMissing(point: TransferPoint, trips: set<FeedScopedId>)
  {
    point.TripTransferPoint? && point.trip !in trips
  }

  predicate TransferTripMissing(t: ConstrainedTransfer, trips: set<FeedScopedId>)
  {
    PointTripMissing(t.from, trips) || PointTripMissing(t.to, trips)
  }

  class OtpTransitServiceBuilder {
    var calendarDates: seq<ServiceCalendarDate>
    var calendars: seq<ServiceCalendar>
    var tripsById: map<FeedScopedId, BuilderTrip>
    /** The stop times of each trip, kept opaque. */
    var stopTimesByTrip: map<FeedScopedId, seq<int>>
    var tripPatterns: seq<PatternEntry>
    var transfers: seq<ConstrainedTransfer>
    /** Trip on service date entities by id, with the id of their trip. */
    var tripOnServiceDates: map<FeedScopedId, FeedScopedId>

    constructor (calendarDates: seq<ServiceCalendarDate>, calendars: seq<ServiceCalendar>,
                 tripsById: map<FeedScopedId, BuilderTrip>, stopTimesByTrip: map<FeedScopedId, seq<int>>,
                 tripPatterns: seq<PatternEntry>, transfers: seq<ConstrainedTransfer>,
                 tripOnServiceDates: map<FeedScopedId, FeedScopedId>)
      ensures this.calendarDates == calendarDates && this.calendars == calendars && this.tripsById == tripsById
      ensures this.stopTimesByTrip == stopTimesByTrip && this.tripPatterns == tripPatterns
      ensures this.transfers == transfers && this.tripOnServiceDates == tripOnServiceDates
    {
      this.calendarDates := calendarDates;
      this.calendars := calendars;
      this.tripsById := tripsById;
      this.stopTimesByTrip := stopTimesByTrip;
      this.tripPatterns := tripPatterns;
      this.transfers := transfers;
      this.tripOnServiceDates := tripOnServiceDates;
    }

    /**
     * `limitServiceDays`: an unbounded period changes nothing.  Otherwise calendar dates
     * outside the period go, calendars not overlapping it go and the others are cut down to
     * it, and then the entities referring to what went are removed.
     */
    method LimitServiceDays(periodLimit: Interval)
      modifies this
      ensures IsUnbounded(periodLimit) ==> unchanged(this)
      ensures !IsUnbounded(periodLimit) ==>
                calendarDates == Filter(old(calendarDates), (c: ServiceCalendarDate) => Include(periodLimit, c.date))
                && calendars == KeptCalendars(old(calendars), periodLimit)
      ensures !IsUnbounded(periodLimit) ==> forall c :: c in calendarDates ==> Include(periodLimit, c.date)
      ensures !IsUnbounded(periodLimit) ==>
                forall k :: k in tripsById <==>
                  k in old(tripsById) && old(tripsById)[k].serviceId in ServiceIdsOf(calendars, calendarDates)
      ensures forall k :: k in tripsById ==> k in old(tripsById) && tripsById[k] == old(tripsById)[k]
      ensures !IsUnbounded(periodLimit) ==>
                forall k :: k in stopTimesByTrip ==>
                  k in tripsById && k in old(stopTimesByTrip) && stopTimesByTrip[k] == old(stopTimesByTrip)[k]
      ensures forall k :: k in old(stopTimesByTrip) && k in tripsById ==> k in stopTimesByTrip
      ensures !IsUnbounded(periodLimit) ==> tripPatterns == FixedPatterns(old(tripPatterns), tripsById.Keys)
      ensures !IsUnbounded(periodLimit) ==>
                forall t :: t in transfers <==> t in old(transfers) && !TransferTripMissing(t, tripsById.Keys)
      ensures tripOnServiceDates == old(tripOnServiceDates)
    {
      if IsUnbounded(periodLimit) {
        return;
      }
      calendarDates := Filter(calendarDates, (c: ServiceCalendarDate) => Include(periodLimit, c.date));

      LimitCalendars(periodLimit);
      RemoveEntitiesWithInvalidReferences();
    }

    /** The calendars overlapping the period, each cut down to the common part. */
    method LimitCalendars(periodLimit: Interval)
      modifies this`calendars
      ensures calendars == KeptCalendars(old(calendars), periodLimit)
    {
      var keepCal: seq<ServiceCalendar> := [];
      var i := 0;
      while i < |calendars|
        invariant 0 <= i <= |calendars|
        invariant keepCal == KeptCalendars(calendars[..i], periodLimit)
      {
        var calendar := calendars[i];
        if Overlap(calendar.period, periodLimit) {
          keepCal := keepCal + [calendar.(period := Intersection(calendar.period, periodLimit))];
        }
        assert calendars[..i + 1][..i] == calendars[..i];
        i := i + 1;
      }
      assert calendars[..i] == calendars;
      // The kept calendars were changed in place, so the list is the kept list either way.
      calendars := keepCal;
    }

    /** `findAllServiceIds`: the service ids of every calendar and every calendar date. */
    method FindAllServiceIds() returns (serviceIds: set<FeedScopedId>)
      ensures serviceIds == ServiceIdsOf(calendars, calendarDates)
      ensures forall c :: c in calendars ==> c.serviceId in serviceIds
      ensures forall d :: d in calendarDates ==> d.serviceId in serviceIds
    {
      serviceIds := {};
      var i := 0;
      while i < |calendars|
        invariant 0 <= i <= |calendars|
        invariant serviceIds == set c | c in calendars[..i] :: c.serviceId
      {
        assert calendars[..i + 1] == calendars[..i] + [calendars[i]];
        serviceIds := serviceIds + {calendars[i].serviceId};
        i := i + 1;
      }
      assert calendars[..i] == calendars;
      var j := 0;
      while j < |calendarDates|
        invariant 0 <= j <= |calendarDates|
        invariant serviceIds == (set c | c in calendars :: c.serviceId) + (set d | d in calendarDates[..j] :: d.serviceId)
      {
        assert calendarDates[..j + 1] == calendarDates[..j] + [calendarDates[j]];
        serviceIds := serviceIds + {calendarDates[j].serviceId};
        j := j + 1;
      }
      assert calendarDates[..j] == calendarDates;
    }

    method RemoveEntitiesWithInvalidReferences()
      modifies this`tripsById, this`stopTimesByTrip, this`tripPatterns, this`transfers
      ensures forall k :: k in tripsById <==>
                k in old(tripsById) && old(tripsById)[k].serviceId in ServiceIdsOf(calendars, calendarDates)
      ensures forall k :: k in tripsById ==> tripsById[k] == old(tripsById)[k]
      ensures forall k :: k in stopTimesByTrip ==>
                k in tripsById && k in old(stopTimesByTrip) && stopTimesByTrip[k] == old(stopTimesByTrip)[k]
      ensures forall k :: k in old(stopTimesByTrip) && k in tripsById ==> k in stopTimesByTrip
      ensures tripPatterns == FixedPatterns(old(tripPatterns), tripsById.Keys)
      ensures forall t :: t in transfers <==> t in old(transfers) && !TransferTripMissing(t, tripsById.Keys)
    {
      RemoveTripsWithNoneExistingServiceIds();
      RemoveStopTimesForNoneExistingTrips();
      FixOrRemovePatternsWhichReferenceNoneExistingTrips();
      RemoveTransfersForNoneExistingTrips();
      // Trip on service dates whose trip is gone are only reported, never removed.
    }

    method RemoveTripsWithNoneExistingServiceIds()
      modifies this`tripsById
      ensures forall k :: k in tripsById <==>
                k in old(tripsById) && old(tripsById)[k].serviceId in ServiceIdsOf(calendars, calendarDates)
      ensures forall k :: k in tripsById ==> tripsById[k] == old(tripsById)[k]
    {
      var serviceIds := FindAllServiceIds();
      tripsById := map k | k in tripsById && tripsById[k].serviceId in serviceIds :: tripsById[k];
    }

    method RemoveStopTimesForNoneExistingTrips()
      modifies this`stopTimesByTrip
      ensures forall k :: k in stopTimesByTrip <==> k in old(stopTimesByTrip) && k in tripsById
      ensures forall k :: k in stopTimesByTrip ==> stopTimesByTrip[k] == old(stopTimesByTrip)[k]
    {
      stopTimesByTrip := map k | k in stopTimesByTrip && k in tripsById :: stopTimesByTrip[k];
    }

    /** Drops missing trips from every pattern, then the patterns left without scheduled trips. */
    method FixOrRemovePatternsWhichReferenceNoneExistingTrips()
      modifies this`tripPatterns
      ensures tripPatterns == FixedPatterns(old(tripPatterns), tripsById.Keys)
    {
      var trips := tripsById.Keys;
      var kept: seq<PatternEntry> := [];
      var i := 0;
      while i < |tripPatterns|
        invariant 0 <= i <= |tripPatterns|
        invariant kept == FixedPatterns(tripPatterns[..i], trips)
      {
        var ptn := WithoutMissingTrips(tripPatterns[i], trips);
        assert tripPatterns[..i + 1][..i] == tripPatterns[..i];
        if |ptn.trips| > 0 {
          kept := kept + [ptn];
        }
        i := i + 1;
      }
      assert tripPatterns[..i] == tripPatterns;
      tripPatterns := kept;
    }

    method RemoveTransfersForNoneExistingTrips()
      modifies this`transfers
      ensures var trips := tripsById.Keys; transfers == Filter(old(transfers), t => !TransferTripMissing(t, trips))
      ensures forall t :: t in transfers <==> t in old(transfers) && !TransferTripMissing(t, tripsById.Keys)
    {
      var trips := tripsById.Keys;
      transfers := Filter(transfers, t => !TransferTripMissing(t, trips));
    }
  }
}
