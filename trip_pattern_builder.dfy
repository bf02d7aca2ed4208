// TripPatternBuilder: the mutable builder of a trip pattern, and how it derives the hop
// geometries of a pattern created by a real-time update from the pattern it replaces.
// Line strings are sequences of coordinates; their compaction is left out.

module TripPatternBuilders {
  import opened Wrappers
  import opened Framework
  import opened StationElements
  import opened Timetables

  type LineString = seq<Coordinate>

  /**
   * A built trip pattern as the builder reads it.  `hops[i]` is what the pattern gives as
   * the hop geometry at stop position `i` (null when it has none), one per stop position;
   * `hasGeometry` tells whether the pattern has a geometry at all.
   */
  datatype TripPatternValue = TripPatternValue(
    id: FeedScopedId,
    name: Option<string>,
    route: Option<FeedScopedId>,
    stops: seq<Element>,
    scheduled: Option<Timetable>,
    createdByRealtime: bool,
    original: Option<TripPatternValue>,
    hasGeometry: bool,
    hops: seq<Option<LineString>>)

  predicate WellFormed(p: TripPatternValue)
  {
    |p.hops| == |p.stops|
  }

  function Min(a: int, b: int): int
  {
    if a < b then a else b
  }

  /** Stops `i` and `i + 1` are the same stops in both patterns. */
  predicate SameStops(a: seq<Element>, b: seq<Element>, i: nat)
    requires i + 1 < |a| && i + 1 < |b|
  {
    a[i].id == b[i].id && a[i + 1].id == b[i + 1].id
  }

  /** Stops `i` and `i + 1` of `a` each have the same parent station as those of `b`. */
  predicate SameStations(a: seq<Element>, b: seq<Element>, i: nat)
    requires i + 1 < |a| && i + 1 < |b|
  {
    IsPartOfSameStationAs(a[i], Some(b[i])) && IsPartOfSameStationAs(a[i + 1], Some(b[i + 1]))
  }

  /**
   * Hop `i` of the new pattern: the original hop when the stops are the same; the original
   * hop with its end points moved to the new stops when only the stations are the same;
   * else a straight line between the new stops.  Reading a stop's coordinate can throw,
   * and so can patching a geometry without points.
   */
  function Hop(stops: seq<Element>, original: TripPatternValue, i: nat): (r: Result<LineString>)
    requires WellFormed(original)
    requires i + 1 < Min(|stops|, |original.stops|)
    ensures original.hops[i].Some? && SameStops(stops, original.stops, i) ==> r == Success(original.hops[i].value)
    ensures original.hops[i].Some? && !SameStops(stops, original.stops, i) && SameStations(stops, original.stops, i) ==>
              GetCoordinate(stops[i]).Success? && GetCoordinate(stops[i + 1]).Success?
              && (r.Success? <==> |original.hops[i].value| > 0)
              && (r.Success? ==> |r.value| == |original.hops[i].value|
                                 && (|r.value| > 1 ==> r.value[0] == GetCoordinate(stops[i]).value)
                                 && r.value[|r.value| - 1] == GetCoordinate(stops[i + 1]).value
                                 && forall k :: 0 < k < |r.value| - 1 ==> r.value[k] == original.hops[i].value[k])
    ensures !(original.hops[i].Some? && (SameStops(stops, original.stops, i) || SameStations(stops, original.stops, i))) ==>
              (r.Success? <==> GetCoordinate(stops[i]).Success? && GetCoordinate(stops[i + 1]).Success?)
              && (r.Success? ==> r.value == [GetCoordinate(stops[i]).value, GetCoordinate(stops[i + 1]).value])
  {
    var hop := original.hops[i];
    if hop.Some? && SameStops(stops, original.stops, i) then Success(hop.value)
    else if hop.Some? && SameStations(stops, original.stops, i) then
      // Both stops have a parent station, so both have a coordinate.
      var newStart := GetCoordinate(stops[i]).value;
      var newEnd := GetCoordinate(stops[i + 1]).value;
      if |hop.value| == 0 then Failure("ArrayIndexOutOfBoundsException")
      else Success(hop.value[0 := newStart][|hop.value| - 1 := newEnd])
    else
      var start := GetCoordinate(stops[i]);
      if start.Failure? then Failure(start.error)
      else
        var end := GetCoordinate(stops[i + 1]);
        if end.Failure? then Failure(end.error)
        else Success([start.value, end.value])
  }

  /** The first `k` hops, or the first failure among them. */
  function Hops(stops: seq<Element>, original: TripPatternValue, k: nat): (r: Result<seq<LineString>>)
    requires WellFormed(original)
    requires k <= DerivedHopCount(stops, original)
    ensures r.Success? ==> |r.value| == k && forall i :: 0 <= i < k ==> Hop(stops, original, i) == Success(r.value[i])
    ensures r.Failure? <==> exists i :: 0 <= i < k && Hop(stops, original, i).Failure?
  {
    if k == 0 then Success([])
    else
      match Hops(stops, original, k - 1)
      case Failure(e) => Failure(e)
      case Success(prefix) =>
        match Hop(stops, original, k - 1)
        case Failure(e) => Failure(e)
        case Success(h) => Success(prefix + [h])
  }

  /** The number of hops derived: one fewer than the shorter of the two patterns, and none for fewer than two stops. */
  function DerivedHopCount(stops: seq<Element>, original: TripPatternValue): (n: nat)
    ensures n == 0 <==> Min(|stops|, |original.stops|) <= 1
    ensures n > 0 ==> n + 1 == Min(|stops|, |original.stops|)
  {
    if Min(|stops|, |original.stops|) <= 1 then 0 else Min(|stops|, |original.stops|) - 1
  }

  /** When both patterns have the same stops throughout, the derived geometry is the original one. */
  lemma {:induction false} SameStopsKeepOriginalHops(stops: seq<Element>, original: TripPatternValue, k: nat)
    requires WellFormed(original)
    requires k <= DerivedHopCount(stops, original)
    requires forall i :: 0 <= i < k ==> SameStops(stops, original.stops, i) && original.hops[i].Some?
    ensures Hops(stops, original, k).Success?
    ensures forall i :: 0 <= i < k ==> Hops(stops, original, k).value[i] == original.hops[i].value
  {
    if k > 0 {
      SameStopsKeepOriginalHops(stops, original, k - 1);
    }
  }

  /** Once hop `i` fails, every longer prefix fails with its error. */
  lemma HopsFailFrom(stops: seq<Element>, original: TripPatternValue, i: nat, k: nat)
    requires WellFormed(original)
    requires i < k <= DerivedHopCount(stops, original)
    requires Hops(stops, original, i).Success? && Hop(stops, original, i).Failure?
    ensures Hops(stops, original, k) == Failure(Hop(stops, original, i).error)
    decreases k
  {
    if k > i + 1 {
      HopsFailFrom(stops, original, i, k - 1);
    }
  }

  class TripPatternBuilder {
    const id: FeedScopedId
    var name: Option<string>
    var route: Option<FeedScopedId>
    var stopPattern: Option<seq<Element>>
    var scheduledTimetable: Option<Timetable>
    var createdByRealtimeUpdate: bool
    var originalTripPattern: Option<TripPatternValue>
    var hopGeometries: Option<seq<Option<LineString>>>

    constructor (id: FeedScopedId)
      ensures this.id == id && name.None? && route.None? && stopPattern.None? && scheduledTimetable.None?
      ensures !createdByRealtimeUpdate && originalTripPattern.None? && hopGeometries.None?
    {
      this.id := id;
      name := None;
      route := None;
      stopPattern := None;
      scheduledTimetable := None;
      createdByRealtimeUpdate := false;
      originalTripPattern := None;
      hopGeometries := None;
    }

    /** The copy constructor: every field from the pattern, its hop geometries only if it has a geometry. */
    constructor FromPattern(original: TripPatternValue)
      ensures id == original.id && name == original.name && route == original.route
      ensures stopPattern == Some(original.stops) && scheduledTimetable == original.scheduled
      ensures createdByRealtimeUpdate == original.createdByRealtime && originalTripPattern == original.original
      ensures hopGeometries == if original.hasGeometry then Some(original.hops) else None
    {
      id := original.id;
      name := original.name;
      route := original.route;
      stopPattern := Some(original.stops);
      scheduledTimetable := original.scheduled;
      createdByRealtimeUpdate := original.createdByRealtime;
      originalTripPattern := original.original;
      hopGeometries := if original.hasGeometry then Some(original.hops) else None;
    }

    method WithName(name: string) returns (b: TripPatternBuilder)
      modifies this`name
      ensures b == this && this.name == Some(name)
    {
      this.name := Some(name);
      b := this;
    }

    method WithRoute(route: FeedScopedId) returns (b: TripPatternBuilder)
      modifies this`route
      ensures b == this && this.route == Some(route)
    {
      this.route := Some(route);
      b := this;
    }

    method WithStopPattern(stopPattern: seq<Element>) returns (b: TripPatternBuilder)
      modifies this`stopPattern
      ensures b == this && this.stopPattern == Some(stopPattern)
    {
      this.stopPattern := Some(stopPattern);
      b := this;
    }

    method WithCreatedByRealtimeUpdater(createdByRealtimeUpdate: bool) returns (b: TripPatternBuilder)
      modifies this`createdByRealtimeUpdate
      ensures b == this && this.createdByRealtimeUpdate == createdByRealtimeUpdate
    {
      this.createdByRealtimeUpdate := createdByRealtimeUpdate;
      b := this;
    }

    method WithOriginalTripPattern(originalTripPattern: TripPatternValue) returns (b: TripPatternBuilder)
      modifies this`originalTripPattern
      ensures b == this && this.originalTripPattern == Some(originalTripPattern)
    {
      this.originalTripPattern := Some(originalTripPattern);
      b := this;
    }

    method WithHopGeometries(hopGeometries: seq<Option<LineString>>) returns (b: TripPatternBuilder)
      modifies this`hopGeometries
      ensures b == this && this.hopGeometries == Some(hopGeometries)
    {
      this.hopGeometries := Some(hopGeometries);
      b := this;
    }

    /**
     * `hopGeometries()`: the explicit hop geometries if set, else those derived from the
     * original pattern if there is one, else none.
     */
    method HopGeometries() returns (r: Result<Option<seq<Option<LineString>>>>)
      requires originalTripPattern.Some? ==> WellFormed(originalTripPattern.value)
      ensures hopGeometries.Some? ==> r == Success(hopGeometries)
      ensures hopGeometries.None? && originalTripPattern.None? ==> r == Success(None)
      ensures hopGeometries.None? && originalTripPattern.Some? && stopPattern.None? ==> r.Failure?
      ensures hopGeometries.None? && originalTripPattern.Some? && stopPattern.Some? ==>
                var derived := Hops(stopPattern.value, originalTripPattern.value,
                                    DerivedHopCount(stopPattern.value, originalTripPattern.value));
                (r.Success? <==> derived.Success?)
                && (r.Success? ==> r.value.Some? && |r.value.value| == |derived.value|
                                   && forall i :: 0 <= i < |derived.value| ==> r.value.value[i] == Some(derived.value[i]))
    {
      if hopGeometries.Some? {
        return Success(hopGeometries);
      }
      if originalTripPattern.None? {
        return Success(None);
      }
      var generated := GenerateHopGeometriesFromOriginalTripPattern();
      if generated.Failure? {
        return Failure(generated.error);
      }
      var g := generated.value;
      return Success(Some(seq(|g|, i requires 0 <= i < |g| => Some(g[i]))));
    }

    /** Derives one hop per pair of consecutive stops that both patterns have. */
    method GenerateHopGeometriesFromOriginalTripPattern() returns (r: Result<seq<LineString>>)
      requires originalTripPattern.Some? && WellFormed(originalTripPattern.value)
      ensures stopPattern.None? ==> r.Failure?
      ensures stopPattern.Some? ==>
                r == Hops(stopPattern.value, originalTripPattern.value,
                          DerivedHopCount(stopPattern.value, originalTripPattern.value))
    {
      if stopPattern.None? {
        return Failure("NullPointerException");
      }
      var stops := stopPattern.value;
      var original := originalTripPattern.value;
      var sizeOfShortestPattern := Min(|stops|, |original.stops|);
      var hops: seq<LineString> := [];
      var i := 0;
      while i < sizeOfShortestPattern - 1
        invariant 0 <= i <= DerivedHopCount(stops, original)
        invariant Hops(stops, original, i) == Success(hops)
      {
        var hopGeometry := original.hops[i];
        if hopGeometry.Some? && SameStops(stops, original.stops, i) {
          hops := hops + [hopGeometry.value];
        } else if hopGeometry.Some? && SameStations(stops, original.stops, i) {
          // Both stops have a parent station, so both have a coordinate.
          var newStart := GetCoordinate(stops[i]).value;
          var newEnd := GetCoordinate(stops[i + 1]).value;
          var coordinates := hopGeometry.value;
          if |coordinates| == 0 {
            HopsFailFrom(stops, original, i, DerivedHopCount(stops, original));
            return Failure("ArrayIndexOutOfBoundsException");
          }
          coordinates := coordinates[0 := newStart];
          coordinates := coordinates[|coordinates| - 1 := newEnd];
          hops := hops + [coordinates];
        } else {
          var start := GetCoordinate(stops[i]);
          if start.Failure? {
            HopsFailFrom(stops, original, i, DerivedHopCount(stops, original));
            return Failure(start.error);
          }
          var end := GetCoordinate(stops[i + 1]);
          if end.Failure? {
            HopsFailFrom(stops, original, i, DerivedHopCount(stops, original));
            return Failure(end.error);
          }
          hops := hops + [[start.value, end.value]];
        }
        i := i + 1;
      }
      return Success(hops);
    }
  }
}
