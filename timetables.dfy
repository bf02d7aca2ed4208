// The timetable collaborators of the real-time updater: trip times, timetables,
// trip patterns, and the versioned map from (pattern, service date) to timetable
// that is held in a mutable working buffer and published as immutable snapshots.
// Their classes (TripTimes, Timetable, TripPattern, TimetableSnapshot) are not part
// of this model; the contracts below are the ones their callers rely on.

module Timetables {
  import opened Wrappers
  import opened Framework
  import opened StationElements

  datatype RealTimeState = Scheduled | Updated | Canceled | Added | Modified

  datatype Trip = Trip(id: FeedScopedId, routeId: FeedScopedId, serviceId: FeedScopedId)

  /** Value that a stop time holds for a time that was never set. */
  const MissingTime: int := -999

  /** Times of one trip at one stop position, in seconds since the start of service. */
  datatype StopTimes = StopTimes(
    scheduledArrival: int,
    scheduledDeparture: int,
    arrival: int,
    departure: int,
    cancelled: bool,
    predictionInaccurate: bool)

  datatype TripTimes = TripTimes(trip: Trip, stops: seq<StopTimes>, state: RealTimeState)

  predicate IsCanceled(tt: TripTimes)
  {
    tt.state == Canceled
  }

  /** `cancelTrip`: the whole trip becomes CANCELED, its times are kept. */
  function CancelTrip(tt: TripTimes): (r: TripTimes)
    ensures IsCanceled(r) && r.trip == tt.trip && r.stops == tt.stops
  {
    tt.(state := Canceled)
  }

  function ArrivalDelay(tt: TripTimes, i: nat): int
    requires i < |tt.stops|
  {
    tt.stops[i].arrival - tt.stops[i].scheduledArrival
  }

  function DepartureDelay(tt: TripTimes, i: nat): int
    requires i < |tt.stops|
  {
    tt.stops[i].departure - tt.stops[i].scheduledDeparture
  }

  /** The times-increasing invariant: arrival <= departure <= next arrival. */
  predicate TimesIncreasing(tt: TripTimes)
  {
    (forall i :: 0 <= i < |tt.stops| ==> tt.stops[i].arrival <= tt.stops[i].departure)
    && (forall i :: 0 <= i < |tt.stops| - 1 ==> tt.stops[i].departure <= tt.stops[i + 1].arrival)
  }

  // ---------------------------------------------------------------- timetables

  /** A timetable: the trip times of one pattern, in order. */
  type Timetable = seq<TripTimes>

  /** `getTripIndex`: the first position holding the trip, or -1. */
  function TripIndex(t: Timetable, tripId: FeedScopedId): (r: int)
    ensures -1 <= r < |t|
    ensures r >= 0 ==> t[r].trip.id == tripId && forall j :: 0 <= j < r ==> t[j].trip.id != tripId
    ensures r == -1 <==> forall j :: 0 <= j < |t| ==> t[j].trip.id != tripId
  {
    if |t| == 0 then -1
    else if t[0].trip.id == tripId then 0
    else
      var r := TripIndex(t[1..], tripId);
      if r == -1 then -1 else r + 1
  }

  /** `getTripTimes`: the first trip times of the trip, if any. */
  function GetTripTimes(t: Timetable, tripId: FeedScopedId): (r: Option<TripTimes>)
    ensures r.Some? <==> exists j :: 0 <= j < |t| && t[j].trip.id == tripId
    ensures r.Some? ==> r.value in t && r.value.trip.id == tripId
  {
    var i := TripIndex(t, tripId);
    if i == -1 then None else Some(t[i])
  }

  /** Replaces the trip's times where the trip already is, else appends them. */
  function SetTripTimes(t: Timetable, tt: TripTimes): (r: Timetable)
    ensures |r| == |t| || |r| == |t| + 1
    ensures tt in r
  {
    var i := TripIndex(t, tt.trip.id);
    if i == -1 then t + [tt] else assert t[i := tt][i] == tt; t[i := tt]
  }

  /** Each trip occurs at most once in the timetable. */
  predicate UniqueTrips(t: Timetable)
  {
    forall i, j :: 0 <= i < j < |t| ==> t[i].trip.id != t[j].trip.id
  }

  /** Drops the first trip times of the trip, if there are any. */
  function RemoveTripTimes(t: Timetable, tripId: FeedScopedId): (r: Timetable)
    ensures TripIndex(t, tripId) == -1 ==> r == t
    ensures TripIndex(t, tripId) >= 0 ==> |r| == |t| - 1
    ensures forall x :: x in r ==> x in t
  {
    var i := TripIndex(t, tripId);
    if i == -1 then t else t[..i] + t[i + 1..]
  }

  /** After setting a trip's times, looking the trip up gives exactly those times. */
  lemma {:induction false} GetAfterSet(t: Timetable, tt: TripTimes)
    ensures GetTripTimes(SetTripTimes(t, tt), tt.trip.id) == Some(tt)
  {
    var i := TripIndex(t, tt.trip.id);
    var r := SetTripTimes(t, tt);
    var k := TripIndex(r, tt.trip.id);
    if i == -1 {
      assert r[|t|] == tt;
      assert k == |t| by {
        assert forall j :: 0 <= j < |t| ==> r[j] == t[j];
      }
    } else {
      assert r[i] == tt;
      assert k == i by {
        assert forall j :: 0 <= j < i ==> r[j] == t[j];
      }
    }
  }

  /** Setting one trip's times leaves every other trip's lookup as it was. */
  lemma {:induction false} GetOtherAfterSet(t: Timetable, tt: TripTimes, other: FeedScopedId)
    requires other != tt.trip.id
    ensures GetTripTimes(SetTripTimes(t, tt), other) == GetTripTimes(t, other)
  {
    var i := TripIndex(t, tt.trip.id);
    var r := SetTripTimes(t, tt);
    var k := TripIndex(t, other);
    var k' := TripIndex(r, other);
    if i == -1 {
      assert forall j :: 0 <= j < |t| ==> r[j] == t[j];
      if k == -1 {
        assert k' == -1;
      } else {
        assert k' == k;
      }
    } else {
      assert forall j :: 0 <= j < |t| && j != i ==> r[j] == t[j];
      if k == -1 {
        assert k' == -1;
      } else {
        assert k' == k;
      }
    }
  }

  /** Setting the same trip times twice is the same as setting them once. */
  lemma {:induction false} SetTwice(t: Timetable, tt: TripTimes)
    ensures SetTripTimes(SetTripTimes(t, tt), tt) == SetTripTimes(t, tt)
  {
    var i := TripIndex(t, tt.trip.id);
    var r := SetTripTimes(t, tt);
    var k := TripIndex(r, tt.trip.id);
    if i == -1 {
      assert r[|t|] == tt;
      assert k == |t| by {
        assert forall j :: 0 <= j < |t| ==> r[j] == t[j];
      }
    } else {
      assert r[i] == tt;
      assert k == i by {
        assert forall j :: 0 <= j < i ==> r[j] == t[j];
      }
    }
  }

  /** Setting trip times keeps every trip at most once. */
  lemma SetKeepsDistinct(t: Timetable, tt: TripTimes)
    requires UniqueTrips(t)
    ensures UniqueTrips(SetTripTimes(t, tt))
  {
  }

  /** In a timetable holding each trip at most once, a removed trip is no longer found. */
  lemma RemoveThenGone(t: Timetable, tripId: FeedScopedId)
    requires UniqueTrips(t)
    ensures GetTripTimes(RemoveTripTimes(t, tripId), tripId).None?
  {
    var i := TripIndex(t, tripId);
    var r := RemoveTripTimes(t, tripId);
    if i != -1 {
      forall j | 0 <= j < |r|
        ensures r[j].trip.id != tripId
      {
        if j < i {
          assert r[j] == t[j];
        } else {
          assert r[j] == t[j + 1];
        }
      }
    }
  }

  /** After removing a trip other trips are kept. */
  lemma {:induction false} RemoveThenGet(t: Timetable, tripId: FeedScopedId, other: FeedScopedId)
    requires other != tripId
    ensures GetTripTimes(RemoveTripTimes(t, tripId), other) == GetTripTimes(t, other)
  {
    var i := TripIndex(t, tripId);
    var r := RemoveTripTimes(t, tripId);
    var k := TripIndex(t, other);
    var k' := TripIndex(r, other);
    if i != -1 {
      if k == -1 {
        forall j | 0 <= j < |r|
          ensures r[j].trip.id != other
        {
          if j < i {
            assert r[j] == t[j];
          } else {
            assert r[j] == t[j + 1];
          }
        }
        assert k' == -1;
      } else if k < i {
        forall j | 0 <= j <= k
          ensures r[j] == t[j]
        {
        }
        assert k' == k;
      } else {
        forall j | 0 <= j < k - 1
          ensures r[j].trip.id != other
        {
          if j < i {
            assert r[j] == t[j];
          } else {
            assert r[j] == t[j + 1];
          }
        }
        assert r[k - 1] == t[k];
        assert k' == k - 1;
      }
    }
  }

  // ------------------------------------------------------------------ patterns

  datatype PickDrop = ScheduledPickDrop | NoPickDrop | CancelledPickDrop

  /** One position of a stop pattern: the stop and whether boarding and alighting happen there. */
  datatype PatternStop = PatternStop(stop: Element, pickup: PickDrop, dropOff: PickDrop)

  /** Patterns from the static schedule keep their ids; real-time patterns are numbered per feed. */
  datatype PatternId = StaticPattern(id: FeedScopedId) | RealtimePattern(feedId: string, number: nat)

  function PatternFeed(id: PatternId): string
  {
    match id
    case StaticPattern(fid) => fid.feedId
    case RealtimePattern(feed, _) => feed
  }

  datatype Pattern = Pattern(
    id: PatternId,
    routeId: FeedScopedId,
    stops: seq<PatternStop>,
    scheduled: Timetable,
    createdByRealtime: bool)

  /** A stop time of a trip, as the stop pattern and the scheduled times are built from. */
  datatype StopTime = StopTime(
    stop: Element,
    stopSequence: int,
    arrival: int,
    departure: int,
    pickup: PickDrop,
    dropOff: PickDrop)

  /** The stop pattern of a list of stop times. */
  function StopPatternOf(sts: seq<StopTime>): (r: seq<PatternStop>)
    ensures |r| == |sts|
    ensures forall i :: 0 <= i < |sts| ==> r[i].stop == sts[i].stop
  {
    seq(|sts|, i requires 0 <= i < |sts| => PatternStop(sts[i].stop, sts[i].pickup, sts[i].dropOff))
  }

  // ----------------------------------------------------- versioned timetables

  /** What a snapshot holds: the date-specific timetables and the real-time-added patterns. */
  datatype Contents = Contents(
    timetables: map<(PatternId, Date), Timetable>,
    realtimeAdded: map<(FeedScopedId, Date), Pattern>,
    datedServiceJourneys: map<FeedScopedId, (FeedScopedId, Date)>)

  const EmptyContents: Contents := Contents(map[], map[], map[])

  /** `resolve(pattern, date)`: the date-specific timetable if any, else the scheduled one. */
  function Resolve(c: Contents, p: Pattern, date: Option<Date>): (r: Timetable)
    ensures date.None? ==> r == p.scheduled
    ensures date.Some? && (p.id, date.value) !in c.timetables ==> r == p.scheduled
  {
    if date.Some? && (p.id, date.value) in c.timetables then c.timetables[(p.id, date.value)]
    else p.scheduled
  }

  function RealtimeAddedTripPattern(c: Contents, tripId: FeedScopedId, date: Date): Option<Pattern>
  {
    if (tripId, date) in c.realtimeAdded then Some(c.realtimeAdded[(tripId, date)]) else None
  }

  /** The working buffer: contents plus whether they changed since the last commit. */
  datatype Buffer = Buffer(contents: Contents, dirty: bool)

  const EmptyBuffer: Buffer := Buffer(EmptyContents, false)

  /** Two contents that agree on every entry dated other than `date`. */
  predicate SameOutside(a: Contents, b: Contents, date: Date)
  {
    (forall k :: k in a.timetables && k.1 != date ==> k in b.timetables && b.timetables[k] == a.timetables[k])
    && (forall k :: k in b.timetables && k.1 != date ==> k in a.timetables)
    && (forall k :: k in a.realtimeAdded && k.1 != date ==> k in b.realtimeAdded && b.realtimeAdded[k] == a.realtimeAdded[k])
    && (forall k :: k in b.realtimeAdded && k.1 != date ==> k in a.realtimeAdded)
  }

  lemma SameOutsideReflexive(a: Contents, date: Date)
    ensures SameOutside(a, a, date)
  {
  }

  lemma SameOutsideTransitive(a: Contents, b: Contents, c: Contents, date: Date)
    requires SameOutside(a, b, date) && SameOutside(b, c, date)
    ensures SameOutside(a, c, date)
  {
  }

  /**
   * `update(pattern, tripTimes, date)`: rejects trip times whose stop count differs from
   * the pattern's or whose times decrease; otherwise writes them into the date-specific
   * timetable (a copy of the scheduled one on the first write), remembers a real-time
   * pattern for the (trip, date), and marks the buffer dirty.
   */
  function Update(b: Buffer, p: Pattern, tt: TripTimes, date: Date): (r: (Buffer, bool))
    ensures r.1 <==> |tt.stops| == |p.stops| && TimesIncreasing(tt)
    ensures !r.1 ==> r.0 == b
    ensures r.1 ==> r.0.dirty
    ensures r.1 ==> Resolve(r.0.contents, p, Some(date)) == SetTripTimes(Resolve(b.contents, p, Some(date)), tt)
    ensures r.1 && p.createdByRealtime ==> RealtimeAddedTripPattern(r.0.contents, tt.trip.id, date) == Some(p)
    ensures !p.createdByRealtime ==> r.0.contents.realtimeAdded == b.contents.realtimeAdded
    ensures r.0.contents.datedServiceJourneys == b.contents.datedServiceJourneys
    ensures SameOutside(b.contents, r.0.contents, date)
  {
    if |tt.stops| != |p.stops| || !TimesIncreasing(tt) then (b, false)
    else
      var c := b.contents;
      var t := SetTripTimes(Resolve(c, p, Some(date)), tt);
      var added := if p.createdByRealtime then c.realtimeAdded[(tt.trip.id, date) := p] else c.realtimeAdded;
      (Buffer(c.(timetables := c.timetables[(p.id, date) := t], realtimeAdded := added), true), true)
  }

  /** A successful update makes the new trip times visible for that pattern and date. */
  lemma UpdateIsVisible(b: Buffer, p: Pattern, tt: TripTimes, date: Date)
    requires Update(b, p, tt, date).1
    ensures GetTripTimes(Resolve(Update(b, p, tt, date).0.contents, p, Some(date)), tt.trip.id) == Some(tt)
    ensures Resolve(Update(b, p, tt, date).0.contents, p, None) == p.scheduled
  {
    GetAfterSet(Resolve(b.contents, p, Some(date)), tt);
  }

  /**
   * The date-specific copy is separate from the scheduled timetable: other trips keep the
   * trip times of the timetable the update started from.
   */
  lemma UpdateKeepsOtherTrips(b: Buffer, p: Pattern, tt: TripTimes, date: Date, other: FeedScopedId)
    requires other != tt.trip.id
    ensures GetTripTimes(Resolve(Update(b, p, tt, date).0.contents, p, Some(date)), other)
            == GetTripTimes(Resolve(b.contents, p, Some(date)), other)
  {
    if Update(b, p, tt, date).1 {
      GetOtherAfterSet(Resolve(b.contents, p, Some(date)), tt, other);
    }
  }

  /** Applying the same update twice leaves the buffer as the first application left it. */
  lemma UpdateTwice(b: Buffer, p: Pattern, tt: TripTimes, date: Date)
    ensures Update(Update(b, p, tt, date).0, p, tt, date) == (Update(b, p, tt, date).0, Update(b, p, tt, date).1)
  {
    var r := Update(b, p, tt, date);
    if r.1 {
      SetTwice(Resolve(b.contents, p, Some(date)), tt);
      var r2 := Update(r.0, p, tt, date);
      assert r2.0.contents.timetables == r.0.contents.timetables;
      assert r2.0.contents.realtimeAdded == r.0.contents.realtimeAdded;
      assert r2.0.contents == r.0.contents;
    }
  }

  /** `removeLastAddedTripPattern`: forgets the real-time pattern of (trip, date). */
  function RemoveLastAddedTripPattern(b: Buffer, tripId: FeedScopedId, date: Date): (r: Buffer)
    ensures RealtimeAddedTripPattern(r.contents, tripId, date).None?
    ensures forall k :: k in b.contents.realtimeAdded && k != (tripId, date) ==>
              k in r.contents.realtimeAdded && r.contents.realtimeAdded[k] == b.contents.realtimeAdded[k]
    ensures r.contents.timetables == b.contents.timetables
    ensures SameOutside(b.contents, r.contents, date)
  {
    b.(contents := b.contents.(realtimeAdded := b.contents.realtimeAdded - {(tripId, date)}))
  }

  /** `removeRealtimeUpdatedTripTimes`: drops the trip from the date-specific timetable of the pattern. */
  function RemoveRealtimeUpdatedTripTimes(b: Buffer, p: Pattern, tripId: FeedScopedId, date: Date): (r: Buffer)
    ensures (p.id, date) !in b.contents.timetables ==> r == b
    ensures (p.id, date) in b.contents.timetables ==>
              r.contents.timetables == b.contents.timetables[(p.id, date) := RemoveTripTimes(b.contents.timetables[(p.id, date)], tripId)]
    ensures r.contents.realtimeAdded == b.contents.realtimeAdded
    ensures SameOutside(b.contents, r.contents, date)
    ensures (p.id, date) in b.contents.timetables && UniqueTrips(b.contents.timetables[(p.id, date)]) ==>
              GetTripTimes(Resolve(r.contents, p, Some(date)), tripId).None?
  {
    if (p.id, date) in b.contents.timetables then
      var t := RemoveTripTimes(b.contents.timetables[(p.id, date)], tripId);
      assert UniqueTrips(b.contents.timetables[(p.id, date)]) ==> GetTripTimes(t, tripId).None? by {
        if UniqueTrips(b.contents.timetables[(p.id, date)]) {
          RemoveThenGone(b.contents.timetables[(p.id, date)], tripId);
        }
      }
      b.(contents := b.contents.(timetables := b.contents.timetables[(p.id, date) := t]))
    else b
  }

  /** `addLastAddedTripOnServiceDate`: registers a dated service journey id for (trip, date). */
  function AddTripOnServiceDate(b: Buffer, datedServiceJourneyId: FeedScopedId, tripId: FeedScopedId, date: Date): (r: Buffer)
    ensures datedServiceJourneyId in r.contents.datedServiceJourneys
    ensures r.contents.datedServiceJourneys[datedServiceJourneyId] == (tripId, date)
    ensures r.contents.timetables == b.contents.timetables
    ensures r.contents.realtimeAdded == b.contents.realtimeAdded
  {
    b.(contents := b.contents.(datedServiceJourneys := b.contents.datedServiceJourneys[datedServiceJourneyId := (tripId, date)]))
  }

  /** `clear(feedId)`: drops the feed's timetables and real-time patterns; dirty if anything went. */
  function Clear(b: Buffer, feedId: string): (r: Buffer)
    ensures forall p: Pattern, d :: PatternFeed(p.id) == feedId ==> Resolve(r.contents, p, Some(d)) == p.scheduled
    ensures forall p: Pattern, d :: PatternFeed(p.id) != feedId ==> Resolve(r.contents, p, Some(d)) == Resolve(b.contents, p, Some(d))
    ensures forall k :: k in r.contents.realtimeAdded <==> k in b.contents.realtimeAdded && k.0.feedId != feedId
    ensures r.dirty <==> b.dirty || r.contents != b.contents
  {
    var c := b.contents;
    var tts := map k | k in c.timetables && PatternFeed(k.0) != feedId :: c.timetables[k];
    var added := map k | k in c.realtimeAdded && k.0.feedId != feedId :: c.realtimeAdded[k];
    var c' := c.(timetables := tts, realtimeAdded := added);
    Buffer(c', b.dirty || c' != c)
  }

  /**
   * `purgeExpiredData(cutoff)`: keeps only entries dated strictly after the cutoff, so the
   * cutoff date itself is dropped too; tells whether anything was removed.
   */
  function Purge(b: Buffer, cutoff: Date): (r: (Buffer, bool))
    ensures r.1 <==> (exists k :: k in b.contents.timetables && k.1 <= cutoff)
                     || (exists k :: k in b.contents.realtimeAdded && k.1 <= cutoff)
    ensures forall k :: k in r.0.contents.timetables <==> k in b.contents.timetables && cutoff < k.1
    ensures forall k :: k in r.0.contents.realtimeAdded <==> k in b.contents.realtimeAdded && cutoff < k.1
    ensures r.0.dirty == b.dirty
  {
    var c := b.contents;
    var tts := map k | k in c.timetables && cutoff < k.1 :: c.timetables[k];
    var added := map k | k in c.realtimeAdded && cutoff < k.1 :: c.realtimeAdded[k];
    var removed := (exists k :: k in c.timetables && k.1 <= cutoff)
                   || (exists k :: k in c.realtimeAdded && k.1 <= cutoff);
    (b.(contents := c.(timetables := tts, realtimeAdded := added)), removed)
  }

  /** After a purge, a date up to the cutoff falls back to the scheduled timetable; later dates keep theirs. */
  lemma PurgeFallsBackToScheduled(b: Buffer, cutoff: Date, p: Pattern, tripId: FeedScopedId, date: Date)
    ensures date <= cutoff ==> Resolve(Purge(b, cutoff).0.contents, p, Some(date)) == p.scheduled
    ensures cutoff < date ==> Resolve(Purge(b, cutoff).0.contents, p, Some(date)) == Resolve(b.contents, p, Some(date))
    ensures date <= cutoff ==> RealtimeAddedTripPattern(Purge(b, cutoff).0.contents, tripId, date).None?
  {
  }

  // ------------------------------------------------------------------ snapshot

  /** A published snapshot: immutable contents with an identity of their own. */
  class Snapshot {
    const contents: Contents

    /** `commit`: a new snapshot holding the buffer's current contents. */
    constructor Commit(b: Buffer)
      ensures contents == b.contents
    {
      contents := b.contents;
    }
  }
}
