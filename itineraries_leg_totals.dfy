// ItinerariesCalculateLegTotals: the totals of an itinerary accumulated over its legs.
// Durations are whole seconds; distances and elevations are reals.

module LegTotals {
  import opened Wrappers

  datatype Leg = Leg(
    startTime: int,
    endTime: int,
    duration: int,
    isTransitLeg: bool,
    isInterlinedWithPreviousLeg: bool,
    isStreetLeg: bool,
    isWalkingLeg: bool,
    distanceMeters: real,
    elevationGained: Option<real>,
    elevationLost: Option<real>)

  /** The totals the loop accumulates. */
  datatype Totals = Totals(
    transitTime: int,
    nTransitLegs: nat,
    nonTransitTime: int,
    nonTransitDistance: real,
    walkOnly: bool,
    streetOnly: bool,
    elevationGained: real,
    elevationLost: real)

  const NoLegs: Totals := Totals(0, 0, 0, 0.0, true, true, 0.0, 0.0)

  predicate HasElevation(leg: Leg)
  {
    leg.elevationGained.Some? && leg.elevationLost.Some?
  }

  /**
   * One leg's contribution: a transit leg adds its duration to the transit time and, unless
   * interlined with the leg before, a boarding; a street leg that is not transit adds its
   * duration and distance; elevation counts only when both gain and loss are known.
   */
  function AddLeg(t: Totals, leg: Leg): Totals
  {
    Totals(
      t.transitTime + (if leg.isTransitLeg then leg.duration else 0),
      t.nTransitLegs + (if leg.isTransitLeg && !leg.isInterlinedWithPreviousLeg then 1 else 0),
      t.nonTransitTime + (if !leg.isTransitLeg && leg.isStreetLeg then leg.duration else 0),
      t.nonTransitDistance + (if !leg.isTransitLeg && leg.isStreetLeg then leg.distanceMeters else 0.0),
      t.walkOnly && leg.isWalkingLeg,
      t.streetOnly && leg.isStreetLeg,
      t.elevationGained + (if HasElevation(leg) then leg.elevationGained.value else 0.0),
      t.elevationLost + (if HasElevation(leg) then leg.elevationLost.value else 0.0))
  }

  /** The totals over `legs`, in order. */
  function Accumulate(legs: seq<Leg>): Totals
  {
    if |legs| == 0 then NoLegs else AddLeg(Accumulate(legs[..|legs| - 1]), legs[|legs| - 1])
  }

  /** Seconds from the start of the first leg to the end of the last. */
  function TotalDuration(legs: seq<Leg>): int
  {
    if |legs| == 0 then 0 else legs[|legs| - 1].endTime - legs[0].startTime
  }

  /** walkOnly and streetOnly stay true exactly when every leg is walking, resp. a street leg. */
  lemma {:induction false} OnlyFlags(legs: seq<Leg>)
    ensures Accumulate(legs).walkOnly <==> forall i :: 0 <= i < |legs| ==> legs[i].isWalkingLeg
    ensures Accumulate(legs).streetOnly <==> forall i :: 0 <= i < |legs| ==> legs[i].isStreetLeg
  {
    if |legs| > 0 {
      var init := legs[..|legs| - 1];
      OnlyFlags(init);
      assert forall i :: 0 <= i < |init| ==> init[i] == legs[i];
    }
  }

  /** The totals of a concatenation continue from the totals of its first part. */
  lemma {:induction false} AccumulateAppend(a: seq<Leg>, b: seq<Leg>)
    ensures Accumulate(a + b).transitTime == Accumulate(a).transitTime + Accumulate(b).transitTime
    ensures Accumulate(a + b).nTransitLegs == Accumulate(a).nTransitLegs + Accumulate(b).nTransitLegs
    ensures Accumulate(a + b).nonTransitTime == Accumulate(a).nonTransitTime + Accumulate(b).nonTransitTime
    decreases |b|
  {
    if |b| == 0 {
      assert a + b == a;
    } else {
      assert (a + b)[..|a + b| - 1] == a + b[..|b| - 1];
      AccumulateAppend(a, b[..|b| - 1]);
    }
  }

  /** Without transit legs there is no transit time and no boarding. */
  lemma {:induction false} NoTransitNoTransitTime(legs: seq<Leg>)
    requires forall i :: 0 <= i < |legs| ==> !legs[i].isTransitLeg
    ensures Accumulate(legs).transitTime == 0 && Accumulate(legs).nTransitLegs == 0
  {
    if |legs| > 0 {
      NoTransitNoTransitTime(legs[..|legs| - 1]);
    }
  }

  /** At most one boarding per leg, and a boarding needs a non-interlined transit leg. */
  lemma {:induction false} TransitLegsBound(legs: seq<Leg>)
    ensures Accumulate(legs).nTransitLegs <= |legs|
    ensures Accumulate(legs).nTransitLegs > 0 ==>
              exists i :: 0 <= i < |legs| && legs[i].isTransitLeg && !legs[i].isInterlinedWithPreviousLeg
  {
    if |legs| > 0 {
      var init := legs[..|legs| - 1];
      TransitLegsBound(init);
      if Accumulate(init).nTransitLegs > 0 {
        var i :| 0 <= i < |init| && init[i].isTransitLeg && !init[i].isInterlinedWithPreviousLeg;
        assert legs[i] == init[i];
      }
    }
  }

  /** `transfers()`: one fewer than the boardings, and zero without any. */
  function Transfers(nTransitLegs: nat): (r: nat)
    ensures nTransitLegs >= 1 ==> r + 1 == nTransitLegs
    ensures nTransitLegs == 0 ==> r == 0
  {
    if nTransitLegs == 0 then 0 else nTransitLegs - 1
  }

  class ItinerariesCalculateLegTotals {
    var totalDurationSeconds: int
    var transitTimeSeconds: int
    var nTransitLegs: nat
    var nonTransitTimeSeconds: int
    var nonTransitDistanceMeters: real
    var waitingTimeSeconds: int
    var walkOnly: bool
    var streetOnly: bool
    var totalElevationGained: real
    var totalElevationLost: real

    /** The accumulated fields as one value. */
    function Current(): Totals
      reads this
    {
      Totals(transitTimeSeconds, nTransitLegs, nonTransitTimeSeconds, nonTransitDistanceMeters,
             walkOnly, streetOnly, totalElevationGained, totalElevationLost)
    }

    /** The totals of `legs`; with no legs every total is zero and both flags hold. */
    constructor (legs: seq<Leg>)
      ensures Current() == Accumulate(legs) && totalDurationSeconds == TotalDuration(legs)
      ensures waitingTimeSeconds == totalDurationSeconds - (transitTimeSeconds + nonTransitTimeSeconds)
      ensures walkOnly <==> forall i :: 0 <= i < |legs| ==> legs[i].isWalkingLeg
      ensures streetOnly <==> forall i :: 0 <= i < |legs| ==> legs[i].isStreetLeg
    {
      totalDurationSeconds := 0;
      transitTimeSeconds := 0;
      nTransitLegs := 0;
      nonTransitTimeSeconds := 0;
      nonTransitDistanceMeters := 0.0;
      waitingTimeSeconds := 0;
      walkOnly := true;
      streetOnly := true;
      totalElevationGained := 0.0;
      totalElevationLost := 0.0;
      new;
      OnlyFlags(legs);
      if |legs| == 0 {
        return;
      }
      Calculate(legs);
    }

    /** `transfers()`. */
    function TransfersCount(): (r: nat)
      reads this
      ensures nTransitLegs >= 1 ==> r == nTransitLegs - 1
      ensures nTransitLegs == 0 ==> r == 0
    {
      Transfers(nTransitLegs)
    }

    method Calculate(legs: seq<Leg>)
      requires |legs| > 0 && Current() == NoLegs
      modifies this
      ensures Current() == Accumulate(legs) && totalDurationSeconds == TotalDuration(legs)
      ensures waitingTimeSeconds == totalDurationSeconds - (transitTimeSeconds + nonTransitTimeSeconds)
    {
      totalDurationSeconds := legs[|legs| - 1].endTime - legs[0].startTime;
      var transit, boardings, nonTransit, distance := 0, 0, 0, 0.0;
      var walk, street, gained, lost := true, true, 0.0, 0.0;
      var i := 0;
      while i < |legs|
        invariant 0 <= i <= |legs|
        invariant totalDurationSeconds == TotalDuration(legs)
        invariant Totals(transit, boardings, nonTransit, distance, walk, street, gained, lost)
                  == Accumulate(legs[..i])
      {
        assert legs[..i + 1][..i] == legs[..i];
        transit, boardings, nonTransit, distance, walk, street, gained, lost :=
          AddLegTotals(legs[i], transit, boardings, nonTransit, distance, walk, street, gained, lost);
        i := i + 1;
      }
      assert legs[..i] == legs;
      transitTimeSeconds, nTransitLegs, nonTransitTimeSeconds, nonTransitDistanceMeters := transit, boardings, nonTransit, distance;
      walkOnly, streetOnly, totalElevationGained, totalElevationLost := walk, street, gained, lost;
      waitingTimeSeconds := totalDurationSeconds - (transitTimeSeconds + nonTransitTimeSeconds);
    }
  
    /** The body of the loop in `calculate`: the totals after one more leg. */
    static method AddLegTotals(leg: Leg, transit: int, boardings: nat, nonTransit: int, distance: real,
                               walk: bool, street: bool, gained: real, lost: real)
      returns (transit': int, boardings': nat, nonTransit': int, distance': real,
               walk': bool, street': bool, gained': real, lost': real)
      ensures Totals(transit', boardings', nonTransit', distance', walk', street', gained', lost')
              == AddLeg(Totals(transit, boardings, nonTransit, distance, walk, street, gained, lost), leg)
    {
      transit', boardings', nonTransit', distance' := transit, boardings, nonTransit, distance;
      walk', street', gained', lost' := walk, street, gained, lost;
      var dt := leg.duration;
      if leg.isTransitLeg {
        transit' := transit' + dt;
        if !leg.isInterlinedWithPreviousLeg {
          boardings' := boardings' + 1;
        }
      } else if leg.isStreetLeg {
        nonTransit' := nonTransit' + dt;
        distance' := distance' + leg.distanceMeters;
      }
      if !leg.isWalkingLeg {
        walk' := false;
      }
      if !leg.isStreetLeg {
        street' := false;
      }
      if leg.elevationGained.Some? && leg.elevationLost.Some? {
        gained' := gained' + leg.elevationGained.value;
        lost' := lost' + leg.elevationLost.value;
      }
    }
  }
}
