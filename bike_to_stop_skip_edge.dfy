// BikeToStopSkipEdgeStrategy: while searching for stops reachable by bike, count the trips
// at reached stops that take bikes; once enough are reached, fix a distance limit and skip
// every edge whose walk distance goes beyond it.

module BikeToStop {
  import opened Framework
  import opened Collections

  datatype BikeAccess = Unknown | Allowed | NotAllowed

  datatype BikeRoute = BikeRoute(bikesAllowed: BikeAccess)

  datatype BikeTrip = BikeTrip(bikesAllowed: BikeAccess, route: BikeRoute)

  /** A vertex of the street graph: a transit stop or anything else. */
  datatype Vertex = TransitStopVertex(stop: FeedScopedId) | OtherVertex

  /** The parts of the search state the strategy reads. */
  datatype SearchState = SearchState(vertex: Vertex, walkDistance: real)

  /** `distanceLimit`: `Double.MAX_VALUE` until the limit is fixed. */
  datatype DistanceLimit = Unlimited | Limited(meters: real)

  const Limit: nat := 100
  const MaxFactor: real := 1.2

  /** `bikeAccessForTrip`: the trip's own access decides unless it is unknown, then the route's. */
  function BikeAccessForTrip(trip: BikeTrip): (r: bool)
    ensures trip.bikesAllowed == Allowed ==> r
    ensures trip.bikesAllowed == NotAllowed ==> !r
    ensures trip.bikesAllowed == Unknown ==> (r <==> trip.route.bikesAllowed == Allowed)
  {
    if trip.bikesAllowed != Unknown then trip.bikesAllowed == Allowed
    else trip.route.bikesAllowed == Allowed
  }

  /** The number of trips in `trips` that take bikes. */
  function BikeableTrips(trips: seq<BikeTrip>): (r: nat)
    ensures r <= |trips|
    ensures r == 0 <==> forall i :: 0 <= i < |trips| ==> !BikeAccessForTrip(trips[i])
  {
    var kept := Filter(trips, (t: BikeTrip) => BikeAccessForTrip(t));
    assert forall i :: 0 <= i < |trips| && BikeAccessForTrip(trips[i]) ==> trips[i] in kept;
    assert |kept| > 0 ==> kept[0] in trips;
    |kept|
  }

  class BikeToStopSkipEdgeStrategy {
    const getTripsForStop: FeedScopedId -> seq<BikeTrip>
    var numberOfBikeableTripsReached: nat
    var distanceLimit: DistanceLimit

    /** The limit is fixed only after enough bikeable trips were reached. */
    predicate Valid()
      reads this
    {
      distanceLimit.Limited? ==> numberOfBikeableTripsReached >= Limit
    }

    constructor (getTripsForStop: FeedScopedId -> seq<BikeTrip>)
      ensures Valid() && this.getTripsForStop == getTripsForStop
      ensures numberOfBikeableTripsReached == 0 && distanceLimit == Unlimited
    {
      this.getTripsForStop := getTripsForStop;
      numberOfBikeableTripsReached := 0;
      distanceLimit := Unlimited;
    }

    /**
     * `shouldSkipEdge`: at a stop, while no limit is fixed, add the stop's bikeable trips to
     * the count and fix the limit at 1.2 times the walk distance once the count reaches 100.
     * The edge is skipped exactly when the walk distance exceeds the limit.
     */
    method ShouldSkipEdge(current: SearchState) returns (skip: bool)
      requires Valid()
      modifies this
      ensures Valid()
      ensures old(distanceLimit).Limited? || !current.vertex.TransitStopVertex? ==>
                numberOfBikeableTripsReached == old(numberOfBikeableTripsReached)
                && distanceLimit == old(distanceLimit)
      ensures old(distanceLimit) == Unlimited && current.vertex.TransitStopVertex? ==>
                numberOfBikeableTripsReached
                  == old(numberOfBikeableTripsReached)
                     + BikeableTrips(getTripsForStop(current.vertex.stop))
                && distanceLimit
                  == (if numberOfBikeableTripsReached >= Limit
                      then Limited(current.walkDistance * MaxFactor) else Unlimited)
      ensures numberOfBikeableTripsReached >= old(numberOfBikeableTripsReached)
      ensures skip <==> distanceLimit.Limited? && current.walkDistance > distanceLimit.meters
    {
      if current.vertex.TransitStopVertex? && distanceLimit == Unlimited {
        numberOfBikeableTripsReached :=
          numberOfBikeableTripsReached + BikeableTrips(getTripsForStop(current.vertex.stop));
        if numberOfBikeableTripsReached >= Limit {
          distanceLimit := Limited(current.walkDistance * MaxFactor);
        }
      }
      skip := distanceLimit.Limited? && current.walkDistance > distanceLimit.meters;
    }
  }

  /** The edge that fixes the limit is itself never skipped when its walk distance is non-negative. */
  lemma FixingEdgeNotSkipped(walkDistance: real)
    requires walkDistance >= 0.0
    ensures !(walkDistance > Limited(walkDistance * MaxFactor).meters)
  {
  }
}
