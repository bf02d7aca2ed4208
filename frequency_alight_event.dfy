// FrequencyAlightEvent: the alight event of a frequency-based trip, whose times are the
// materialised trip times shifted by an offset, with the departure moved earlier by one
// headway so that the search sees an early enough departure.

module FrequencyAlight {
  import opened Framework
  import opened Timetables

  datatype FrequencyAlightEvent = FrequencyAlightEvent(
    tripTimes: TripTimes,
    stopPositionInPattern: int,
    departureTime: int,
    headway: int,
    offset: int,
    serviceDate: Date)

  /**
   * `arrival(p)`: the arrival at position `p` shifted by the offset. On increasing trip
   * times it is never before the shifted departure from any earlier position.
   */
  function Arrival(e: FrequencyAlightEvent, p: nat): (r: int)
    requires p < |e.tripTimes.stops|
    ensures TimesIncreasing(e.tripTimes) ==>
              forall q :: 0 <= q < p ==> e.tripTimes.stops[q].departure + e.offset <= r
  {
    ArrivalAfterEarlierDepartures(e.tripTimes, p);
    e.tripTimes.stops[p].arrival + e.offset
  }

  /**
   * `departure(p)`: the departure at position `p`, one headway earlier, shifted by the
   * offset. With a non-negative headway it is early enough: never after the shifted
   * departure, and on increasing trip times never after the event's arrival at any later
   * position.
   */
  function Departure(e: FrequencyAlightEvent, p: nat): (r: int)
    requires p < |e.tripTimes.stops|
    ensures e.headway >= 0 ==> r <= e.tripTimes.stops[p].departure + e.offset
    ensures e.headway >= 0 && TimesIncreasing(e.tripTimes) ==>
              forall q :: p < q < |e.tripTimes.stops| ==> r <= Arrival(e, q)
  {
    e.tripTimes.stops[p].departure - e.headway + e.offset
  }

  /** On increasing trip times every departure before position `p` is no later than the arrival at `p`. */
  lemma {:induction false} ArrivalAfterEarlierDepartures(tt: TripTimes, p: nat)
    requires p < |tt.stops|
    ensures TimesIncreasing(tt) ==> forall q :: 0 <= q < p ==> tt.stops[q].departure <= tt.stops[p].arrival
  {
    if TimesIncreasing(tt) {
      forall q | 0 <= q < p
        ensures tt.stops[q].departure <= tt.stops[p].arrival
      {
        TimesNondecreasing(tt, q + 1, p);
      }
    }
  }

  /** Along increasing trip times, arrivals and departures never decrease from `i` to `j`. */
  lemma {:induction false} TimesNondecreasing(tt: TripTimes, i: nat, j: nat)
    requires TimesIncreasing(tt) && i <= j < |tt.stops|
    ensures tt.stops[i].arrival <= tt.stops[j].arrival
    ensures tt.stops[i].departure <= tt.stops[j].departure
    decreases j - i
  {
    if i < j {
      TimesNondecreasing(tt, i + 1, j);
      assert tt.stops[i].departure <= tt.stops[i + 1].arrival;
      assert tt.stops[i + 1].arrival <= tt.stops[i + 1].departure;
    }
  }

  /** Both shifts are uniform, so the event's times keep the order of the trip times. */
  lemma ShiftKeepsOrder(e: FrequencyAlightEvent, i: nat, j: nat)
    requires TimesIncreasing(e.tripTimes) && i <= j < |e.tripTimes.stops|
    ensures Arrival(e, i) <= Arrival(e, j)
    ensures Departure(e, i) <= Departure(e, j)
    ensures i + 1 < |e.tripTimes.stops| ==> Departure(e, i) + e.headway <= Arrival(e, i + 1)
  {
    TimesNondecreasing(e.tripTimes, i, j);
  }
}
