// TransitLayer: the routing copy of the transit data, indexed by the local dates the
// trips run through.  Real-time updates make a copy of the layer and replace whole dates
// in the copy's own map.

module TransitLayers {
  import opened Wrappers
  import opened Framework
  import opened Collections

  /** A trip pattern made ready for one date; the pattern itself is kept opaque. */
  datatype TripPatternForDate = TripPatternForDate(pattern: int, localDate: Date)

  /** A stop of the stop index, kept opaque. */
  type StopLocation = FeedScopedId

  class TransitLayer {
    /** The layer's own map from date to the patterns running through it. */
    var tripPatternsRunningOnDate: map<Date, seq<TripPatternForDate>>
    /** The stop index: stop index number to stop. */
    const stopIndex: seq<StopLocation>

    constructor (tripPatternsRunningOnDate: map<Date, seq<TripPatternForDate>>, stopIndex: seq<StopLocation>)
      ensures this.tripPatternsRunningOnDate == tripPatternsRunningOnDate && this.stopIndex == stopIndex
    {
      this.tripPatternsRunningOnDate := tripPatternsRunningOnDate;
      this.stopIndex := stopIndex;
    }

    /**
     * The copy constructor: same contents, but a map of its own, so replacing a date in
     * the copy does not reach the original.
     */
    constructor Copy(other: TransitLayer)
      ensures tripPatternsRunningOnDate == other.tripPatternsRunningOnDate && stopIndex == other.stopIndex
      ensures fresh(this)
    {
      tripPatternsRunningOnDate := other.tripPatternsRunningOnDate;
      stopIndex := other.stopIndex;
    }

    /** `getStopByIndex`: -1 stands for no stop; other numbers are looked up in the stop index. */
    function GetStopByIndex(stop: int): (r: Result<Option<StopLocation>>)
      ensures stop == -1 ==> r == Success(None)
      ensures stop != -1 && 0 <= stop < |stopIndex| ==> r == Success(Some(stopIndex[stop]))
      ensures r.Failure? <==> stop != -1 && !(0 <= stop < |stopIndex|)
    {
      if stop == -1 then Success(None)
      else if 0 <= stop < |stopIndex| then Success(Some(stopIndex[stop]))
      else Failure("IndexOutOfBoundsException")
    }

    /** `getTripPatternsForDate`: the patterns of the date, none for an unknown date. */
    function GetTripPatternsForDate(date: Date): (r: seq<TripPatternForDate>)
      reads this
      ensures date !in tripPatternsRunningOnDate ==> r == []
      ensures date in tripPatternsRunningOnDate ==> r == tripPatternsRunningOnDate[date]
    {
      if date in tripPatternsRunningOnDate then tripPatternsRunningOnDate[date] else []
    }

    /** `getTripPatternsRunningOnDateCopy`: a new list with the same content, or an empty one. */
    function GetTripPatternsRunningOnDateCopy(date: Date): (r: seq<TripPatternForDate>)
      reads this
      ensures r == GetTripPatternsForDate(date)
    {
      if date in tripPatternsRunningOnDate then tripPatternsRunningOnDate[date] else []
    }

    /** `getTripPatternsStartingOnDateCopy`: the running patterns whose own date is `date`, in order. */
    function GetTripPatternsStartingOnDateCopy(date: Date): (r: seq<TripPatternForDate>)
      reads this
      ensures forall t :: t in r <==> t in GetTripPatternsForDate(date) && t.localDate == date
      ensures |r| <= |GetTripPatternsForDate(date)|
    {
      Filter(GetTripPatternsRunningOnDateCopy(date), (t: TripPatternForDate) => t.localDate == date)
    }

    /** `replaceTripPatternsForDate`: replaces the patterns of a date that is already a key, else nothing. */
    method ReplaceTripPatternsForDate(date: Date, tripPatternForDates: seq<TripPatternForDate>)
      modifies this`tripPatternsRunningOnDate
      ensures date in old(tripPatternsRunningOnDate) ==>
                tripPatternsRunningOnDate == old(tripPatternsRunningOnDate)[date := tripPatternForDates]
      ensures date !in old(tripPatternsRunningOnDate) ==> tripPatternsRunningOnDate == old(tripPatternsRunningOnDate)
      ensures tripPatternsRunningOnDate.Keys == old(tripPatternsRunningOnDate).Keys
      ensures forall d :: d != date && d in tripPatternsRunningOnDate ==>
                tripPatternsRunningOnDate[d] == old(tripPatternsRunningOnDate)[d]
    {
      if date in tripPatternsRunningOnDate {
        tripPatternsRunningOnDate := tripPatternsRunningOnDate[date := tripPatternForDates];
      }
    }
  }

  /**
   * How a real-time update uses the layer: a copy is taken and a date replaced in the
   * copy, which leaves the original layer as it was.
   */
  method UpdateCopy(original: TransitLayer, date: Date, patterns: seq<TripPatternForDate>) returns (copy: TransitLayer)
    ensures fresh(copy) && copy != original
    ensures original.tripPatternsRunningOnDate == old(original.tripPatternsRunningOnDate)
    ensures copy.GetTripPatternsForDate(date) ==
              if date in original.tripPatternsRunningOnDate then patterns else []
    ensures forall d :: d != date ==> copy.GetTripPatternsForDate(d) == original.GetTripPatternsForDate(d)
  {
    copy := new TransitLayer.Copy(original);
    copy.ReplaceTripPatternsForDate(date, patterns);
  }

  /** The patterns starting on a date are the running ones of that date, minus those of other dates. */
  lemma StartingOnDateSplitsRunning(layer: TransitLayer, date: Date, t: TripPatternForDate)
    ensures t in layer.GetTripPatternsForDate(date) ==>
              (t in layer.GetTripPatternsStartingOnDateCopy(date) <==> t.localDate == date)
    ensures multiset(layer.GetTripPatternsStartingOnDateCopy(date))[t]
              == if t.localDate == date then multiset(layer.GetTripPatternsForDate(date))[t] else 0
  {
    FilterCounts(layer.GetTripPatternsRunningOnDateCopy(date), (x: TripPatternForDate) => x.localDate == date, t);
  }
}
