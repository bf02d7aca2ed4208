// Stops, entrances and other elements that can belong to a parent station
// (StationElement.java): the parent-station predicates the real-time matcher
// relies on, the coordinate fallback to the parent station, the accessibility
// default and the field-by-field `sameAs` comparison.

module StationElements {
  import opened Wrappers
  import opened Framework

  /** A WGS84 coordinate, treated as an opaque value. */
  datatype Coordinate = Coordinate(latitude: real, longitude: real)

  datatype Accessibility = NoInformation | Possible | NotPossible

  datatype StopLevel = StopLevel(name: string, index: real)

  /**
   * A parent station.  Transit entities are equal when their ids are equal, so two
   * stations are compared by id only.  A station always carries a coordinate.
   */
  datatype Station = Station(id: FeedScopedId, name: string, coordinate: Coordinate)

  /** `Station.equals`, with a null argument allowed. */
  predicate StationEquals(s: Station, other: Option<Station>)
  {
    other.Some? && s.id == other.value.id
  }

  /** `Objects.equals` on two possibly-null stations. */
  predicate SameParent(a: Option<Station>, b: Option<Station>)
  {
    match a
    case None => b.None?
    case Some(s) => StationEquals(s, b)
  }

  /** What the element builder holds; every field but the id may be missing. */
  datatype ElementBuilder = ElementBuilder(
    id: FeedScopedId,
    name: string,
    code: Option<string>,
    description: Option<string>,
    coordinate: Option<Coordinate>,
    wheelchairAccessibility: Option<Accessibility>,
    level: Option<StopLevel>,
    parentStation: Option<Station>)

  datatype Element = Element(
    id: FeedScopedId,
    name: string,
    code: Option<string>,
    description: Option<string>,
    coordinate: Option<Coordinate>,
    wheelchairAccessibility: Accessibility,
    level: Option<StopLevel>,
    parentStation: Option<Station>)

  /** The constructor: copies the builder and defaults a missing accessibility. */
  function Build(b: ElementBuilder): (e: Element)
    ensures b.wheelchairAccessibility.None? ==> e.wheelchairAccessibility == NoInformation
    ensures b.wheelchairAccessibility.Some? ==> e.wheelchairAccessibility == b.wheelchairAccessibility.value
    ensures e.id == b.id && e.name == b.name && e.code == b.code && e.description == b.description
    ensures e.coordinate == b.coordinate && e.level == b.level && e.parentStation == b.parentStation
  {
    Element(b.id, b.name, b.code, b.description, b.coordinate,
            b.wheelchairAccessibility.GetOr(NoInformation), b.level, b.parentStation)
  }

  predicate IsPartOfStation(e: Element)
  {
    e.parentStation.Some?
  }

  /** Looks at the element's own coordinate only. */
  predicate IsCoordinateSet(e: Element)
  {
    e.coordinate.Some?
  }

  /** The own coordinate, else the parent station's; with neither it throws. */
  function GetCoordinate(e: Element): (r: Result<Coordinate>)
    ensures r.Success? <==> IsCoordinateSet(e) || IsPartOfStation(e)
    ensures IsCoordinateSet(e) ==> r.Success? && Some(r.value) == e.coordinate
    ensures !IsCoordinateSet(e) && IsPartOfStation(e) ==>
              r.Success? && r.value == e.parentStation.value.coordinate
  {
    if e.coordinate.Some? then Success(e.coordinate.value)
    else if e.parentStation.Some? then Success(e.parentStation.value.coordinate)
    else Failure("IllegalStateException: coordinate not set")
  }

  /** `isPartOfSameStationAs`; a null other element never matches. */
  predicate IsPartOfSameStationAs(e: Element, other: Option<Element>)
  {
    other.Some? && IsPartOfStation(e) && StationEquals(e.parentStation.value, other.value.parentStation)
  }

  /** Same parent station means: both elements have a parent, and the parents' ids agree. */
  lemma SameStationMeansSharedParent(e: Element, other: Option<Element>)
    ensures IsPartOfSameStationAs(e, other) <==>
              other.Some? && IsPartOfStation(e) && IsPartOfStation(other.value)
              && e.parentStation.value.id == other.value.parentStation.value.id
  {
  }

  /** The relation is symmetric and transitive on elements that are present. */
  lemma SameStationSymmetricTransitive(a: Element, b: Element, c: Element)
    ensures IsPartOfSameStationAs(a, Some(b)) ==> IsPartOfSameStationAs(b, Some(a))
    ensures IsPartOfSameStationAs(a, Some(b)) && IsPartOfSameStationAs(b, Some(c)) ==>
              IsPartOfSameStationAs(a, Some(c))
  {
  }

  /** `isCoordinateSet` can be false while `getCoordinate` succeeds through the parent. */
  lemma CoordinateThroughParent(e: Element)
    requires !IsCoordinateSet(e) && IsPartOfStation(e)
    ensures GetCoordinate(e).Success?
    ensures GetCoordinate(e).value == e.parentStation.value.coordinate
  {
  }

  /**
   * `sameAs` as written: its own `coordinate` field is compared against the other
   * element's `getCoordinate()`, which falls back to the parent station and may throw.
   * The conjunction short-circuits, so the accessor runs only once id, name, code and
   * description agree.
   */
  function SameAsAsWritten(e: Element, other: Element): (r: Result<bool>)
    ensures r.Failure? ==> !IsCoordinateSet(other) && !IsPartOfStation(other)
    ensures r == Success(true) ==> SameAs(e, other) || (!IsCoordinateSet(other) && IsPartOfStation(other))
  {
    if !(e.id == other.id && e.name == other.name && e.code == other.code
         && e.description == other.description) then
      Success(false)
    else
      match GetCoordinate(other)
      case Failure(err) => Failure(err)
      case Success(c) =>
        Success(e.coordinate == Some(c)
                && e.wheelchairAccessibility == other.wheelchairAccessibility
                && e.level == other.level
                && SameParent(e.parentStation, other.parentStation))
  }

  /** An element whose coordinate comes from its parent is not `sameAs` itself. */
  lemma SameAsAsWrittenNotReflexive(st: Station)
    ensures var e := Element(FeedScopedId("F", "1"), "A", None, None, None, NoInformation, None, Some(st));
            SameAsAsWritten(e, e) == Success(false)
  {
  }

  /** An element with neither coordinate nor parent makes `sameAs` throw, even against itself. */
  lemma SameAsAsWrittenThrows()
    ensures var e := Element(FeedScopedId("F", "1"), "A", None, None, None, NoInformation, None, None);
            SameAsAsWritten(e, e).Failure?
  {
  }

  /** `sameAs` as intended: every field compared with the same field of the other element. */
  predicate SameAs(e: Element, other: Element)
  {
    e.id == other.id && e.name == other.name && e.code == other.code
    && e.description == other.description && e.coordinate == other.coordinate
    && e.wheelchairAccessibility == other.wheelchairAccessibility
    && e.level == other.level && SameParent(e.parentStation, other.parentStation)
  }

  /** The intended comparison is reflexive and symmetric, and it never throws. */
  lemma SameAsIsReflexiveAndSymmetric(a: Element, b: Element)
    ensures SameAs(a, a)
    ensures SameAs(a, b) ==> SameAs(b, a)
  {
  }

  /** Where the own coordinate is set on the other side, the two versions agree. */
  lemma SameAsAgreesWhenCoordinateSet(e: Element, other: Element)
    requires IsCoordinateSet(other)
    ensures SameAsAsWritten(e, other) == Success(SameAs(e, other))
  {
  }
}
