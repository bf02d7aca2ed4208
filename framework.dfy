// Identifiers and calendar values of the transit model.

module Framework {

  /** Id of a transit entity: the feed it was loaded from plus the id inside that feed. */
  datatype FeedScopedId = FeedScopedId(feedId: string, id: string)

  /** A service date (`LocalDate`), counted in days. */
  type Date = int

  /** A zoned date-time, reduced to its local date and the seconds since that date began. */
  datatype DateTime = DateTime(date: Date, secondOfDay: int)

  const SecondsPerDay: int := 86400

  /**
   * Seconds from the start of service of `start`'s date until `t`.  The time zone is fixed
   * and days are taken as 24 hours long, so daylight-saving days are not modelled.
   */
  function SecondsSinceStartOfService(start: DateTime, t: DateTime): (r: int)
    ensures t.date == start.date ==> r == t.secondOfDay
  {
    (t.date - start.date) * SecondsPerDay + t.secondOfDay
  }
}
