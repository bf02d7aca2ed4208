# OpenTripPlanner real-time timetable updater and transit-model helpers, in Dafny

This project models the core of OpenTripPlanner's SIRI real-time updater, `SiriTimetableSnapshotSource`. The updater applies SIRI Estimated Timetable (ET) and Vehicle Monitoring (VM) deliveries to a private working buffer of real-time timetables. It publishes immutable snapshots of that buffer to routing, at most once per `maxSnapshotFrequency` milliseconds unless a commit is forced. It also purges real-time data older than two days. Beside it the project models smaller pieces of the transit model that the updater or the graph build relies on:

- `StationElement`: parent stations, the coordinate fallback and the equality check.
- `OtpTransitServiceBuilder.limitServiceDays`: cascading clean-up of calendars, trips, stop times, patterns and transfers.
- `TransitLayer`: the per-date map of trip patterns.
- `TripPatternBuilder`: derivation of hop geometries.
- `ItinerariesCalculateLegTotals`: leg totals of an itinerary.
- `FrequencyAlightEvent`: times of a frequency-based alighting.
- `BikeToStopSkipEdgeStrategy`: the bike-to-stop search cut-off.
- `GtfsModule`: agency id deconfliction, the entity counter and route text colours.

Modules, one per file:

- `Wrappers`: `Option` and `Result`.
- `Framework`: ids, dates and times.
- `Collections`: list filters as `removeIf` applies them.
- `StationElements`: the station-element model.
- `Timetables`: trip times, timetables, patterns, the buffer (`TimetableSnapshot` as the writer uses it) and the published `Snapshot`.
- `SiriMessages`: the SIRI fields the updater reads.
- `SiriAddedTrip`: construction of added trips.
- `SiriMatching`: trip and pattern matching and the planning phase of ET modified trips.
- `SiriSource`: the updater class, with its snapshot throttle, purge, per-journey handlers and batch loops.
- `TransitServiceBuilder`, `TransitLayers`, `TripPatternBuilders`, `LegTotals`, `FrequencyAlight`, `BikeToStop`, `Gtfs`: one each for the remaining classes.

Each class whose fields the source updates in place is a Dafny `class`:

- `SiriTimetableSnapshotSource`;
- `OtpTransitServiceBuilder`;
- `TransitLayer`;
- `TripPatternBuilder`;
- `ItinerariesCalculateLegTotals`;
- `BikeToStopSkipEdgeStrategy`;
- `GtfsModule` and its `EntityCounter`;
- the published `Snapshot`.

Their methods state the new state in terms of specification functions, and lemmas prove the promised properties of those functions. Value-like code becomes datatypes and functions.

Collaborators whose code is not part of this model are given as parameters with the behaviour they need. They are the fuzzy trip matcher, `TimetableHelper`'s trip-times builders, the service-id-for-date lookup and the modified-stops builders. The transit model's lookups become the finite maps of a `TransitIndex`. Java exceptions become `Failure` values of a `Result`. The updater catches them only where the source does, around added trips. A few rules of classes whose code is not part of this model are taken from those classes' documented behaviour or from how the updater uses them; each is listed under "## Left out": the acceptance rule of `TimetableSnapshot.update`, the key of `SiriTripPatternCache` and the commit of a snapshot.

The purge keeps a buffer date only when it is strictly after the cutoff, two days before today. A date equal to the cutoff is purged:
- `purgeExpiredData` passes that cutoff, `previously`, to the buffer's purge (src/ext/java/org/opentripplanner/ext/siri/SiriTimetableSnapshotSource.java:1185-1198);
- the test `testPurgeExpiredData` (src/test/java/org/opentripplanner/updater/stoptime/TimetableSnapshotSourceTest.java:936-944) expects an update dated exactly `previously` to be gone after a purge, with `resolve(pattern, previously)` giving the scheduled timetable again.

That test drives the GTFS-RT updater, which purges through the same buffer. `Timetables.Purge` states the rule.

## Model

| member | source | states |
|---|---|---|
| Collections.Filter | src/main/java/org/opentripplanner/model/impl/OtpTransitServiceBuilder.java:272 | the kept elements are exactly the elements of the list that satisfy the predicate, and there are no more of them than before |
| Collections.FilterCounts | src/main/java/org/opentripplanner/model/impl/OtpTransitServiceBuilder.java:330 | removeIf keeps every copy of a kept element and drops every copy of a removed one |
| Collections.FilterKeepsAll | src/main/java/org/opentripplanner/model/impl/OtpTransitServiceBuilder.java:362 | when no element matches the removal condition the list is unchanged |
| Collections.FilterSnoc | src/main/java/org/opentripplanner/model/impl/OtpTransitServiceBuilder.java:337 | filtering a list extended by one element extends the filtered list by that element exactly when it is kept |
| StationElements.Build | src/main/java/org/opentripplanner/transit/model/site/StationElement.java:35-51 | the element copies every builder field; a missing wheelchair accessibility becomes `NO_INFORMATION`, a given one is kept |
| StationElements.GetCoordinate | src/main/java/org/opentripplanner/transit/model/site/StationElement.java:87-100 | succeeds exactly when the element or its parent has a coordinate; the own coordinate wins, else the parent station's; otherwise `IllegalStateException` |
| StationElements.CoordinateThroughParent | src/main/java/org/opentripplanner/transit/model/site/StationElement.java:77-85 | `isCoordinateSet` may be false while `getCoordinate` succeeds with the parent's coordinate |
| StationElements.SameStationMeansSharedParent | src/main/java/org/opentripplanner/transit/model/site/StationElement.java:139-148 | `isPartOfSameStationAs` holds iff the other element is non-null, both have a parent station and the parents have the same id |
| StationElements.SameStationSymmetricTransitive | src/main/java/org/opentripplanner/transit/model/site/StationElement.java:139-148 | being part of the same station is symmetric and transitive |
| StationElements.SameAsAsWritten | src/main/java/org/opentripplanner/transit/model/site/StationElement.java:150-162 | `sameAs` as written: it throws only when the other element has neither coordinate nor parent; a `true` answer means the intended equality or an other element whose coordinate comes from its parent |
| StationElements.SameAsAsWrittenNotReflexive | src/main/java/org/opentripplanner/transit/model/site/StationElement.java:150-162 | an element whose coordinate comes from its parent station is not `sameAs` itself |
| StationElements.SameAsAsWrittenThrows | src/main/java/org/opentripplanner/transit/model/site/StationElement.java:150-162 | an element with neither coordinate nor parent makes `sameAs` throw, even against itself |
| StationElements.SameAsIsReflexiveAndSymmetric | src/main/java/org/opentripplanner/transit/model/site/StationElement.java:150-162 | the field-by-field comparison is reflexive and symmetric |
| StationElements.SameAsAgreesWhenCoordinateSet | src/main/java/org/opentripplanner/transit/model/site/StationElement.java:150-162 | when the other element has its own coordinate, `sameAs` as written returns the field-by-field comparison |
| BikeToStop.BikeAccessForTrip | src/ext/java/org/opentripplanner/ext/vehicletostopheuristics/BikeToStopSkipEdgeStrategy.java:32-38 | a trip's own `ALLOWED`/`NOT_ALLOWED` decides; when it is `UNKNOWN`, the route's access decides |
| BikeToStop.BikeableTrips | src/ext/java/org/opentripplanner/ext/vehicletostopheuristics/BikeToStopSkipEdgeStrategy.java:46-51 | the count of bike-carrying trips is at most the number of trips, and zero iff no trip takes bikes |
| BikeToStop.BikeToStopSkipEdgeStrategy.constructor | src/ext/java/org/opentripplanner/ext/vehicletostopheuristics/BikeToStopSkipEdgeStrategy.java:20-30 | no trips counted and no distance limit at the start |
| BikeToStop.BikeToStopSkipEdgeStrategy.ShouldSkipEdge | src/ext/java/org/opentripplanner/ext/vehicletostopheuristics/BikeToStopSkipEdgeStrategy.java:40-57 | only a stop reached before the limit is fixed adds its bikeable trips; the limit becomes 1.2 times the walk distance once 100 are reached and is never changed again; the edge is skipped iff the walk distance exceeds the limit |
| BikeToStop.FixingEdgeNotSkipped | src/ext/java/org/opentripplanner/ext/vehicletostopheuristics/BikeToStopSkipEdgeStrategy.java:52-56 | the state whose stop fixes the limit is itself not skipped |
| FrequencyAlight.Arrival | src/main/java/org/opentripplanner/routing/algorithm/raptoradapter/transit/frequency/FrequencyAlightEvent.java:37-40 | on increasing trip times, the shifted arrival at a position is never before the shifted departure from any earlier position |
| FrequencyAlight.Departure | src/main/java/org/opentripplanner/routing/algorithm/raptoradapter/transit/frequency/FrequencyAlightEvent.java:42-46 | with a non-negative headway the reported departure is early enough: no later than the shifted scheduled departure, and on increasing trip times no later than the event's arrival at any later position |
| FrequencyAlight.ArrivalAfterEarlierDepartures | src/main/java/org/opentripplanner/routing/algorithm/raptoradapter/transit/frequency/FrequencyAlightEvent.java:37-46 | on increasing trip times every departure before a position is no later than the arrival there, which gives the event its cross-position order |
| FrequencyAlight.ShiftKeepsOrder | src/main/java/org/opentripplanner/routing/algorithm/raptoradapter/transit/frequency/FrequencyAlightEvent.java:37-46 | on increasing trip times the event's arrivals and departures keep their order along the pattern, and a departure plus one headway is no later than the next arrival |
| Gtfs.NatToString | src/main/java/org/opentripplanner/graph_builder/module/GtfsModule.java:286 | the decimal text of the counter is non-empty and ends in the counter's last digit |
| Gtfs.NatToStringInjective | src/main/java/org/opentripplanner/graph_builder/module/GtfsModule.java:286 | different counter values give different decimal texts |
| Gtfs.GeneratedIdInjective | src/main/java/org/opentripplanner/graph_builder/module/GtfsModule.java:286 | "F" plus the counter, after any common prefix, names each counter value once |
| Gtfs.PendingShrinks | src/main/java/org/opentripplanner/graph_builder/module/GtfsModule.java:285-288 | each probe that hits the seen set leaves one fewer seen id the generator can still run into, so the probing loop ends |
| Gtfs.FirstFree | src/main/java/org/opentripplanner/graph_builder/module/GtfsModule.java:284-288 | the inner loop stops at the first counter value, from the current one on, whose probed id is not in the seen set; every value it skips was seen |
| Gtfs.AgencyStep | src/main/java/org/opentripplanner/graph_builder/module/GtfsModule.java:277-298 | one agency: appends exactly one id and records it, feed-prefixed, in the seen set; a missing or already seen id is replaced by a generated id (and only then does the counter advance) that the probe did not find; any other id is kept |
| Gtfs.AssignIds | src/main/java/org/opentripplanner/graph_builder/module/GtfsModule.java:276-300 | the agency loop yields one id per agency, in order, and never moves the counter back |
| Gtfs.AsWrittenReusesAgencyId | src/main/java/org/opentripplanner/graph_builder/module/GtfsModule.java:282-288 | with feed "X" and agencies ["F1", no id], the loop as written hands out "F1" twice; with the feed-prefixed probe it hands out "F1" then "F2" |
| Gtfs.StepKeepsDistinct | src/main/java/org/opentripplanner/graph_builder/module/GtfsModule.java:277-298 | one agency with the feed-prefixed probe keeps the ids of the feed distinct and fresh, with the seen set tracking exactly them |
| Gtfs.AssignIdsDistinct | src/main/java/org/opentripplanner/graph_builder/module/GtfsModule.java:276-300 | with the feed-prefixed probe, the final ids of a feed are pairwise distinct, none was seen before, and the seen set grows by exactly those ids |
| Gtfs.GtfsModule.constructor | src/main/java/org/opentripplanner/graph_builder/module/GtfsModule.java:56-71 | the seen set starts empty and the counter at 1 |
| Gtfs.GtfsModule.AssignAgencyIds | src/main/java/org/opentripplanner/graph_builder/module/GtfsModule.java:276-300 | the agency loop on the module's fields equals the corrected fold, and its ids are pairwise distinct and previously unseen |
| Gtfs.GtfsModule.NextGeneratedId | src/main/java/org/opentripplanner/graph_builder/module/GtfsModule.java:284-288 | the corrected loop from "## Findings", which probes with the feed prefix: it leaves the counter one past the first value whose feed-prefixed id is unseen and returns "F" plus that value |
| Gtfs.EntityCounter.constructor | src/main/java/org/opentripplanner/graph_builder/module/GtfsModule.java:435 | the counter map starts empty |
| Gtfs.EntityCounter.IncrementCount | src/main/java/org/opentripplanner/graph_builder/module/GtfsModule.java:448-456 | the count of the entity type goes from its old value (0 when absent) to one more, which is returned; no other count changes |
| Gtfs.GenerateRouteColor | src/main/java/org/opentripplanner/graph_builder/module/GtfsModule.java:344-372 | a route without colour, or with a text colour, is unchanged; otherwise the text colour becomes "000000" iff the luminance exceeds 0.5 and "FFFFFF" otherwise |
| Gtfs.GenerateRouteColorIdempotent | src/main/java/org/opentripplanner/graph_builder/module/GtfsModule.java:344-372 | applying the rule a second time changes nothing |
| LegTotals.OnlyFlags | src/main/java/org/opentripplanner/model/plan/ItinerariesCalculateLegTotals.java:51-56 | `walkOnly` stays true iff every leg is a walking leg, `streetOnly` iff every leg is a street leg |
| LegTotals.AccumulateAppend | src/main/java/org/opentripplanner/model/plan/ItinerariesCalculateLegTotals.java:39-61 | transit time, boardings and non-transit time of a concatenation of legs are the sums over its parts |
| LegTotals.NoTransitNoTransitTime | src/main/java/org/opentripplanner/model/plan/ItinerariesCalculateLegTotals.java:42-50 | without transit legs there is no transit time and no boarding |
| LegTotals.TransitLegsBound | src/main/java/org/opentripplanner/model/plan/ItinerariesCalculateLegTotals.java:42-46 | at most one boarding per leg, and any boarding comes from a transit leg not interlined with the one before |
| LegTotals.Transfers | src/main/java/org/opentripplanner/model/plan/ItinerariesCalculateLegTotals.java:29-31 | transfers are one fewer than the boardings, and zero when there are none |
| LegTotals.ItinerariesCalculateLegTotals.constructor | src/main/java/org/opentripplanner/model/plan/ItinerariesCalculateLegTotals.java:11-27 | the fields hold the totals of the legs, the total duration from the first start to the last end, the waiting time as the rest, and the two flags as "every leg" properties; with no legs everything is zero and both flags hold |
| LegTotals.ItinerariesCalculateLegTotals.TransfersCount | src/main/java/org/opentripplanner/model/plan/ItinerariesCalculateLegTotals.java:29-31 | `transfers()` on the object's own boarding count |
| LegTotals.ItinerariesCalculateLegTotals.Calculate | src/main/java/org/opentripplanner/model/plan/ItinerariesCalculateLegTotals.java:33-63 | on a non-empty list the loop leaves the totals of all legs in the fields and the waiting time as the total duration less transit and non-transit time |
| LegTotals.ItinerariesCalculateLegTotals.AddLegTotals | src/main/java/org/opentripplanner/model/plan/ItinerariesCalculateLegTotals.java:40-60 | one pass of the loop body adds exactly one leg's contribution to the totals |
| TransitLayers.TransitLayer.constructor | src/main/java/org/opentripplanner/routing/algorithm/raptoradapter/transit/TransitLayer.java:71-91 | the layer holds the given date map and stop index |
| TransitLayers.TransitLayer.Copy | src/main/java/org/opentripplanner/routing/algorithm/raptoradapter/transit/TransitLayer.java:52-69 | the copy has the same dates, patterns and stop index, in a new object of its own |
| TransitLayers.TransitLayer.GetStopByIndex | src/main/java/org/opentripplanner/routing/algorithm/raptoradapter/transit/TransitLayer.java:97-100 | -1 gives no stop; an index inside the stop index gives that stop; any other index fails |
| TransitLayers.TransitLayer.GetTripPatternsForDate | src/main/java/org/opentripplanner/routing/algorithm/raptoradapter/transit/TransitLayer.java:106-108 | the patterns of a known date, an empty list for an unknown one |
| TransitLayers.TransitLayer.GetTripPatternsRunningOnDateCopy | src/main/java/org/opentripplanner/routing/algorithm/raptoradapter/transit/TransitLayer.java:124-127 | the copy has exactly the contents `getTripPatternsForDate` gives for that date |
| TransitLayers.TransitLayer.GetTripPatternsStartingOnDateCopy | src/main/java/org/opentripplanner/routing/algorithm/raptoradapter/transit/TransitLayer.java:129-135 | a pattern is in the result iff it runs through the date and its own date is that date; the result is no longer than the running list |
| TransitLayers.TransitLayer.ReplaceTripPatternsForDate | src/main/java/org/opentripplanner/routing/algorithm/raptoradapter/transit/TransitLayer.java:161-170 | a date already in the map gets the new patterns; an absent date is not added; no other date changes |
| TransitLayers.UpdateCopy | src/main/java/org/opentripplanner/routing/algorithm/raptoradapter/transit/TransitLayer.java:52-69 | replacing a date in a copy leaves the original layer's map as it was, and the copy differs from the original only at that date |
| TransitLayers.StartingOnDateSplitsRunning | src/main/java/org/opentripplanner/routing/algorithm/raptoradapter/transit/TransitLayer.java:129-135 | each pattern running through the date occurs in the starting-on list as often as in the running list when its own date is that date, and not at all otherwise |
| TripPatternBuilders.Hop | src/main/java/org/opentripplanner/transit/model/network/TripPatternBuilder.java:139-176 | hop `i`: the original hop when the stops are the same; the original hop with its first and last point moved to the new stops when only the stations agree (failing on a hop without points); else a straight line between the new stops, failing when a stop has no coordinate |
| TripPatternBuilders.Hops | src/main/java/org/opentripplanner/transit/model/network/TripPatternBuilder.java:137-178 | the first `k` hops succeed exactly when no hop among them fails, and then hold each hop's geometry in order |
| TripPatternBuilders.DerivedHopCount | src/main/java/org/opentripplanner/transit/model/network/TripPatternBuilder.java:132-139 | the loop runs one fewer times than the shorter pattern's stop count, and not at all below two stops |
| TripPatternBuilders.SameStopsKeepOriginalHops | src/main/java/org/opentripplanner/transit/model/network/TripPatternBuilder.java:121-126 | when both patterns have the same stops and the original has every hop, the derived geometry is the original one |
| TripPatternBuilders.HopsFailFrom | src/main/java/org/opentripplanner/transit/model/network/TripPatternBuilder.java:139-177 | the first failing hop decides the error of the whole derivation |
| TripPatternBuilders.TripPatternBuilder.constructor | src/main/java/org/opentripplanner/transit/model/network/TripPatternBuilder.java:28-30 | a new builder holds only its id |
| TripPatternBuilders.TripPatternBuilder.FromPattern | src/main/java/org/opentripplanner/transit/model/network/TripPatternBuilder.java:32-44 | the builder copies every field of the pattern, and its hop geometries only when the pattern has a geometry |
| TripPatternBuilders.TripPatternBuilder.WithName | src/main/java/org/opentripplanner/transit/model/network/TripPatternBuilder.java:46-49 | sets the name and returns the same builder |
| TripPatternBuilders.TripPatternBuilder.WithRoute | src/main/java/org/opentripplanner/transit/model/network/TripPatternBuilder.java:51-54 | sets the route and returns the same builder |
| TripPatternBuilders.TripPatternBuilder.WithStopPattern | src/main/java/org/opentripplanner/transit/model/network/TripPatternBuilder.java:56-59 | sets the stop pattern and returns the same builder |
| TripPatternBuilders.TripPatternBuilder.WithCreatedByRealtimeUpdater | src/main/java/org/opentripplanner/transit/model/network/TripPatternBuilder.java:61-64 | sets the real-time flag and returns the same builder |
| TripPatternBuilders.TripPatternBuilder.WithOriginalTripPattern | src/main/java/org/opentripplanner/transit/model/network/TripPatternBuilder.java:66-69 | sets the original pattern and returns the same builder |
| TripPatternBuilders.TripPatternBuilder.WithHopGeometries | src/main/java/org/opentripplanner/transit/model/network/TripPatternBuilder.java:71-74 | sets the hop geometries and returns the same builder |
| TripPatternBuilders.TripPatternBuilder.HopGeometries | src/main/java/org/opentripplanner/transit/model/network/TripPatternBuilder.java:105-119 | explicit hop geometries win; without them and without an original pattern there are none; otherwise the result succeeds exactly when every derived hop does, and then lists them in order |
| TripPatternBuilders.TripPatternBuilder.GenerateHopGeometriesFromOriginalTripPattern | src/main/java/org/opentripplanner/transit/model/network/TripPatternBuilder.java:127-179 | the loop returns exactly the hops derived from the original pattern, or the first hop's failure; without a stop pattern it fails |
| TransitServiceBuilder.Intersection | src/main/java/org/opentripplanner/model/impl/OtpTransitServiceBuilder.java:277-278 | the intersection of two periods holds exactly the dates in both; two overlapping periods that hold dates intersect in one that holds dates |
| TransitServiceBuilder.OverlapIffCommonDate | src/main/java/org/opentripplanner/model/impl/OtpTransitServiceBuilder.java:277 | for periods holding dates, overlapping means sharing at least one date, and conversely |
| TransitServiceBuilder.KeptCalendars | src/main/java/org/opentripplanner/model/impl/OtpTransitServiceBuilder.java:275-281 | the kept calendars are exactly the calendars overlapping the period, each cut down to the common dates, and there are no more of them than before |
| TransitServiceBuilder.WithoutMissingTrips | src/main/java/org/opentripplanner/model/impl/OtpTransitServiceBuilder.java:348 | a pattern keeps its stop pattern and exactly those of its trips that still exist |
| TransitServiceBuilder.FixedPatterns | src/main/java/org/opentripplanner/model/impl/OtpTransitServiceBuilder.java:342-357 | no more patterns than before; every kept pattern has at least one trip, and only existing trips |
| TransitServiceBuilder.FixedPatternsMembers | src/main/java/org/opentripplanner/model/impl/OtpTransitServiceBuilder.java:342-357 | a pattern is kept iff it still has a trip once the missing trips are removed from it |
| TransitServiceBuilder.OtpTransitServiceBuilder.constructor | src/main/java/org/opentripplanner/model/impl/OtpTransitServiceBuilder.java:119 | the builder holds the given collections |
| TransitServiceBuilder.OtpTransitServiceBuilder.LimitServiceDays | src/main/java/org/opentripplanner/model/impl/OtpTransitServiceBuilder.java:258-291 | an unbounded period changes nothing; otherwise only calendar dates inside the period remain, the calendars are the kept calendars, a trip remains iff its service id is still used by a calendar or calendar date, stop times remain iff their trip does, the patterns are fixed, transfers to a removed trip go, and trip-on-service-date entities are left alone |
| TransitServiceBuilder.OtpTransitServiceBuilder.LimitCalendars | src/main/java/org/opentripplanner/model/impl/OtpTransitServiceBuilder.java:275-288 | the calendar loop leaves exactly the kept calendars, cut down to the period |
| TransitServiceBuilder.OtpTransitServiceBuilder.FindAllServiceIds | src/main/java/org/opentripplanner/model/impl/OtpTransitServiceBuilder.java:293-305 | the result is exactly the service ids of all calendars and calendar dates |
| TransitServiceBuilder.OtpTransitServiceBuilder.RemoveEntitiesWithInvalidReferences | src/main/java/org/opentripplanner/model/impl/OtpTransitServiceBuilder.java:314-324 | trips, stop times, patterns and transfers are each cut down to what still refers to existing entities, in that order |
| TransitServiceBuilder.OtpTransitServiceBuilder.RemoveTripsWithNoneExistingServiceIds | src/main/java/org/opentripplanner/model/impl/OtpTransitServiceBuilder.java:326-332 | a trip remains iff its service id is used by some calendar or calendar date; remaining trips are unchanged |
| TransitServiceBuilder.OtpTransitServiceBuilder.RemoveStopTimesForNoneExistingTrips | src/main/java/org/opentripplanner/model/impl/OtpTransitServiceBuilder.java:334-339 | the stop times of a trip remain iff the trip remains, unchanged |
| TransitServiceBuilder.OtpTransitServiceBuilder.FixOrRemovePatternsWhichReferenceNoneExistingTrips | src/main/java/org/opentripplanner/model/impl/OtpTransitServiceBuilder.java:341-357 | the patterns become the fixed patterns for the remaining trips |
| TransitServiceBuilder.OtpTransitServiceBuilder.RemoveTransfersForNoneExistingTrips | src/main/java/org/opentripplanner/model/impl/OtpTransitServiceBuilder.java:359-401 | a transfer remains iff neither of its trip transfer points refers to a removed trip, in order |
| Timetables.CancelTrip | src/ext/java/org/opentripplanner/ext/siri/SiriTimetableSnapshotSource.java:1150-1154 | a cancelled copy of the trip times is in state CANCELED and keeps the trip and every stop's times |
| Timetables.TripIndex | src/test/java/org/opentripplanner/updater/stoptime/TimetableSnapshotSourceTest.java:94-95 | the index of the first trip times with that trip id, or -1 exactly when no trip times have it |
| Timetables.GetTripTimes | src/ext/java/org/opentripplanner/ext/siri/SiriTimetableSnapshotSource.java:1146-1149 | the lookup finds trip times iff the timetable holds some with that trip id, and those it finds have that id |
| Timetables.SetTripTimes | src/ext/java/org/opentripplanner/ext/siri/SiriTimetableSnapshotSource.java:453 | writing trip times into a timetable replaces the trip's entry or adds one, and the new times are in it |
| Timetables.RemoveTripTimes | src/ext/java/org/opentripplanner/ext/siri/SiriTimetableSnapshotSource.java:1178 | a trip that is not in the timetable leaves it as it is; otherwise exactly one entry goes and none is added; the partners `RemoveThenGone` and `RemoveThenGet` state which one |
| Timetables.GetAfterSet | src/ext/java/org/opentripplanner/ext/siri/SiriTimetableSnapshotSource.java:453 | after writing a trip's times, looking the trip up gives exactly those times |
| Timetables.GetOtherAfterSet | src/test/java/org/opentripplanner/updater/stoptime/TimetableSnapshotSourceTest.java:99-104 | writing one trip's times leaves every other trip's lookup as it was |
| Timetables.SetTwice | src/ext/java/org/opentripplanner/ext/siri/SiriTimetableSnapshotSource.java:453 | writing the same trip times twice gives the same timetable as writing them once |
| Timetables.RemoveThenGet | src/ext/java/org/opentripplanner/ext/siri/SiriTimetableSnapshotSource.java:1177-1178 | removing one trip leaves every other trip's lookup as it was |
| Timetables.RemoveThenGone | src/ext/java/org/opentripplanner/ext/siri/SiriTimetableSnapshotSource.java:1177-1178 | in a timetable holding each trip at most once, the removed trip is no longer found |
| Timetables.SetKeepsDistinct | src/ext/java/org/opentripplanner/ext/siri/SiriTimetableSnapshotSource.java:453 | writing trip times keeps every trip at most once in the timetable, so the timetables the updater writes satisfy the condition of `RemoveThenGone` |
| Timetables.StopPatternOf | src/ext/java/org/opentripplanner/ext/siri/SiriTimetableSnapshotSource.java:683 | the stop pattern has one position per stop time, with the same stop |
| Timetables.Resolve | src/ext/java/org/opentripplanner/ext/siri/SiriTimetableSnapshotSource.java:461-466 | without a date, or without a timetable for that pattern and date, the scheduled timetable is returned |
| Timetables.Update | src/ext/java/org/opentripplanner/ext/siri/SiriTimetableSnapshotSource.java:433-454 | the update succeeds iff the stop counts match and the times increase; a rejected update changes nothing; a successful one marks the buffer dirty, writes the trip times into the date's timetable, records a real-time pattern for the trip and date, and changes nothing on other dates |
| Timetables.UpdateIsVisible | src/test/java/org/opentripplanner/updater/stoptime/TimetableSnapshotSourceTest.java:99-108 | after a successful update the date's timetable has the new trip times, and the scheduled timetable is still what is resolved without a date |
| Timetables.UpdateKeepsOtherTrips | src/test/java/org/opentripplanner/updater/stoptime/TimetableSnapshotSourceTest.java:99-104 | an update of one trip leaves the other trips of the date's timetable as they were |
| Timetables.UpdateTwice | src/ext/java/org/opentripplanner/ext/siri/SiriTimetableSnapshotSource.java:996 | applying the same update twice leaves the buffer as applying it once |
| Timetables.RemoveLastAddedTripPattern | src/ext/java/org/opentripplanner/ext/siri/SiriTimetableSnapshotSource.java:1177 | the real-time pattern of that trip and date is forgotten; other real-time patterns and all timetables stay |
| Timetables.RemoveRealtimeUpdatedTripTimes | src/ext/java/org/opentripplanner/ext/siri/SiriTimetableSnapshotSource.java:1178 | without a timetable for the pattern and date nothing changes; otherwise the trip is removed from that one timetable, and real-time patterns and other dates are untouched; when that timetable held each trip once, the trip no longer resolves on that date |
| Timetables.AddTripOnServiceDate | src/ext/java/org/opentripplanner/ext/siri/SiriTimetableSnapshotSource.java:1117-1124 | the dated service journey id then refers to that trip and date; timetables and real-time patterns are unchanged |
| Timetables.Clear | src/ext/java/org/opentripplanner/ext/siri/SiriTimetableSnapshotSource.java:174-177 | the feed's patterns fall back to their scheduled timetables, other feeds' patterns are untouched, the feed's real-time patterns go, and the buffer is dirty iff it was or something went |
| Timetables.Purge | src/ext/java/org/opentripplanner/ext/siri/SiriTimetableSnapshotSource.java:1185-1198 | only entries dated after the cutoff remain, and the result tells whether any entry on or before the cutoff was dropped |
| Timetables.PurgeFallsBackToScheduled | src/test/java/org/opentripplanner/updater/stoptime/TimetableSnapshotSourceTest.java:936-944 | after a purge, a date up to the cutoff resolves to the scheduled timetable and has no real-time pattern; later dates resolve as before |
| Timetables.Snapshot.Commit | src/ext/java/org/opentripplanner/ext/siri/SiriTimetableSnapshotSource.java:329-343 | a committed snapshot holds the buffer's current contents |
| SiriAddedTrip.FirstAimedDepartureIndex | src/ext/java/org/opentripplanner/ext/siri/SiriTimetableSnapshotSource.java:608-628 | the position of the first call with an aimed departure, every call before it having none, or -1 exactly when no call has one |
| SiriAddedTrip.FirstAimedDepartureOfPrefix | src/ext/java/org/opentripplanner/ext/siri/SiriTimetableSnapshotSource.java:626-628 | after the first `i` calls the reference time is set iff the first aimed departure lies among them, and it is then that departure |
| SiriAddedTrip.FirstAimedDepartureStep | src/ext/java/org/opentripplanner/ext/siri/SiriTimetableSnapshotSource.java:626-628 | the reference time is taken from the first call that has an aimed departure and never changes afterwards |
| SiriAddedTrip.AimedStopTimeAt | src/ext/java/org/opentripplanner/ext/siri/SiriTimetableSnapshotSource.java:613-681 | call `i` gives a stop time iff its stop is known and any aimed arrival comes after a reference time is set; the stop sequence is `i`, the first stop's arrival is its departure and, from two calls on, the last stop's departure is its arrival |
| SiriAddedTrip.AimedStopTimes | src/ext/java/org/opentripplanner/ext/siri/SiriTimetableSnapshotSource.java:613-681 | the first loop yields one aimed stop time per call, each the one its call gives |
| SiriAddedTrip.AimedStopTimesFailure | src/ext/java/org/opentripplanner/ext/siri/SiriTimetableSnapshotSource.java:613-681 | the first loop fails iff some call fails |
| SiriAddedTrip.AimedStopTimesFailFrom | src/ext/java/org/opentripplanner/ext/siri/SiriTimetableSnapshotSource.java:613-681 | the first failing call ends the loop with its error |
| SiriAddedTrip.RealtimeStopShape | src/ext/java/org/opentripplanner/ext/siri/SiriTimetableSnapshotSource.java:693-735 | a stop's scheduled times are its aimed times, the first arrival and last departure are faked, a stop is cancelled iff its call is, and prediction-inaccurate iff not cancelled and the journey or the call is inaccurate |
| SiriAddedTrip.RealtimeStopDelays | src/ext/java/org/opentripplanner/ext/siri/SiriTimetableSnapshotSource.java:702-717 | an expected arrival or departure becomes the current time, as a delay against the aimed time, wherever the faked ends do not overwrite it |
| SiriAddedTrip.BuildAimedStopTimes | src/ext/java/org/opentripplanner/ext/siri/SiriTimetableSnapshotSource.java:602-681 | the first loop returns exactly the aimed stop times, the stops in call order and the first aimed departure as reference time |
| SiriAddedTrip.AimedStopTimeFor | src/ext/java/org/opentripplanner/ext/siri/SiriTimetableSnapshotSource.java:614-677 | one pass of the first loop for a known stop gives the aimed stop time of that call |
| SiriAddedTrip.BuildRealtimeStops | src/ext/java/org/opentripplanner/ext/siri/SiriTimetableSnapshotSource.java:693-735 | the second loop returns exactly each call turned into trip times against its aimed stop time, or fails when an expected time has no reference time |
| SiriAddedTrip.AddedTripFakesFirstArrivalAndLastDeparture | src/ext/java/org/opentripplanner/ext/siri/SiriTimetableSnapshotSource.java:667-673 | in the built trip times, the first stop's arrival equals its departure and, from two calls on, the last stop's departure equals its arrival, for scheduled and current times alike |
| SiriAddedTrip.AimedStopTimeEnds | src/ext/java/org/opentripplanner/ext/siri/SiriTimetableSnapshotSource.java:667-673 | the aimed first arrival and last departure are faked |
| SiriAddedTrip.AddedTripSingleCall | src/ext/java/org/opentripplanner/ext/siri/SiriTimetableSnapshotSource.java:728-734 | with one call, the expected departure is kept and the arrival is set to it |
| SiriAddedTrip.AddedTripStopAt | src/ext/java/org/opentripplanner/ext/siri/SiriTimetableSnapshotSource.java:702-735 | stop `i` of a built added trip is call `i` turned into trip times against its aimed stop time |
| SiriAddedTrip.AddedTripDelays | src/ext/java/org/opentripplanner/ext/siri/SiriTimetableSnapshotSource.java:702-717 | each expected time becomes a delay against the aimed time at that position |
| SiriAddedTrip.AddedTripState | src/ext/java/org/opentripplanner/ext/siri/SiriTimetableSnapshotSource.java:719-748 | the trip times belong to the trip; the state is CANCELED iff the journey is cancelled and ADDED otherwise; stop flags follow their calls |
| SiriAddedTrip.AimedCallsFail | src/ext/java/org/opentripplanner/ext/siri/SiriTimetableSnapshotSource.java:616-631 | a call fails in the first loop iff its stop is unknown or it has an aimed arrival before any call has an aimed departure |
| SiriAddedTrip.AddedTripFailure | src/ext/java/org/opentripplanner/ext/siri/SiriTimetableSnapshotSource.java:602-735 | building the added trip fails iff some call fails, or no call has an aimed departure while some call has an expected time |
| Framework.SecondsSinceStartOfService | src/ext/java/org/opentripplanner/ext/siri/SiriTimetableSnapshotSource.java:1038-1052 | on the start's own date the seconds since start of service are the time's second of day |
| SiriMatching.StopMatchesSibling | src/ext/java/org/opentripplanner/ext/siri/SiriTimetableSnapshotSource.java:1238-1250 | a pattern stop matches a SIRI reference that names another stop of the same parent station in the same feed |
| SiriMatching.CurrentTimetable | src/ext/java/org/opentripplanner/ext/siri/SiriTimetableSnapshotSource.java:461-467 | without a published snapshot, or with no timetable for the pattern on the date, the current timetable is the pattern's scheduled one |
| SiriMatching.ResolveTransitSubMode | src/ext/java/org/opentripplanner/ext/siri/SiriTimetableSnapshotSource.java:792-807 | replacementRailService exactly when a rail route is replaced by rail, railReplacementBus exactly when it is replaced by bus, no sub-mode otherwise |
| SiriMatching.ServiceDateForJourney | src/ext/java/org/opentripplanner/ext/siri/SiriTimetableSnapshotSource.java:1009-1036 | the date of the first recorded call's aimed departure when there are recorded calls; fails exactly when there are neither recorded nor estimated calls |
| SiriMatching.TripsRunningOn | src/ext/java/org/opentripplanner/ext/siri/SiriTimetableSnapshotSource.java:1379-1390 | keeps exactly the trips whose service runs on the date, and the first kept one is preceded only by trips that do not run |
| SiriMatching.FirstOnLine | src/ext/java/org/opentripplanner/ext/siri/SiriTimetableSnapshotSource.java:1401-1406 | a found trip is one of the trips and lies on the line; none is found exactly when no trip lies on the line |
| SiriMatching.VehicleTripForJourney | src/ext/java/org/opentripplanner/ext/siri/SiriTimetableSnapshotSource.java:1368-1414 | the chosen trip runs on the activity's date; none is chosen exactly when no trip runs then; when a running trip lies on the reported line, the chosen one does too |
| SiriMatching.InsertPattern | src/ext/java/org/opentripplanner/ext/siri/SiriTimetableSnapshotSource.java:1259-1261 | adding a pattern whose id is already present changes nothing, otherwise appends it |
| SiriMatching.InsertPatternKeepsDistinct | src/ext/java/org/opentripplanner/ext/siri/SiriTimetableSnapshotSource.java:1215 | adding to a set of patterns keeps their ids distinct, adds nothing else, and leaves the pattern's id present |
| SiriMatching.VehiclePatternOfTrip | src/ext/java/org/opentripplanner/ext/siri/SiriTimetableSnapshotSource.java:1216-1270 | a trip that does not run on the date contributes nothing; a contributed pattern is the trip's own or its realtime-added one, and its first and last stops match the activity's origin and destination (origin only, by exact id, when no destination is given); conversely, a running trip whose pattern has both ends matching contributes its realtime-added pattern if there is one, else its own, and without a destination a pattern starting at the origin with a non-empty first trip is contributed |
| SiriMatching.VehiclePatterns | src/ext/java/org/opentripplanner/ext/siri/SiriTimetableSnapshotSource.java:1216-1271 | a successful scan returns patterns with distinct ids, each contributed by one of the scanned trips, and no scanned trip threw |
| SiriMatching.VehiclePatternsComplete | src/ext/java/org/opentripplanner/ext/siri/SiriTimetableSnapshotSource.java:1216-1271 | every pattern a scanned trip contributes is in the result by id, and the scan succeeds when no scanned trip throws |
| SiriMatching.VehiclePatternFound | src/ext/java/org/opentripplanner/ext/siri/SiriTimetableSnapshotSource.java:1216-1271 | the pattern a scanned trip contributes is, by id, among the patterns of every longer prefix of the scan that succeeds |
| SiriMatching.VehiclePatternsSucceed | src/ext/java/org/opentripplanner/ext/siri/SiriTimetableSnapshotSource.java:1216-1271 | a prefix of the scan succeeds when none of its trips throws |
| SiriMatching.VehiclePatternsStep | src/ext/java/org/opentripplanner/ext/siri/SiriTimetableSnapshotSource.java:1216-1271 | a successful scan of `k` trips is the scan of the first `k - 1`, also successful, with the `k`-th trip's pattern inserted when it contributes one |
| SiriMatching.InsertPatternKeepsIds | src/ext/java/org/opentripplanner/ext/siri/SiriTimetableSnapshotSource.java:1215 | adding a pattern to the set keeps every id already present |
| SiriMatching.VehiclePatternsForTrip | src/ext/java/org/opentripplanner/ext/siri/SiriTimetableSnapshotSource.java:1200-1273 | no result exactly when the activity has no origin; otherwise distinct patterns, each contributed by one of the trips (so running on the activity's date with matching ends), and every pattern a trip contributes is present by id; when no trip throws the scan succeeds |
| SiriMatching.JourneyEndsOf | src/ext/java/org/opentripplanner/ext/siri/SiriTimetableSnapshotSource.java:1280-1318 | no estimated calls gives no result; a found journey date is the journey's service date |
| SiriMatching.PatternForTrip | src/ext/java/org/opentripplanner/ext/siri/SiriTimetableSnapshotSource.java:1275-1363 | a returned pattern is the realtime-added or scheduled pattern of a trip running on the journey's date whose first and last stops match the journey's; a trip not running then gives none; conversely, when the candidate pattern is non-empty, the trip runs and both ends match, that pattern is returned |
| SiriMatching.TripsDepartingAt | src/ext/java/org/opentripplanner/ext/siri/SiriTimetableSnapshotSource.java:1482-1495 | the returned trips are exactly the trips of the timetable that run on the date and whose trip times depart at the position at the given second; fails exactly when some trip times are too short for the position |
| SiriMatching.EstimatedTripCandidates | src/ext/java/org/opentripplanner/ext/siri/SiriTimetableSnapshotSource.java:1459-1498 | a trip not running on the date contributes nothing without reading the snapshot; a running trip whose pattern has the journey's first stop at the reported stop number contributes the trips of its current timetable departing there at the journey's second, and a non-empty contribution implies all these conditions |
| SiriMatching.InsertTrip | src/ext/java/org/opentripplanner/ext/siri/SiriTimetableSnapshotSource.java:1492 | adding a trip to a set keyed by id keeps ids distinct, keeps every member and adds only that trip |
| SiriMatching.InsertTrips | src/ext/java/org/opentripplanner/ext/siri/SiriTimetableSnapshotSource.java:1458-1499 | adding trips keeps ids distinct, keeps every member, adds only those trips, and leaves every added trip present by id |
| SiriMatching.EstimatedTrips | src/ext/java/org/opentripplanner/ext/siri/SiriTimetableSnapshotSource.java:1458-1499 | the trips collected so far have distinct ids and each runs on the date |
| SiriMatching.EstimatedTripsComplete | src/ext/java/org/opentripplanner/ext/siri/SiriTimetableSnapshotSource.java:1458-1499 | on success no fuzzy match threw, and every trip one contributes is in the result by id |
| SiriMatching.EstimatedTripsSound | src/ext/java/org/opentripplanner/ext/siri/SiriTimetableSnapshotSource.java:1458-1499 | every trip of the result was contributed by one of the fuzzy matches |
| SiriMatching.EstimatedTripForJourney | src/ext/java/org/opentripplanner/ext/siri/SiriTimetableSnapshotSource.java:1419-1506 | a journey with no calls yields none without reading the snapshot; a result is non-empty and each trip runs on the journey's departure date; on success every trip contributed by a fuzzy match is in the result by id, and every trip of the result was contributed by one |
| SiriMatching.FuzzyPlan | src/ext/java/org/opentripplanner/ext/siri/SiriTimetableSnapshotSource.java:913-930 | the patterns gathered have distinct ids, are no more than the trip times gathered, and each was returned by getPatternForTrip for one of the matching trips |
| SiriMatching.FuzzyPlanComplete | src/ext/java/org/opentripplanner/ext/siri/SiriTimetableSnapshotSource.java:913-930 | on success no matching trip threw, and every matching trip with a matched pattern and updated trip times contributes those trip times and its pattern by id |
| SiriMatching.FuzzyPlanSound | src/ext/java/org/opentripplanner/ext/siri/SiriTimetableSnapshotSource.java:913-930 | every trip times gathered are the updated trip times of a matching trip on its matched pattern |
| SiriMatching.PlanModifiedTrip | src/ext/java/org/opentripplanner/ext/siri/SiriTimetableSnapshotSource.java:809-946 | a journey reported as not monitored and not cancelled is ignored; a monitored journey without a line fails; an exact match decides alone: with its pattern the plan is its updated trip times on that pattern (or none without updated times), without a pattern there is no plan; any plan carries the journey's service date, at least one trip times and at least one pattern with distinct ids, and was built after reading the snapshot |
| SiriMatching.ExactMatchShadowsFuzzy | src/ext/java/org/opentripplanner/ext/siri/SiriTimetableSnapshotSource.java:850-886 | when the exact matcher finds the trip the fuzzy matcher's answer does not affect the plan |
| SiriMatching.FuzzyPlanReachedWhenPatterns | src/ext/java/org/opentripplanner/ext/siri/SiriTimetableSnapshotSource.java:913-930 | a fuzzy plan that gathered trip times read the snapshot to do so |
| SiriSource.Frames | src/ext/java/org/opentripplanner/ext/siri/SiriTimetableSnapshotSource.java:258-263 | a batch without deliveries has no version frames |
| SiriSource.FramesAppend | src/ext/java/org/opentripplanner/ext/siri/SiriTimetableSnapshotSource.java:258-263 | the frames of a batch with one more delivery are the earlier frames followed by that delivery's frames, if it has any |
| SiriSource.ActivityListsAppend | src/ext/java/org/opentripplanner/ext/siri/SiriTimetableSnapshotSource.java:179-183 | the activity lists of a batch with one more delivery are the earlier lists followed by that delivery's list, if it has one |
| SiriSource.AddedTripOfUnfold | src/ext/java/org/opentripplanner/ext/siri/SiriTimetableSnapshotSource.java:600-757 | once the aimed stop times and the real-time stop times are built, the added trip has those aimed stop times and scheduled trip times marked added, or cancelled when the journey is cancelled |
| SiriSource.AddedTripShape | src/ext/java/org/opentripplanner/ext/siri/SiriTimetableSnapshotSource.java:600-735 | a built added trip has one stop, one aimed stop time and one stop of trip times per call, its aimed stop times are those of the first loop, and its trip times belong to the trip |
| SiriSource.AddedToGraphAccepts | src/ext/java/org/opentripplanner/ext/siri/SiriTimetableSnapshotSource.java:1059-1131 | with a valid pattern cache, trip times with one stop per stop time and increasing times are accepted, and they resolve on the date under the real-time pattern recorded for the trip, which has the trip's stop pattern |
| SiriSource.BuiltTripRegistered | src/ext/java/org/opentripplanner/ext/siri/SiriTimetableSnapshotSource.java:685-768 | a built trip is registered under the next real-time pattern id of its feed, the counter having moved on by one |
| SiriSource.AddedTripRegisteredAccepts | src/ext/java/org/opentripplanner/ext/siri/SiriTimetableSnapshotSource.java:737-768 | registering a built trip whose times increase succeeds, puts the trip in the trip index and makes its trip times visible for the date |
| SiriSource.BuiltTripAccepted | src/ext/java/org/opentripplanner/ext/siri/SiriTimetableSnapshotSource.java:685-768 | after the id is drawn, a built trip whose times increase is accepted, indexed and visible for the date |
| SiriSource.JourneyAddedAccepts | src/ext/java/org/opentripplanner/ext/siri/SiriTimetableSnapshotSource.java:600-768 | once the trip is known, calls from which the added trip can be built, with increasing times, make `handleAddedTrip` return true, index the trip and make the built trip visible for the date |
| SiriSource.AddedTripAccepted | src/ext/java/org/opentripplanner/ext/siri/SiriTimetableSnapshotSource.java:469-768 | an extra journey with code, line, operator and calls, a service date with a service id, and calls that build an added trip with increasing times is accepted, indexed and visible for its date |
| SiriSource.IgnoredJourneysLeaveStateAlone | src/ext/java/org/opentripplanner/ext/siri/SiriTimetableSnapshotSource.java:815-824 | journeys that are neither extra, monitored nor cancelled each count as not monitored and leave buffer, index, cache and snapshot as they were |
| SiriSource.ExpiredActivitiesLeaveStateAlone | src/ext/java/org/opentripplanner/ext/siri/SiriTimetableSnapshotSource.java:345-356 | activities no longer valid at the batch's instant each count as skipped and leave buffer and snapshot as they were |
| SiriSource.FrameCountersAppend | src/ext/java/org/opentripplanner/ext/siri/SiriTimetableSnapshotSource.java:258-306 | the counter records of the frames of one more delivery extend the batch's records, each still counting its frame's journeys once |
| SiriSource.FinishAddedTrip | src/ext/java/org/opentripplanner/ext/siri/SiriTimetableSnapshotSource.java:693-748 | the second loop and the trip's final state build exactly the added trip that `AddedTripOf` specifies, with the first loop's stops and aimed stop times and trip times of the trip |
| SiriSource.SiriTimetableSnapshotSource.constructor | src/ext/java/org/opentripplanner/ext/siri/SiriTimetableSnapshotSource.java:78-123 | starts with an empty buffer, no snapshot, no snapshot time, no purge date, a 1000 ms snapshot frequency, purging enabled and an empty pattern cache |
| SiriSource.SiriTimetableSnapshotSource.ViewAfterAccess | src/ext/java/org/opentripplanner/ext/siri/SiriTimetableSnapshotSource.java:329-343 | when no commit is due the view is the published snapshot; when one is due it is the buffer's contents |
| SiriSource.SiriTimetableSnapshotSource.GetTimetableSnapshot | src/ext/java/org/opentripplanner/ext/siri/SiriTimetableSnapshotSource.java:329-343 | within the frequency and unforced nothing changes; otherwise the time is restamped, and the buffer is committed when forced or dirty; the buffer's contents never change |
| SiriSource.SiriTimetableSnapshotSource.ReaderSnapshot | src/ext/java/org/opentripplanner/ext/siri/SiriTimetableSnapshotSource.java:131-149 | without the lock nothing changes; with it the reader sees what a non-forced commit would give, after which no commit is due at that instant |
| SiriSource.ReadSnapshotTwice | src/ext/java/org/opentripplanner/ext/siri/SiriTimetableSnapshotSource.java:131-149 | at one instant, asking for the snapshot a second time changes nothing |
| SiriSource.SiriTimetableSnapshotSource.PurgeExpiredData | src/ext/java/org/opentripplanner/ext/siri/SiriTimetableSnapshotSource.java:1185-1198 | with the cutoff two days before today: nothing happens when the last purge is after the cutoff; otherwise the cutoff is recorded and the buffer is purged up to it, telling whether anything went |
| SiriSource.SiriTimetableSnapshotSource.CancelScheduledTrip | src/ext/java/org/opentripplanner/ext/siri/SiriTimetableSnapshotSource.java:1139-1160 | succeeds exactly when the trip has a pattern with scheduled times for it, then writes a cancelled copy of those times for the date through the buffer's update; other dates are untouched |
| SiriSource.SiriTimetableSnapshotSource.RemovePreviousRealtimeUpdate | src/ext/java/org/opentripplanner/ext/siri/SiriTimetableSnapshotSource.java:1168-1183 | the buffer is `PreviousRemoved` of the old one: it succeeds exactly when the trip had a real-time pattern on the date, and then that pattern's record is forgotten and the trip is removed from the pattern's timetable for the date, so that, when the timetable held each trip once, the trip no longer resolves there; without a pattern nothing changes; afterwards the trip has no real-time pattern on the date, and other dates are untouched |
| SiriSource.SiriTimetableSnapshotSource.GetOrCreatePattern | src/ext/java/org/opentripplanner/ext/siri/SiriTimetableSnapshotSource.java:1080-1085 | the same stop pattern on the same route for the same service date yields the cached pattern and changes nothing; a new one is real-time, has the stops and route, the next generated id and an empty scheduled timetable, and is cached under that key |
| SiriSource.CachedPatternStable | src/ext/java/org/opentripplanner/ext/siri/SiriTimetableSnapshotSource.java:1080-1085 | a second lookup with the same stop pattern, route and date finds the pattern of the first and changes nothing |
| SiriSource.CachedPatternValid | src/ext/java/org/opentripplanner/ext/siri/SiriTimetableSnapshotSource.java:1080-1095 | a lookup keeps every cached pattern real-time, with its key's stops and route, no scheduled trips and an id below the counter, and answers with such a pattern |
| SiriSource.SiriTimetableSnapshotSource.AddTripToGraphAndBuffer | src/ext/java/org/opentripplanner/ext/siri/SiriTimetableSnapshotSource.java:1059-1131 | fails on missing stops or a count mismatch, changing nothing; otherwise the cached pattern for the stop pattern, route and date is looked up or made, the update is accepted exactly when the counts agree and the times increase, and an accepted trip is visible under that cached pattern, which is registered for the trip and date and has no scheduled trips; a dated service journey id is registered when the journey has one |
| SiriSource.SiriTimetableSnapshotSource.WriteAddedTrip | src/ext/java/org/opentripplanner/ext/siri/SiriTimetableSnapshotSource.java:1099-1130 | the buffer is that of the update, the dated service journey registration and the update again; the update is accepted exactly when the stop counts agree and the times increase, and then the trip times are visible under the real-time pattern |
| SiriSource.SiriTimetableSnapshotSource.HandleAddedTrip | src/ext/java/org/opentripplanner/ext/siri/SiriTimetableSnapshotSource.java:469-769 | the outcome and the new buffer, cache, counter and index are `AddedTripHandled` of the old state: code, line and operator are required, no service date or no service id for it returns false and changes nothing; an accepted trip is indexed on the journey's line and the service id for its date, and the trip built from the calls is visible in the buffer for the service date; other dates are untouched; the partner `AddedTripAccepted` states when it is accepted |
| SiriSource.SiriTimetableSnapshotSource.AddJourney | src/ext/java/org/opentripplanner/ext/siri/SiriTimetableSnapshotSource.java:600-769 | the outcome and new state are `JourneyAdded` of the old state: a failing first loop changes nothing; otherwise the pattern id is drawn, the trip is in the trip index, and an accepted trip built from the calls is visible in the buffer; `JourneyAddedAccepts` states when it is accepted |
| SiriSource.SiriTimetableSnapshotSource.RegisterAddedTrip | src/ext/java/org/opentripplanner/ext/siri/SiriTimetableSnapshotSource.java:737-768 | the outcome and new state are `AddedTripRegistered` of the old state: the trip and a pattern with the new id holding exactly its trip times enter the index; trip times whose times do not increase are rejected without touching the buffer, others are accepted as `addTripToGraphAndBuffer` decides and are then visible for the date; `AddedTripRegisteredAccepts` states when it is accepted |
| SiriSource.SiriTimetableSnapshotSource.AddBuiltJourney | src/ext/java/org/opentripplanner/ext/siri/SiriTimetableSnapshotSource.java:685-768 | the outcome and new state are `BuiltTripAdded` of the trip `AddedTripOf` builds: a failing second loop changes only the pattern counter; otherwise the trip is indexed and an accepted trip is visible in the buffer for the date |
| SiriSource.SiriTimetableSnapshotSource.NextPatternId | src/ext/java/org/opentripplanner/ext/siri/SiriTimetableSnapshotSource.java:685 | the id is the next real-time pattern id of the trip's feed, and only the counter moves, by one |
| SiriSource.SiriTimetableSnapshotSource.IndexAddedTrip | src/ext/java/org/opentripplanner/ext/siri/SiriTimetableSnapshotSource.java:737-740 | the trip and its pattern are put into the trip and pattern-for-trip indexes, and nothing else changes |
| SiriSource.SiriTimetableSnapshotSource.AddIncreasingTrip | src/ext/java/org/opentripplanner/ext/siri/SiriTimetableSnapshotSource.java:754-768 | trip times whose times do not increase are rejected with the `Non-increasing triptimes` error and leave the buffer alone; others go through `addTripToGraphAndBuffer` and, when accepted, are visible for the date; the outcome and writer state are `IncreasingTripAdded` of the old ones |
| SiriSource.SiriTimetableSnapshotSource.ApplyToPattern | src/ext/java/org/opentripplanner/ext/siri/SiriTimetableSnapshotSource.java:949-1003 | a stop-count mismatch changes nothing; cancelled trip times go straight into the buffer; otherwise the scheduled trip is cancelled for the date and an earlier real-time pattern of the trip removed, and then an empty modified stop list cancels the trip times without adding anything while any other adds the trip with the modified stops and stop times; only the service date changes |
| SiriSource.SiriTimetableSnapshotSource.HandleModifiedTrip | src/ext/java/org/opentripplanner/ext/siri/SiriTimetableSnapshotSource.java:809-1007 | a journey reported as not monitored and not cancelled changes nothing; the snapshot is read once when matching reaches it; a failed or empty match changes nothing else; a plan is applied, every trip times to every pattern in order, from the state after the read; only the service date changes |
| SiriSource.SiriTimetableSnapshotSource.ApplyPlan | src/ext/java/org/opentripplanner/ext/siri/SiriTimetableSnapshotSource.java:947-1006 | the outcome and the new buffer, cache and id counter are those of applying every trip times of the plan to every pattern in order, stopping at the first exception; only the service date changes |
| SiriSource.SiriTimetableSnapshotSource.ApplyTripTimes | src/ext/java/org/opentripplanner/ext/siri/SiriTimetableSnapshotSource.java:949-1003 | one trip times applied to every pattern in order, the trip times cancelled for one pattern being those the next pattern sees; the outcome accumulates with or |
| SiriSource.SiriTimetableSnapshotSource.HandleTripPatternUpdate | src/ext/java/org/opentripplanner/ext/siri/SiriTimetableSnapshotSource.java:433-454 | reads the snapshot, then writes the activity's trip times for the pattern's current timetable for the date, or changes nothing more when none can be made |
| SiriSource.SiriTimetableSnapshotSource.HandleModifiedVehicle | src/ext/java/org/opentripplanner/ext/siri/SiriTimetableSnapshotSource.java:345-431 | an activity without a validity fails and one already expired is skipped; success needs a journey with vehicle and line that is not unmonitored, a matched trip and matched patterns; the new buffer, snapshot and outcome are those of updating every matched pattern in order; only the service date changes |
| SiriSource.SiriTimetableSnapshotSource.ApplyFrame | src/ext/java/org/opentripplanner/ext/siri/SiriTimetableSnapshotSource.java:262-307 | the outcome and new state are `FrameApplied`, the journey loop over the frame from zero counters; every journey is counted exactly once; only extra journeys count as added, at most the other journeys count as handled or not monitored, and every other journey reported neither monitored nor cancelled counts as not monitored; a failure comes from a journey that is not an extra journey |
| SiriSource.SiriTimetableSnapshotSource.ApplyJourney | src/ext/java/org/opentripplanner/ext/siri/SiriTimetableSnapshotSource.java:269-298 | the outcome and new state are `JourneyApplied`: the journey moves the counters by exactly one, as added or skipped for an extra journey, whose exceptions are caught, and as handled, not monitored (only when reported so, and always when also not cancelled) or skipped otherwise; only a journey that is not extra can fail |
| SiriSource.SiriTimetableSnapshotSource.ApplyExtraJourney | src/ext/java/org/opentripplanner/ext/siri/SiriTimetableSnapshotSource.java:270-285 | an extra journey never fails: the new state is what `AddedTripHandled` leaves, and the journey counts as added exactly when it returned true and as skipped otherwise, an error included |
| SiriSource.SiriTimetableSnapshotSource.ApplyModifiedJourney | src/ext/java/org/opentripplanner/ext/siri/SiriTimetableSnapshotSource.java:287-297 | any other journey: the new state is what `ModifiedTripHandled` leaves; its error is passed on, and otherwise the journey counts as handled when it returned true, as not monitored when reported unmonitored, and as skipped otherwise |
| SiriSource.SiriTimetableSnapshotSource.ApplyFrames | src/ext/java/org/opentripplanner/ext/siri/SiriTimetableSnapshotSource.java:262-307 | the outcome and new state are `FramesApplied`, the frames in order, stopping at the first failure; one counter record per frame, each counting that frame's journeys once |
| SiriSource.SiriTimetableSnapshotSource.ApplyDeliveries | src/ext/java/org/opentripplanner/ext/siri/SiriTimetableSnapshotSource.java:258-307 | the outcome and new state are `DeliveriesApplied`, the version frames of every delivery in order; one counter record per frame of the batch, each counting its journeys once |
| SiriSource.SiriTimetableSnapshotSource.ClearAndApplyDeliveries | src/ext/java/org/opentripplanner/ext/siri/SiriTimetableSnapshotSource.java:253-307 | a full dataset first clears the feed's real-time data; then the outcome and new state are `DeliveriesApplied` from that cleared buffer; no deliveries leave the cleared buffer as it is |
| SiriSource.SiriTimetableSnapshotSource.PublishAfterBatch | src/ext/java/org/opentripplanner/ext/siri/SiriTimetableSnapshotSource.java:214-219 | with purging enabled the purge runs with today's cutoff, otherwise the buffer and purge date are kept; a purge that removed anything forces a fresh snapshot of the purged buffer stamped now; otherwise a due commit happens and nothing else changes the snapshot; the new purge date, buffer and published side are exactly `BatchPublished` of the old ones |
| SiriSource.BatchPublished | src/ext/java/org/opentripplanner/ext/siri/SiriTimetableSnapshotSource.java:214-219 | after the optional purge, a purge that removed anything publishes the purged contents stamped now; otherwise `getTimetableSnapshot(false)`: once the snapshot frequency has passed, a dirty buffer is published and stamped now and a clean one only restamped, and before that the published side and the dirty flag stay as they were |
| SiriSource.SiriTimetableSnapshotSource.ApplyEstimatedTimetable | src/ext/java/org/opentripplanner/ext/siri/SiriTimetableSnapshotSource.java:238-327 | no updates changes nothing; otherwise the buffer starts cleared of the feed's real-time data for a full dataset, the batch outcome, buffer, index, cache and counter are `DeliveriesApplied` from there, with one counter record per version frame counting its journeys once; on success the purge date, buffer and published side are `BatchPublished` of the batch's buffer and published side (the purge, then the snapshot, forced when the purge removed anything and otherwise committed only when due and dirty), and a failure leaves the batch state as it stands |
| SiriSource.SiriTimetableSnapshotSource.ApplyActivities | src/ext/java/org/opentripplanner/ext/siri/SiriTimetableSnapshotSource.java:184-196 | the outcome, buffer and snapshot are `ActivitiesApplied`, every activity handled in order; each is counted once, as handled or skipped; only the service date changes |
| SiriSource.SiriTimetableSnapshotSource.ApplyVehicleDeliveries | src/ext/java/org/opentripplanner/ext/siri/SiriTimetableSnapshotSource.java:179-197 | the outcome, buffer and snapshot are `VehicleDeliveriesApplied`, the present activity lists of the deliveries in order; one counter record per list, each counting its activities once; only today's date changes |
| SiriSource.SiriTimetableSnapshotSource.ApplyVehicleMonitoring | src/ext/java/org/opentripplanner/ext/siri/SiriTimetableSnapshotSource.java:159-228 | no updates changes nothing; otherwise the buffer starts cleared of the feed's real-time data for a full dataset, and the batch outcome and buffer are `VehicleDeliveriesApplied` from there, changing no date but today's, with one counter record per present activity list counting its activities once; on success the purge date, buffer and published side are `BatchPublished` of the batch's buffer and published side (the purge, then the snapshot, forced when the purge removed anything and otherwise committed only when due and dirty), and a failure leaves the batch state as it stands |

## Left out

- Concurrency: the buffer lock, `tryLock`, the volatile snapshot field and the unlock in `finally` are not modelled. The writer runs alone. The public snapshot accessor takes whether the lock is available as a parameter.
- Clocks: every reading of the wall clock in one batch is taken as the same instant, a `Clock` parameter. `LocalDate.now` and `ZonedDateTime.now` become its dates.
- Time zones and daylight saving: `SecondsSinceStartOfService` counts 24-hour days in one fixed zone.
- `handleAddedTrip`'s route and agency creation for an unknown line is not modelled. The added trip's route id is the feed-scoped line reference, and its operator, headsign and other descriptive fields are not kept.
- `SiriSource.SiriTimetableSnapshotSource.HandleAddedTrip`: for a line with no route, the source takes the new route's agency from the first existing route whose operator is the journey's operator, by `findFirst().get()` (SiriTimetableSnapshotSource.java:507-547). When no route has that operator, including an operator reference the index does not know, this throws `NoSuchElementException`. The Estimated Timetable loop catches it and counts the journey as skipped with nothing added (SiriTimetableSnapshotSource.java:272-285). The model has no routes or operators, so it accepts such a journey: it adds the trip and counts it as added.
- `SiriSource.AddedTripHandled`: accepts a journey whose operator has no existing route, where the source throws `NoSuchElementException`, as `HandleAddedTrip` above.
- `SiriSource.AddedTripAccepted`: its conditions leave out the existing route with the journey's operator that the source needs when the line has no route, as `HandleAddedTrip` above.
- Collaborators whose code is not part of this model are given as parameters with only the contract their callers rely on: the fuzzy trip matcher, `TimetableHelper`'s updated trip times and modified stops, `getOrCreateServiceIdForDate`, the vehicle-mode mapping, `TimetableSnapshot`, `Timetable`, `TripTimes` and the `TransitModel` index. The pattern id generator of `SiriTripPatternCache` is reduced to a counter.
- Entity equality (`TransitEntity.equals`) is taken as equality of ids, and a `HashSet` of trips or patterns is a sequence without repeated ids, in first-insertion order.
- The cancellations and notes of Vehicle Monitoring deliveries are only logged in the source, so the model drops them.
- The log counters are modelled, but not the log lines. The counters that `LOG.info` prints are returned as `Counters` values, one record per version frame or per list of activities:
  - Estimated Timetable: handled, added, skipped and not monitored (SiriTimetableSnapshotSource.java:265-306);
  - Vehicle Monitoring: handled and skipped (SiriTimetableSnapshotSource.java:186-196).
- Log output as text, the log levels and the `keepLogging` flag, which only silences a repeated log line, are not modelled.
- `Gtfs.GenerateRouteColor`: a colour text that `Color.decode` cannot parse makes the source throw `NumberFormatException` (GtfsModule.java:356). The model takes the colour's luminance as a parameter, because the floating-point luminance computation is not modelled, so this exception is not modelled either.
- `SiriMessages.EstimatedCall`: a call whose `stopPointRef` is null makes the source throw a `NullPointerException` when it reads the reference (`getStopPointRef().getValue()`, SiriTimetableSnapshotSource.java:616, 1299-1315 and 1437-1445; `RecordedCall` likewise). The model's field is a plain string, never null, so this exception is not modelled.
- 32-bit integer wrap-around: leg durations and counts, frequency offsets, seconds since midnight and `nextAgencyId` are unbounded integers in the model. The `long` to `int` narrowing of `Duration` and of call order numbers is not modelled.
- `Gtfs.EntityCounter.IncrementCount` does not model `Integer` overflow of a count.
- `GtfsModule`'s reader, DAO and bundle plumbing are not modelled. Only the agency id loop, the entity counter and the route colour rule are modelled.
- The distance and elevation sums of leg totals are reals, not doubles, so rounding is not modelled.
- `BikeToStop.BikeToStopSkipEdgeStrategy.ShouldSkipEdge`: the unset limit `Double.MAX_VALUE` is a separate `Unlimited` value. A walk distance greater than `Double.MAX_VALUE / 1.2`, which would make the fixed limit overflow to infinity, is not modelled.
- Hop geometries are sequences of coordinates. JTS compaction and validity are not modelled, such as a line string of a single point.
- The source's patch of a hop geometry clones only the array of coordinates and then mutates the first and last coordinate objects, which the original pattern's geometry shares. The model's geometries are values, so this aliasing is not modelled. The original pattern keeps its geometry.
- `removeTripOnServiceDateForNonExistingTrip` only logs in the source, so `TransitServiceBuilder.OtpTransitServiceBuilder.LimitServiceDays` leaves the trips on service dates as they are.
- `LegTotals.ItinerariesCalculateLegTotals.Calculate` accumulates the totals into local variables in its loop and assigns the fields once after it, instead of updating each field on every leg. Only the final state is observable.
- `FrequencyAlightEvent`'s superclass is not part of this model. The event's `offset` and `headway` are taken as the fields of those names.
- `StopTime`'s unset time is taken as `-999` (`StopTime.MISSING_VALUE`). `StopTime` is not part of this model.
- `Timetables.Update`: `TimetableSnapshot.update` is not part of this model. Its rule, accepting trip times exactly when their stop count is the pattern's and their times increase, follows that class's documented contract, not its code.
- `Timetables.Snapshot.Commit`: the commit does not model the `TransitLayerUpdater` call that pushes the changed timetables into the routing layer, nor the snapshot's own read-only flag. A snapshot is its contents.
- `SiriSource.SiriTimetableSnapshotSource.GetOrCreatePattern`: `SiriTripPatternCache` is not part of this model. Its key (stop pattern, route and service date, the arguments of the call at `SiriTimetableSnapshotSource.java:1080-1085`) and its ids from a counter are assumed. The source adds the trip times to the pattern's scheduled timetable and clears that timetable again at lines 1091-1095; the model keeps the net effect, an empty scheduled timetable.
- `Timetables.RemoveRealtimeUpdatedTripTimes`: the trip is proved gone only from a timetable that holds each trip at most once. `Timetables.SetKeepsDistinct` shows that the updater's own writes keep that. A timetable holding the trip twice, which only code outside this model could build, keeps its later entry, because only the first index is removed.
- `SiriSource.SiriTimetableSnapshotSource.RemovePreviousRealtimeUpdate`: the trip is proved gone from the date's timetable under the same condition, each trip at most once in that timetable.
- `TripPatternBuilders.SameStops` and `TripPatternBuilders.SameStations`: stop equality is equality of stop ids, and station equality is `isPartOfSameStationAs` on the stops' parent stations, as entity equality is taken elsewhere.
- Added trips with a stop that is not in the stop index fail in the model. The source carries a null stop into the pattern cache, whose code is not part of this model.

## Findings

| source | as written | input that shows it | evidently intended | confidence | as-written member | corrected member |
|---|---|---|---|---|---|---|
| src/main/java/org/opentripplanner/transit/model/site/StationElement.java:150-162 | `sameAs` compares its own `coordinate` field with the other element's `getCoordinate()`, which falls back to the parent station and throws when neither is set | an element with no coordinate of its own but a parent station: it is not `sameAs` itself; with no parent either, `sameAs` throws | compare the coordinate field with the other's coordinate field, so the check is reflexive and symmetric and never throws | not executed | StationElements.SameAsAsWritten, StationElements.SameAsAsWrittenNotReflexive, StationElements.SameAsAsWrittenThrows | StationElements.SameAs, StationElements.SameAsIsReflexiveAndSymmetric |
| src/main/java/org/opentripplanner/graph_builder/module/GtfsModule.java:282-288 | the loop generating a new agency id probes `agencyIdsSeen` with the bare generated id, but the set holds feed-prefixed ids | feed "X" with agencies ["F1", no id]: the first keeps "F1" and records "XF1"; the second probes "F1", finds it free and also gets "F1" | probe with the feed prefix, so that every agency of a feed ends with a distinct id not seen before | not executed | Gtfs.AssignIdsAsWritten, Gtfs.AsWrittenReusesAgencyId | Gtfs.AssignIds, Gtfs.AssignIdsDistinct, Gtfs.GtfsModule.AssignAgencyIds |
