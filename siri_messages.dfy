// The parts of SIRI (CEN/TS 15531-3) Estimated Timetable and Vehicle Monitoring
// deliveries that the real-time updater reads, as plain records.  A reference
// structure that the updater dereferences (`getLineRef().getValue()`) is an Option
// of its value: None when the structure is absent.

module SiriMessages {
  import opened Wrappers
  import opened Framework

  datatype EstimatedCall = EstimatedCall(
    stopPointRef: string,
    order: Option<int>,
    visitNumber: Option<int>,
    aimedArrival: Option<DateTime>,
    aimedDeparture: Option<DateTime>,
    expectedArrival: Option<DateTime>,
    expectedDeparture: Option<DateTime>,
    /** ArrivalBoardingActivity is ALIGHTING */
    alighting: bool,
    /** DepartureBoardingActivity is BOARDING */
    boarding: bool,
    cancellation: Option<bool>,
    predictionInaccurate: Option<bool>)

  datatype RecordedCall = RecordedCall(stopPointRef: string, aimedDeparture: Option<DateTime>)

  datatype TransitMode = Rail | Bus | Coach | Tram | Subway | Ferry | Airplane | OtherMode

  datatype EstimatedVehicleJourney = EstimatedVehicleJourney(
    estimatedVehicleJourneyCode: Option<string>,
    lineRef: Option<string>,
    operatorRef: Option<string>,
    externalLineRef: Option<string>,
    datedVehicleJourneyRef: Option<string>,
    /** the DatedVehicleJourneyRef inside FramedVehicleJourneyRef */
    framedVehicleJourneyRef: Option<string>,
    extraJourney: Option<bool>,
    monitored: Option<bool>,
    cancellation: Option<bool>,
    predictionInaccurate: Option<bool>,
    recordedCalls: Option<seq<RecordedCall>>,
    estimatedCalls: Option<seq<EstimatedCall>>)

  datatype EstimatedVersionFrame = EstimatedVersionFrame(journeys: seq<EstimatedVehicleJourney>)

  datatype EstimatedTimetableDelivery = EstimatedTimetableDelivery(versionFrames: Option<seq<EstimatedVersionFrame>>)

  datatype MonitoredVehicleJourney = MonitoredVehicleJourney(
    vehicleRef: Option<string>,
    lineRef: Option<string>,
    monitored: Option<bool>,
    originRef: Option<string>,
    destinationRef: Option<string>,
    originAimedDeparture: Option<DateTime>)

  datatype VehicleActivity = VehicleActivity(
    /** ValidUntilTime, as an instant in milliseconds */
    validUntil: Option<int>,
    monitoredVehicleJourney: Option<MonitoredVehicleJourney>)

  datatype VehicleMonitoringDelivery = VehicleMonitoringDelivery(vehicleActivities: Option<seq<VehicleActivity>>)

  predicate IsTrue(b: Option<bool>)
  {
    b == Some(true)
  }

  predicate IsFalse(b: Option<bool>)
  {
    b == Some(false)
  }
}
