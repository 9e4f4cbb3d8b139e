/**
 * The records of FlightSearchScreen.kt: the response of the flight data
 * service and the detail record the screen synthesizes from one of its
 * flights, plus the text the details screen derives from them.
 * Every Kotlin nullable field is an `Option`.
 */
module FlightData {
  import opened Options
  import opened ClockTime

  datatype FlightResponse = FlightResponse(departures: Option<seq<FlightItem>>)

  datatype FlightItem = FlightItem(
    number: Option<string>,
    airline: Option<AirlineInfo>,
    status: Option<string>,
    departure: Option<DepartureInfo>,
    arrival: Option<ArrivalInfo>)

  datatype AirlineInfo = AirlineInfo(name: Option<string>)

  datatype DepartureInfo = DepartureInfo(scheduledTimeLocal: Option<string>, airport: Option<AirportShortInfo>)

  datatype ArrivalInfo = ArrivalInfo(scheduledTimeLocal: Option<string>, airport: Option<AirportShortInfo>)

  datatype AirportShortInfo = AirportShortInfo(iata: Option<string>, name: Option<string>)

  datatype FlightMovement = FlightMovement(scheduledTimeLocal: Option<string>, airport: Option<AirportShortInfo>)

  datatype FlightStatusResponse = FlightStatusResponse(
    number: Option<string>,
    airline: Option<AirlineInfo>,
    status: Option<string>,
    departure: Option<FlightMovement>,
    arrival: Option<FlightMovement>)

  /** Status given to a synthesized record whose flight has none. */
  const DefaultStatus: string := "Scheduled"

  /** `flight.departure?.airport` */
  function DepartureAirport(flight: FlightItem): (r: Option<AirportShortInfo>)
    ensures r.Some? <==> flight.departure.Some? && flight.departure.value.airport.Some?
    ensures r.Some? ==> r == flight.departure.value.airport
  {
    match flight.departure
    case Some(d) => d.airport
    case None => None
  }

  /** `flight.arrival?.airport` */
  function ArrivalAirport(flight: FlightItem): (r: Option<AirportShortInfo>)
    ensures r.Some? <==> flight.arrival.Some? && flight.arrival.value.airport.Some?
    ensures r.Some? ==> r == flight.arrival.value.airport
  {
    match flight.arrival
    case Some(a) => a.airport
    case None => None
  }

  /** `flight.arrival?.airport?.iata` */
  function ArrivalIata(flight: FlightItem): (r: Option<string>)
    ensures r.Some? <==> ArrivalAirport(flight).Some? && ArrivalAirport(flight).value.iata.Some?
    ensures r.Some? ==> r == ArrivalAirport(flight).value.iata
  {
    match ArrivalAirport(flight)
    case Some(a) => a.iata
    case None => None
  }

  /**
   * What a detail record of `flight` looks like: number and airline copied,
   * status copied or defaulted, both legs present with the flight's airport
   * and a well-formed `HH:MM` time.
   */
  predicate DescribesFlight(d: FlightStatusResponse, flight: FlightItem) {
    && d.number == flight.number
    && d.airline == flight.airline
    && d.status == Some(flight.status.GetOr(DefaultStatus))
    && d.departure.Some? && d.departure.value.airport == DepartureAirport(flight)
    && d.departure.value.scheduledTimeLocal.Some? && IsClockTime(d.departure.value.scheduledTimeLocal.value)
    && d.arrival.Some? && d.arrival.value.airport == ArrivalAirport(flight)
    && d.arrival.value.scheduledTimeLocal.Some? && IsClockTime(d.arrival.value.scheduledTimeLocal.value)
  }

  /**
   * The record built when a flight card is clicked, given the two
   * `randomTime()` results: `RandomTime` produces exactly the well-formed
   * `HH:MM` texts (`EveryClockTimeIsRandomTime`).
   */
  function SynthesizeDetails(flight: FlightItem, depTime: string, arrTime: string): (d: FlightStatusResponse)
    requires IsClockTime(depTime) && IsClockTime(arrTime)
    ensures DescribesFlight(d, flight)
    ensures d.departure.value.scheduledTimeLocal == Some(depTime)
    ensures d.arrival.value.scheduledTimeLocal == Some(arrTime)
  {
    FlightStatusResponse(
      number := flight.number,
      airline := flight.airline,
      status := Some(flight.status.GetOr(DefaultStatus)),
      departure := Some(FlightMovement(Some(depTime), DepartureAirport(flight))),
      arrival := Some(FlightMovement(Some(arrTime), ArrivalAirport(flight))))
  }

  /** Every record that describes a flight is the one synthesized from its own two times. */
  lemma DescriptionIsSynthesized(d: FlightStatusResponse, flight: FlightItem)
    requires DescribesFlight(d, flight)
    ensures d == SynthesizeDetails(flight, d.departure.value.scheduledTimeLocal.value, d.arrival.value.scheduledTimeLocal.value)
  {
  }

  /** Records synthesized from different draws differ. */
  lemma SynthesizedFromDraws(flight: FlightItem, depTime: string, arrTime: string, depTime': string, arrTime': string)
    requires IsClockTime(depTime) && IsClockTime(arrTime) && IsClockTime(depTime') && IsClockTime(arrTime')
    ensures SynthesizeDetails(flight, depTime, arrTime) == SynthesizeDetails(flight, depTime', arrTime')
        <==> depTime == depTime' && arrTime == arrTime'
  {
  }

  /** The flight with both scheduled local times removed. */
  function WithoutScheduledTimes(flight: FlightItem): (r: FlightItem)
    ensures r.number == flight.number && r.airline == flight.airline && r.status == flight.status
    ensures DepartureAirport(r) == DepartureAirport(flight) && ArrivalAirport(r) == ArrivalAirport(flight)
  {
    flight.(
      departure := match flight.departure case Some(d) => Some(d.(scheduledTimeLocal := None)) case None => None,
      arrival := match flight.arrival case Some(a) => Some(a.(scheduledTimeLocal := None)) case None => None)
  }

  /** The flight's own scheduled times never reach its detail record: only the draws do. */
  lemma ScheduledTimesIgnored(flight: FlightItem, depTime: string, arrTime: string)
    requires IsClockTime(depTime) && IsClockTime(arrTime)
    ensures SynthesizeDetails(flight, depTime, arrTime) == SynthesizeDetails(WithoutScheduledTimes(flight), depTime, arrTime)
  {
  }

  // ---- Text of the details screen (FlightDetailsScreen) ----

  /** The place shown for an airport: its name, else its IATA code, else nothing. */
  function AirportLabel(airport: Option<AirportShortInfo>): (r: Option<string>)
    ensures airport.Some? && airport.value.name.Some? ==> r == airport.value.name
    ensures airport.Some? && airport.value.name.None? ==> r == airport.value.iata
    ensures airport.None? ==> r.None?
  {
    match airport
    case Some(a) => if a.name.Some? then a.name else a.iata
    case None => None
  }

  /** `details?.departure` and `details?.arrival` */
  function Leg(details: Option<FlightStatusResponse>, departure: bool): Option<FlightMovement> {
    match details
    case Some(d) => if departure then d.departure else d.arrival
    case None => None
  }

  /** The heading: airline name or "Unknown", a space, the flight number or nothing. */
  function TitleLine(flight: FlightItem): string {
    var airlineName := match flight.airline case Some(a) => a.name case None => None;
    airlineName.GetOr("Unknown") + " " + flight.number.GetOr("")
  }

  /**
   * A missing airline, or an airline without a name, reads "Unknown"; a
   * missing number leaves the heading ending in the space.
   */
  lemma TitleLineFallbacks(flight: FlightItem)
    ensures flight.airline.None? || flight.airline.value.name.None?
            ==> TitleLine(flight) == "Unknown " + flight.number.GetOr("")
    ensures flight.airline.Some? && flight.airline.value.name.Some? && flight.number.None?
            ==> TitleLine(flight) == flight.airline.value.name.value + " "
  {
  }

  function StatusLine(details: Option<FlightStatusResponse>): string {
    var status := match details case Some(d) => d.status case None => None;
    "Status: " + status.GetOr("N/A")
  }

  /** "Departure: <place> at <time>" or "Arrival: …", each missing part shown as "-". */
  function LegLine(details: Option<FlightStatusResponse>, departure: bool): string {
    var leg := Leg(details, departure);
    var place := match leg case Some(m) => AirportLabel(m.airport) case None => None;
    var time := match leg case Some(m) => m.scheduledTimeLocal case None => None;
    (if departure then "Departure: " else "Arrival: ") + place.GetOr("-") + " at " + time.GetOr("-")
  }

  /**
   * What the details screen shows for a synthesized record: the flight's
   * status (or "Scheduled", never the "N/A" fallback for an absent status),
   * the flight's own airports, and the drawn times.
   */
  lemma SynthesizedDetailsShown(flight: FlightItem, depTime: string, arrTime: string)
    requires IsClockTime(depTime) && IsClockTime(arrTime)
    ensures var d := Some(SynthesizeDetails(flight, depTime, arrTime));
      && StatusLine(d) == "Status: " + flight.status.GetOr(DefaultStatus)
      && LegLine(d, true) == "Departure: " + AirportLabel(DepartureAirport(flight)).GetOr("-") + " at " + depTime
      && LegLine(d, false) == "Arrival: " + AirportLabel(ArrivalAirport(flight)).GetOr("-") + " at " + arrTime
  {
  }

  /** Without a detail record every field falls back. */
  lemma NoDetailsShown()
    ensures StatusLine(None) == "Status: N/A"
    ensures LegLine(None, true) == "Departure: - at -"
    ensures LegLine(None, false) == "Arrival: - at -"
  {
  }
}
