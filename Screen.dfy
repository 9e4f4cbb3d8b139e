/**
 * The remembered state of FlightSearchScreen and the event handlers that
 * change it. The Search button's click is split into `Submit`, which
 * applies the length guard, starts the spinner, clears the list and makes
 * the background task's history saves and request, and `Complete`, which
 * receives the outcome of that request. Calls to the history store and the
 * flight data service are recorded, in order, in `effects`.
 */
module Screen {
  import opened Options
  import opened AsciiText
  import opened ClockTime
  import opened FlightData
  import opened FlightSearch
  import Utf16

  /** Compose's `TextRange`: the selection in UTF-16 offsets (a caret when `start == end`). */
  datatype TextRange = TextRange(start: nat, end: nat)

  /** Compose's `TextFieldValue`: the text of a field and its selection. */
  datatype TextFieldValue = TextFieldValue(text: string, selection: TextRange)

  /** The origin and destination texts a search was submitted with. */
  datatype SearchRequest = SearchRequest(origin: string, destination: string)

  /** What the flight data request produced: a decoded response, or an exception. */
  datatype FetchOutcome = Fetched(response: FlightResponse) | Failed

  /** What the area under the Search button shows. */
  datatype ResultsView = Spinner | NoFlightsFound | FlightList(flights: seq<FlightItem>)

  /** A spinner while loading, else "No flights found!" for an empty list, else the cards. */
  function ResultsViewOf(isLoading: bool, flights: seq<FlightItem>): (v: ResultsView)
    ensures v == Spinner <==> isLoading
    ensures v == NoFlightsFound <==> !isLoading && flights == []
    ensures v.FlightList? <==> !isLoading && flights != []
    ensures v.FlightList? ==> v.flights == flights
  {
    if isLoading then Spinner else if flights == [] then NoFlightsFound else FlightList(flights)
  }

  /** A call a valid submission can make: only 3-letter origins, only non-empty destinations, fixed query parameters. */
  predicate IsSubmittedEffect(e: Effect) {
    match e
    case SaveOrigin(code) => Utf16.Length(code) == CodeLength
    case SaveDestination(code) => code != []
    case FetchDepartures(origin, direction, withLocation, withAircraftImage) =>
      Utf16.Length(origin) == CodeLength && direction == Direction && withLocation && !withAircraftImage
  }

  lemma SubmitEffectsAreSubmitted(origin: string, destination: string)
    requires SearchEnabled(origin)
    ensures forall e :: e in SubmitEffects(origin, destination) ==> IsSubmittedEffect(e)
  {
  }

  class FlightSearchScreen {
    var origin: TextFieldValue
    var destination: TextFieldValue
    var flights: seq<FlightItem>
    var isLoading: bool
    var selectedFlight: Option<FlightItem>
    var flightDetails: Option<FlightStatusResponse>
    var isOriginManuallyClosed: bool
    var isDestManuallyClosed: bool

    /** Every history save and flight data request made so far, oldest first. */
    var effects: seq<Effect>

    /**
     * A detail record exists exactly when a flight is selected and describes it;
     * nothing is listed while loading; every recorded call came from a valid submission.
     */
    ghost predicate Valid()
      reads this
    {
      && (selectedFlight.Some? <==> flightDetails.Some?)
      && (selectedFlight.Some? ==> DescribesFlight(flightDetails.value, selectedFlight.value))
      && (isLoading ==> flights == [])
      && (forall e :: e in effects ==> IsSubmittedEffect(e))
    }

    // ---- Derived state ----

    function OriginSuggestions(originHistory: seq<string>): seq<string>
      reads this
    {
      Suggestions(originHistory, origin.text)
    }

    function DestinationSuggestions(destHistory: seq<string>): seq<string>
      reads this
    {
      Suggestions(destHistory, destination.text)
    }

    predicate ShowOriginMenu(originHistory: seq<string>)
      reads this
    {
      ShowMenu(origin.text, OriginSuggestions(originHistory), isOriginManuallyClosed)
    }

    predicate ShowDestinationMenu(destHistory: seq<string>)
      reads this
    {
      ShowMenu(destination.text, DestinationSuggestions(destHistory), isDestManuallyClosed)
    }

    /** The screen entered: both fields empty, nothing listed, loading or selected, menus armed. */
    constructor ()
      ensures Valid()
      ensures origin == TextFieldValue("", TextRange(0, 0)) && destination == TextFieldValue("", TextRange(0, 0))
      ensures flights == [] && !isLoading && selectedFlight == None && flightDetails == None
      ensures !isOriginManuallyClosed && !isDestManuallyClosed && effects == []
    {
      origin := TextFieldValue("", TextRange(0, 0));
      destination := TextFieldValue("", TextRange(0, 0));
      flights := [];
      isLoading := false;
      selectedFlight := None;
      flightDetails := None;
      isOriginManuallyClosed := false;
      isDestManuallyClosed := false;
      effects := [];
    }

    // ---- Text fields ----

    /** The origin field was edited: store the text upper-cased, keep the selection, re-arm the menu. */
    method OnOriginChange(v: TextFieldValue)
      requires Valid()
      modifies this
      ensures Valid()
      ensures origin == TextFieldValue(Upper(v.text), v.selection) && !isOriginManuallyClosed
      ensures IsUpperText(origin.text) && EqualsIgnoreCase(origin.text, v.text)
      ensures forall h :: OriginSuggestions(h) == Suggestions(h, v.text)
      ensures destination == old(destination) && isDestManuallyClosed == old(isDestManuallyClosed)
      ensures flights == old(flights) && isLoading == old(isLoading) && effects == old(effects)
      ensures selectedFlight == old(selectedFlight) && flightDetails == old(flightDetails)
    {
      origin := TextFieldValue(Upper(v.text), v.selection);
      isOriginManuallyClosed := false;
      UpperIsUpperText(v.text);
      UpperEqualsIgnoreCase(v.text);
      forall h ensures OriginSuggestions(h) == Suggestions(h, v.text) {
        SuggestionsIgnoreTextCase(h, v.text);
      }
    }

    /** The destination field was edited: as for the origin. */
    method OnDestinationChange(v: TextFieldValue)
      requires Valid()
      modifies this
      ensures Valid()
      ensures destination == TextFieldValue(Upper(v.text), v.selection) && !isDestManuallyClosed
      ensures IsUpperText(destination.text) && EqualsIgnoreCase(destination.text, v.text)
      ensures forall h :: DestinationSuggestions(h) == Suggestions(h, v.text)
      ensures origin == old(origin) && isOriginManuallyClosed == old(isOriginManuallyClosed)
      ensures flights == old(flights) && isLoading == old(isLoading) && effects == old(effects)
      ensures selectedFlight == old(selectedFlight) && flightDetails == old(flightDetails)
    {
      destination := TextFieldValue(Upper(v.text), v.selection);
      isDestManuallyClosed := false;
      UpperIsUpperText(v.text);
      UpperEqualsIgnoreCase(v.text);
      forall h ensures DestinationSuggestions(h) == Suggestions(h, v.text) {
        SuggestionsIgnoreTextCase(h, v.text);
      }
    }

    /** An origin suggestion was picked: it becomes the text, caret at its end, and the menu closes. */
    method OnOriginSuggestionPicked(option: string)
      requires Valid()
      modifies this
      ensures Valid()
      ensures origin == TextFieldValue(option, TextRange(Utf16.Length(option), Utf16.Length(option))) && isOriginManuallyClosed
      ensures forall h :: !ShowOriginMenu(h)
      ensures destination == old(destination) && isDestManuallyClosed == old(isDestManuallyClosed)
      ensures flights == old(flights) && isLoading == old(isLoading) && effects == old(effects)
      ensures selectedFlight == old(selectedFlight) && flightDetails == old(flightDetails)
    {
      origin := TextFieldValue(option, TextRange(Utf16.Length(option), Utf16.Length(option)));
      isOriginManuallyClosed := true;
    }

    /** A destination suggestion was picked: as for the origin. */
    method OnDestinationSuggestionPicked(option: string)
      requires Valid()
      modifies this
      ensures Valid()
      ensures destination == TextFieldValue(option, TextRange(Utf16.Length(option), Utf16.Length(option))) && isDestManuallyClosed
      ensures forall h :: !ShowDestinationMenu(h)
      ensures origin == old(origin) && isOriginManuallyClosed == old(isOriginManuallyClosed)
      ensures flights == old(flights) && isLoading == old(isLoading) && effects == old(effects)
      ensures selectedFlight == old(selectedFlight) && flightDetails == old(flightDetails)
    {
      destination := TextFieldValue(option, TextRange(Utf16.Length(option), Utf16.Length(option)));
      isDestManuallyClosed := true;
    }

    // ---- Menu dismissal ----

    /** The origin menu box asked to expand or collapse: it counts as closed by hand iff it collapses. */
    method OnOriginExpandedChange(expanded: bool)
      requires Valid()
      modifies this
      ensures Valid()
      ensures isOriginManuallyClosed == !expanded
      ensures !expanded ==> forall h :: !ShowOriginMenu(h)
      ensures origin == old(origin) && destination == old(destination) && isDestManuallyClosed == old(isDestManuallyClosed)
      ensures flights == old(flights) && isLoading == old(isLoading) && effects == old(effects)
      ensures selectedFlight == old(selectedFlight) && flightDetails == old(flightDetails)
    {
      isOriginManuallyClosed := !expanded;
    }

    /** The origin menu was dismissed (a tap outside it). */
    method OnOriginMenuDismissed()
      requires Valid()
      modifies this
      ensures Valid()
      ensures isOriginManuallyClosed && forall h :: !ShowOriginMenu(h)
      ensures origin == old(origin) && destination == old(destination) && isDestManuallyClosed == old(isDestManuallyClosed)
      ensures flights == old(flights) && isLoading == old(isLoading) && effects == old(effects)
      ensures selectedFlight == old(selectedFlight) && flightDetails == old(flightDetails)
    {
      isOriginManuallyClosed := true;
    }

    /** The destination menu box asked to expand or collapse. */
    method OnDestinationExpandedChange(expanded: bool)
      requires Valid()
      modifies this
      ensures Valid()
      ensures isDestManuallyClosed == !expanded
      ensures !expanded ==> forall h :: !ShowDestinationMenu(h)
      ensures origin == old(origin) && destination == old(destination) && isOriginManuallyClosed == old(isOriginManuallyClosed)
      ensures flights == old(flights) && isLoading == old(isLoading) && effects == old(effects)
      ensures selectedFlight == old(selectedFlight) && flightDetails == old(flightDetails)
    {
      isDestManuallyClosed := !expanded;
    }

    /** The destination menu was dismissed. */
    method OnDestinationMenuDismissed()
      requires Valid()
      modifies this
      ensures Valid()
      ensures isDestManuallyClosed && forall h :: !ShowDestinationMenu(h)
      ensures origin == old(origin) && destination == old(destination) && isOriginManuallyClosed == old(isOriginManuallyClosed)
      ensures flights == old(flights) && isLoading == old(isLoading) && effects == old(effects)
      ensures selectedFlight == old(selectedFlight) && flightDetails == old(flightDetails)
    {
      isDestManuallyClosed := true;
    }

    // ---- Search ----

    /**
     * The Search button was clicked. Unless the origin has Kotlin length 3
     * (UTF-16 code units) nothing happens at all. Otherwise the spinner starts, the
     * list is cleared, the non-empty texts are saved to history, the
     * departures of the origin are requested, and the texts are handed to
     * `Complete` through the returned request.
     */
    method Submit() returns (request: Option<SearchRequest>)
      requires Valid()
      modifies this
      ensures Valid()
      ensures request.Some? <==> SearchEnabled(old(origin.text))
      ensures !SearchEnabled(old(origin.text)) ==>
        && flights == old(flights) && isLoading == old(isLoading) && effects == old(effects)
      ensures SearchEnabled(old(origin.text)) ==>
        && request == Some(SearchRequest(origin.text, destination.text))
        && isLoading && flights == []
        && effects == old(effects) + SubmitEffects(origin.text, destination.text)
      ensures origin == old(origin) && destination == old(destination)
      ensures isOriginManuallyClosed == old(isOriginManuallyClosed) && isDestManuallyClosed == old(isDestManuallyClosed)
      ensures selectedFlight == old(selectedFlight) && flightDetails == old(flightDetails)
    {
      if !SearchEnabled(origin.text) {
        return None;
      }
      isLoading := true;
      flights := [];
      SubmitEffectsAreSubmitted(origin.text, destination.text);
      effects := effects + SubmitEffects(origin.text, destination.text);
      request := Some(SearchRequest(origin.text, destination.text));
    }

    /**
     * The request of a submission finished. On a response the list becomes its
     * departures, filtered by a 3-letter destination; on a failure the list is
     * left as it is, which after `Submit` is empty. Either way loading stops.
     */
    method Complete(request: SearchRequest, outcome: FetchOutcome)
      requires Valid()
      modifies this
      ensures Valid()
      ensures !isLoading
      ensures outcome.Fetched? ==> flights == Results(outcome.response, request.destination)
      ensures outcome.Failed? ==> flights == old(flights)
      ensures outcome.Failed? && old(isLoading) ==> flights == [] && ResultsViewOf(isLoading, flights) == NoFlightsFound
      ensures origin == old(origin) && destination == old(destination) && effects == old(effects)
      ensures isOriginManuallyClosed == old(isOriginManuallyClosed) && isDestManuallyClosed == old(isDestManuallyClosed)
      ensures selectedFlight == old(selectedFlight) && flightDetails == old(flightDetails)
    {
      if outcome.Fetched? {
        flights := Results(outcome.response, request.destination);
      }
      isLoading := false;
    }

    // ---- Selection ----

    /** A flight card was clicked; the hours and minutes are the two `randomTime()` draws. */
    method SelectFlight(flight: FlightItem, depHour: nat, depMinute: nat, arrHour: nat, arrMinute: nat)
      requires Valid()
      requires depHour <= 23 && depMinute <= 59 && arrHour <= 23 && arrMinute <= 59
      modifies this
      ensures Valid()
      ensures selectedFlight == Some(flight)
      ensures flightDetails.Some? && DescribesFlight(flightDetails.value, flight)
      ensures flightDetails.value.departure.value.scheduledTimeLocal == Some(RandomTime(depHour, depMinute))
      ensures flightDetails.value.arrival.value.scheduledTimeLocal == Some(RandomTime(arrHour, arrMinute))
      ensures origin == old(origin) && destination == old(destination)
      ensures flights == old(flights) && isLoading == old(isLoading) && effects == old(effects)
      ensures isOriginManuallyClosed == old(isOriginManuallyClosed) && isDestManuallyClosed == old(isDestManuallyClosed)
    {
      RandomTimeIsClockTime(depHour, depMinute);
      RandomTimeIsClockTime(arrHour, arrMinute);
      selectedFlight := Some(flight);
      flightDetails := Some(SynthesizeDetails(flight, RandomTime(depHour, depMinute), RandomTime(arrHour, arrMinute)));
    }

    /** Back on the details screen: the selection and its details go together. */
    method Back()
      requires Valid()
      modifies this
      ensures Valid()
      ensures selectedFlight == None && flightDetails == None
      ensures origin == old(origin) && destination == old(destination)
      ensures flights == old(flights) && isLoading == old(isLoading) && effects == old(effects)
      ensures isOriginManuallyClosed == old(isOriginManuallyClosed) && isDestManuallyClosed == old(isDestManuallyClosed)
    {
      selectedFlight := None;
      flightDetails := None;
    }
  }
}
