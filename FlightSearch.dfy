/**
 * The pure derivations of FlightSearchScreen: the destination filter applied
 * to a response, the suggestion lists, the visibility and validity
 * predicates, and the calls a valid submission makes.
 */
module FlightSearch {
  import opened Options
  import opened AsciiText
  import opened Seqs
  import opened FlightData
  import Utf16

  /** Kotlin length (UTF-16 code units) an airport code must have for a search, and for destination filtering. */
  const CodeLength: nat := 3

  /** Fewest typed code units for which a suggestion menu may open. */
  const MinSuggestionLength: nat := 2

  // ---- Destination filtering ----

  /** `it.arrival?.airport?.iata.equals(destination, true)`: a missing code never matches. */
  predicate ArrivesAt(flight: FlightItem, destination: string) {
    ArrivalIata(flight).Some? && EqualsIgnoreCase(ArrivalIata(flight).value, destination)
  }

  /** `flights.filter { it.arrival?.airport?.iata.equals(destination, true) }` */
  function FilterByDestination(flights: seq<FlightItem>, destination: string): (r: seq<FlightItem>)
    ensures |r| <= |flights|
    ensures forall f :: f in r ==> f in flights && ArrivesAt(f, destination)
  {
    Filter(flights, f => ArrivesAt(f, destination))
  }

  /** The list shown after a successful fetch: absent departures are none; a 3-letter destination filters. */
  function Results(response: FlightResponse, destination: string): (r: seq<FlightItem>)
    ensures |r| <= |response.departures.GetOr([])|
    ensures forall f :: f in r ==> f in response.departures.GetOr([])
  {
    var all := response.departures.GetOr([]);
    if Utf16.Length(destination) == CodeLength then FilterByDestination(all, destination) else all
  }

  /** With a destination whose Kotlin length is not 3 the departures pass through exactly. */
  lemma ResultsUnfiltered(response: FlightResponse, destination: string)
    requires Utf16.Length(destination) != CodeLength
    ensures Results(response, destination) == response.departures.GetOr([])
  {
  }

  /**
   * With a destination of Kotlin length 3 the results are exactly the
   * departures arriving there (ignoring case), in response order and as many
   * times as the response lists them; every one of them has an arrival, an
   * airport and an IATA code.
   */
  lemma ResultsFiltered(response: FlightResponse, destination: string)
    requires Utf16.Length(destination) == CodeLength
    ensures var all, r := response.departures.GetOr([]), Results(response, destination);
      && (forall f :: f in r <==> f in all && ArrivesAt(f, destination))
      && IsSubsequence(r, all)
      && (forall f :: multiset(r)[f] == if ArrivesAt(f, destination) then multiset(all)[f] else 0)
      && (forall f :: f in r ==> ArrivalIata(f).Some? && EqualsIgnoreCase(ArrivalIata(f).value, destination))
  {
    var all := response.departures.GetOr([]);
    forall f ensures f in Results(response, destination) <==> f in all && ArrivesAt(f, destination) {
      FilterKeeps(all, g => ArrivesAt(g, destination), f);
    }
    FilterIsSubsequence(all, g => ArrivesAt(g, destination));
    FilterCount(all, g => ArrivesAt(g, destination));
  }

  /** The filter distributes over the response: the results of two pages are the results of each, in order. */
  lemma ResultsAppend(a: seq<FlightItem>, b: seq<FlightItem>, destination: string)
    ensures Results(FlightResponse(Some(a + b)), destination)
         == Results(FlightResponse(Some(a)), destination) + Results(FlightResponse(Some(b)), destination)
  {
    if Utf16.Length(destination) == CodeLength {
      FilterAppend(a, b, g => ArrivesAt(g, destination));
    }
  }

  /** The case of the destination typed does not change the results. */
  lemma ResultsIgnoreDestinationCase(response: FlightResponse, destination: string)
    ensures Results(response, Upper(destination)) == Results(response, destination)
  {
    var all := response.departures.GetOr([]);
    UpperKeepsLength(destination);
    forall f ensures ArrivesAt(f, Upper(destination)) == ArrivesAt(f, destination) {
      if ArrivalIata(f).Some? {
        var code := ArrivalIata(f).value;
        EqualsIgnoreCaseIsUpperEquality(code, Upper(destination));
        EqualsIgnoreCaseIsUpperEquality(code, destination);
        UpperIdempotent(destination);
      }
    }
    FilterCongruent(all, g => ArrivesAt(g, Upper(destination)), g => ArrivesAt(g, destination));
  }

  /** The worked example: a blank destination keeps both flights, "LAX" (in either case) keeps only AA1. */
  lemma ResultsExample()
    ensures var aa1 := FlightItem(Some("AA1"), None, None, None,
                                  Some(ArrivalInfo(None, Some(AirportShortInfo(Some("LAX"), None)))));
            var aa2 := FlightItem(Some("AA2"), None, None, None,
                                  Some(ArrivalInfo(None, Some(AirportShortInfo(Some("BOS"), None)))));
            var response := FlightResponse(Some([aa1, aa2]));
            Results(response, "") == [aa1, aa2] && Results(response, "LAX") == [aa1] && Results(response, "lax") == [aa1]
  {
    var aa1 := FlightItem(Some("AA1"), None, None, None,
                          Some(ArrivalInfo(None, Some(AirportShortInfo(Some("LAX"), None)))));
    var aa2 := FlightItem(Some("AA2"), None, None, None,
                          Some(ArrivalInfo(None, Some(AirportShortInfo(Some("BOS"), None)))));
    assert Utf16.Length("LAX") == 3 by { assert "LAX"[1..] == "AX" && "AX"[1..] == "X" && "X"[1..] == ""; }
    assert Utf16.Length("lax") == 3 by { assert "lax"[1..] == "ax" && "ax"[1..] == "x" && "x"[1..] == ""; }
    assert ArrivesAt(aa1, "lax") && ArrivesAt(aa1, "LAX");
    assert !ArrivesAt(aa2, "lax") by { assert UpperChar("BOS"[0]) != UpperChar("lax"[0]); }
    assert !ArrivesAt(aa2, "LAX") by { assert UpperChar("BOS"[0]) != UpperChar("LAX"[0]); }
    assert [aa1, aa2][1..] == [aa2];
  }

  // ---- Suggestions and menus ----

  /** `history.filter { it.startsWith(text, true) }`, in the history's iteration order. */
  function Suggestions(history: seq<string>, text: string): (r: seq<string>)
    ensures |r| <= |history|
    ensures forall h :: h in r ==> h in history && StartsWithIgnoreCase(h, text)
  {
    Filter(history, h => StartsWithIgnoreCase(h, text))
  }

  /** The menu opens only for text of Kotlin length 2 or more, with something to offer, not dismissed since the last edit. */
  predicate ShowMenu(text: string, suggestions: seq<string>, manuallyClosed: bool) {
    Utf16.Length(text) >= MinSuggestionLength && |suggestions| > 0 && !manuallyClosed
  }

  /** The suggestions are exactly the history entries that start with the text ignoring case, in history order, without repeats. */
  lemma SuggestionsAreMatchingHistory(history: seq<string>, text: string)
    ensures forall h :: h in Suggestions(history, text) <==> h in history && StartsWithIgnoreCase(h, text)
    ensures IsSubsequence(Suggestions(history, text), history)
    ensures NoDuplicates(history) ==> NoDuplicates(Suggestions(history, text))
  {
    forall h ensures h in Suggestions(history, text) <==> h in history && StartsWithIgnoreCase(h, text) {
      FilterKeeps(history, g => StartsWithIgnoreCase(g, text), h);
    }
    FilterIsSubsequence(history, g => StartsWithIgnoreCase(g, text));
    if NoDuplicates(history) {
      FilterNoDuplicates(history, g => StartsWithIgnoreCase(g, text));
    }
  }

  /** The menu is shown iff the text has Kotlin length at least 2, some history entry matches it, and it was not dismissed. */
  lemma ShowMenuIff(history: seq<string>, text: string, manuallyClosed: bool)
    ensures ShowMenu(text, Suggestions(history, text), manuallyClosed)
        <==> Utf16.Length(text) >= MinSuggestionLength && !manuallyClosed
             && exists h :: h in history && StartsWithIgnoreCase(h, text)
  {
    SuggestionsAreMatchingHistory(history, text);
    var s := Suggestions(history, text);
    if |s| > 0 {
      assert s[0] in s;
    }
  }

  /** Storing typed text upper-cased does not change what it suggests. */
  lemma SuggestionsIgnoreTextCase(history: seq<string>, text: string)
    ensures Suggestions(history, Upper(text)) == Suggestions(history, text)
  {
    forall h ensures StartsWithIgnoreCase(h, Upper(text)) == StartsWithIgnoreCase(h, text) {
      StartsWithUpper(h, text);
    }
    FilterCongruent(history, g => StartsWithIgnoreCase(g, Upper(text)), g => StartsWithIgnoreCase(g, text));
  }

  /** One character never opens a menu, "JF" offers both "JFK" and "JFK2". */
  lemma SuggestionsExample()
    ensures !ShowMenu("J", Suggestions(["JFK"], "J"), false)
    ensures Suggestions(["JFK", "JFK2"], "JF") == ["JFK", "JFK2"]
    ensures Suggestions(["JFK", "JFK2"], "jf") == ["JFK", "JFK2"]
  {
    Utf16.LengthExample();
    assert StartsWithIgnoreCase("JFK", "JF") && StartsWithIgnoreCase("JFK2", "JF");
    assert StartsWithIgnoreCase("JFK", "jf") && StartsWithIgnoreCase("JFK2", "jf");
    assert ["JFK", "JFK2"][1..] == ["JFK2"];
  }

  // ---- Validity ----

  /** The Search button is enabled, and a click searches, only for an origin of Kotlin length 3. */
  predicate SearchEnabled(origin: string) {
    Utf16.Length(origin) == CodeLength
  }

  /** "Must be 3 letters" is shown under a non-empty origin of any other length. */
  predicate ShowLengthHint(origin: string) {
    origin != [] && Utf16.Length(origin) != CodeLength
  }

  /** The hint and the button use the same length test: a non-empty origin shows the hint iff it cannot be searched. */
  lemma HintMatchesButton(origin: string)
    ensures origin != [] ==> (ShowLengthHint(origin) <==> !SearchEnabled(origin))
    ensures SearchEnabled(origin) ==> !ShowLengthHint(origin)
  {
  }

  /**
   * The length test counts UTF-16 code units: "A" followed by an emoji has
   * two characters but Kotlin length 3, so it can be searched and shows no hint.
   */
  lemma LengthTestCountsCodeUnits()
    ensures SearchEnabled("A\U{1F600}") && !ShowLengthHint("A\U{1F600}")
    ensures SearchEnabled("JFK") && ShowLengthHint("J")
  {
    Utf16.LengthExample();
  }

  // ---- Calls made by a submission ----

  /** The history saves and the flight data request a search makes, in the order it makes them. */
  datatype Effect =
    | SaveOrigin(code: string)
    | SaveDestination(code: string)
    | FetchDepartures(origin: string, direction: string, withLocation: bool, withAircraftImage: bool)

  /** The request's fixed query parameters. */
  const Direction: string := "Departure"

  /** `saveOrigin` if the origin is non-empty, `saveDestination` if the destination is, then the fetch. */
  function SubmitEffects(origin: string, destination: string): (effects: seq<Effect>)
    ensures |effects| >= 1 && effects[|effects| - 1] == FetchDepartures(origin, Direction, true, false)
  {
    (if origin != [] then [SaveOrigin(origin)] else [])
    + (if destination != [] then [SaveDestination(destination)] else [])
    + [FetchDepartures(origin, Direction, true, false)]
  }

  /**
   * A searchable submission saves its origin first and only there, saves
   * its own destination at most once and iff it is non-empty, saves nothing
   * empty and no other code, and ends with exactly one fetch for its origin.
   */
  lemma SubmitEffectsSaveNonEmpty(origin: string, destination: string)
    requires SearchEnabled(origin)
    ensures var e := SubmitEffects(origin, destination);
      && e[0] == SaveOrigin(origin)
      && (forall i :: 0 < i < |e| ==> !e[i].SaveOrigin?)
      && (SaveDestination(destination) in e <==> destination != [])
      && (forall x :: x in e && x.SaveDestination? ==> x == SaveDestination(destination))
      && (forall i, j :: 0 <= i < j < |e| && e[i].SaveDestination? ==> !e[j].SaveDestination?)
      && (forall x :: x in e && (x.SaveOrigin? || x.SaveDestination?) ==> x.code != [])
      && (forall i :: 0 <= i < |e| - 1 ==> !e[i].FetchDepartures?)
  {
    Utf16.LengthBounds(origin);
  }
}
