/** The two tools the assistant's agent may call: a destination search that
    lists the matching locations with their IDs, and a cost calculation that
    returns the gateway's quote summary. Each tool runs the gateway call, turns
    its answer into text, and turns any exception that escapes the gateway into
    an error sentence instead of letting it reach the agent. */
module ShippingTools {
  import opened Text
  import opened Numerals
  import opened RajaOngkirApi

  // ---------------------------------------------------------------------
  // The tool set
  // ---------------------------------------------------------------------

  datatype Tool = SearchDestinationTool | CalculateShippingTool

  /** The name the agent calls a tool by; each name picks out one tool. */
  function ToolName(tool: Tool): (name: string)
    ensures name == "search_destination" <==> tool == SearchDestinationTool
    ensures name == "calculate_shipping_cost" <==> tool == CalculateShippingTool
  {
    match tool
    case SearchDestinationTool => "search_destination"
    case CalculateShippingTool => "calculate_shipping_cost"
  }

  /** `create_shipping_tools`: the search tool, then the calculation tool. */
  function CreateShippingTools(): (tools: seq<Tool>)
    ensures |tools| == 2 && tools[0] == SearchDestinationTool && tools[1] == CalculateShippingTool
    ensures ToolName(tools[0]) == "search_destination" && ToolName(tools[1]) == "calculate_shipping_cost"
    ensures ToolName(tools[0]) != ToolName(tools[1])
  {
    [SearchDestinationTool, CalculateShippingTool]
  }

  // ---------------------------------------------------------------------
  // search_destination
  // ---------------------------------------------------------------------

  const SearchToolError := "Error searching for location: "

  function NoLocationsMessage(keyword: string): string {
    "No locations found for '" + keyword
      + "'. Please try a different spelling or use a more general term (e.g., city name instead of specific address)."
  }

  function FoundHeader(keyword: string, count: nat): string {
    "Found " + IntText(count) + ForKeyword(keyword)
  }

  function ForKeyword(keyword: string): string {
    " location(s) for '" + keyword + "':\n\n"
  }

  /** The first line of entry `number`: its number, the location ID and the
      display name. */
  function IdLine(number: int, location: LocationOption): string {
    IntText(number) + ". ID: " + IntText(location.id) + " - " + location.displayName + "\n"
  }

  function AreaLine(location: LocationOption): string {
    location.subdistrict + ", " + location.district + ", " + location.city + ", " + location.province + "\n"
  }

  function ZipLine(location: LocationOption): string {
    "ZIP: " + location.zipCode + "\n\n"
  }

  /** The three lines the tool writes for one location. */
  function Entry(number: int, location: LocationOption): string {
    IdLine(number, location) + AreaLine(location) + ZipLine(location)
  }

  /** One entry per location, numbered from 1 in list order. */
  function Entries(locations: seq<LocationOption>): seq<string> {
    seq(|locations|, k requires 0 <= k < |locations| => Entry(k + 1, locations[k]))
  }

  /** What the tool says about a list of location options. */
  function LocationsText(keyword: string, locations: seq<LocationOption>): string {
    if |locations| == 0 then NoLocationsMessage(keyword)
    else FoundHeader(keyword, |locations|) + Concat(Entries(locations))
  }

  /** What the search tool answers, by how the gateway call went: an escaped
      exception becomes an error sentence, a transport failure (which the
      gateway reports as an error payload) finds nothing, and a delivered answer
      is listed. */
  function SearchToolText(keyword: string, exchange: Exchange<SearchResponse>): string {
    match exchange
    case Raised(reason) => SearchToolError + reason
    case RequestFailed(_) => NoLocationsMessage(keyword)
    case Delivered(body) => LocationsText(keyword, LocationOptions(body))
  }

  /** `SearchDestinationTool._run`: search, extract the options, and build the
      listing one location at a time. */
  method SearchDestinationToolRun(keyword: string, exchange: Exchange<SearchResponse>)
    returns (request: Request, response: string)
    ensures request == Request(SearchPath, [(Keyword, TextParam(keyword))])
    ensures response == SearchToolText(keyword, exchange)
  {
    var outcome;
    request, outcome := SearchDestination(keyword, exchange);
    if outcome.Threw? {
      return request, SearchToolError + outcome.error;
    }
    var locations := FormatLocationOptions(outcome.value);
    SearchToolTextOfAnswer(keyword, exchange, outcome.value);
    if |locations| == 0 {
      return request, NoLocationsMessage(keyword);
    }
    response := FoundHeader(keyword, |locations|);
    ghost var entries := Entries(locations);
    var i := 0;
    while i < |locations|
      invariant 0 <= i <= |locations|
      invariant response == FoundHeader(keyword, |locations|) + Concat(entries[..i])
    {
      var location := locations[i];
      response := response + IdLine(i + 1, location);
      response := response + AreaLine(location);
      response := response + ZipLine(location);
      EntryAt(locations, i);
      AppendNextBlockOfThree(FoundHeader(keyword, |locations|), entries, i,
                             IdLine(i + 1, location), AreaLine(location), ZipLine(location));
      i := i + 1;
    }
    assert entries[..|locations|] == entries;
  }

  /** Once the gateway has returned an answer, the tool's text is the listing
      of that answer's options. */
  lemma SearchToolTextOfAnswer(keyword: string, exchange: Exchange<SearchResponse>, answer: SearchResponse)
    requires exchange.Delivered? ==> answer == exchange.body
    requires exchange.RequestFailed? ==> !Succeeded(answer.meta)
    requires !exchange.Raised?
    ensures SearchToolText(keyword, exchange) == LocationsText(keyword, LocationOptions(answer))
  {
  }

  /** The listing is told apart from the other two answers by the way it
      starts: it opens with "Found " exactly when a delivered answer yielded at
      least one location; the other answers open with "No locations" or with
      the error prefix. */
  lemma SearchToolListsIffFound(keyword: string, exchange: Exchange<SearchResponse>)
    ensures StartsWith(SearchToolText(keyword, exchange), "Found ") <==>
      exchange.Delivered? && LocationOptions(exchange.body) != []
  {
    var text := SearchToolText(keyword, exchange);
    if exchange.Delivered? && LocationOptions(exchange.body) != [] {
      ListingStartsWithFound(keyword, LocationOptions(exchange.body));
    } else {
      assert text[0] != 'F' by {
        match exchange
        case Raised(reason) =>
          assert text == SearchToolError + reason;
        case RequestFailed(_) =>
          assert text == NoLocationsMessage(keyword);
        case Delivered(body) =>
          assert text == NoLocationsMessage(keyword);
      }
      FirstLetterRulesOut(text, "Found ");
    }
  }

  /** A text whose first letter differs from a word's does not start with it. */
  lemma FirstLetterRulesOut(t: string, w: string)
    requires |t| > 0 && |w| > 0 && t[0] != w[0]
    ensures !StartsWith(t, w)
  {
  }

  lemma NoLocationsIsNotFound(keyword: string)
    ensures !StartsWith(NoLocationsMessage(keyword), "Found ")
  {
    FirstLetterRulesOut(NoLocationsMessage(keyword), "Found ");
  }

  lemma ListingStartsWithFound(keyword: string, locations: seq<LocationOption>)
    requires |locations| > 0
    ensures StartsWith(LocationsText(keyword, locations), "Found ")
  {
    ListingPieces(keyword, locations);
    PiecesOfThree("Found ", IntText(|locations|), ForKeyword(keyword) + Concat(Entries(locations)));
  }

  /** The listing cut into the word "Found ", the count, and the rest. */
  lemma ListingPieces(keyword: string, locations: seq<LocationOption>)
    requires |locations| > 0
    ensures LocationsText(keyword, locations)
      == "Found " + IntText(|locations|) + (ForKeyword(keyword) + Concat(Entries(locations)))
  {
    ListingShape(keyword, locations);
    AppendAssociates("Found " + IntText(|locations|), ForKeyword(keyword), Concat(Entries(locations)));
  }

  /** Entry `j` is the one for location `j`, numbered `j + 1`. */
  lemma EntryAt(locations: seq<LocationOption>, j: nat)
    requires j < |locations|
    ensures |Entries(locations)| == |locations| && Entries(locations)[j] == Entry(j + 1, locations[j])
  {
  }

  /** A non-empty listing is the header followed by one entry per location, in
      list order, numbered from 1. */
  lemma ListingShape(keyword: string, locations: seq<LocationOption>)
    requires |locations| > 0
    ensures LocationsText(keyword, locations) == FoundHeader(keyword, |locations|) + Concat(Entries(locations))
    ensures |Entries(locations)| == |locations|
    ensures forall j :: 0 <= j < |locations| ==> Entries(locations)[j] == Entry(j + 1, locations[j])
  {
  }

  /** The number that opens an entry reads back as that entry's position. */
  lemma EntryNumberReadsBack(number: nat, location: LocationOption)
    requires 1 <= number
    ensures var digits := DecimalDigits(number);
      && StartsWith(Entry(number, location), digits + ". ID: ")
      && AllDigits(digits) && DigitsValue(digits) == number
  {
    var digits := DecimalDigits(number);
    var rest := IntText(location.id) + " - " + location.displayName + "\n";
    assert IdLine(number, location) == digits + ". ID: " + rest;
    assert Entry(number, location) == (digits + ". ID: ") + rest + (AreaLine(location) + ZipLine(location));
    PiecesOfThree(digits + ". ID: ", rest, AreaLine(location) + ZipLine(location));
    DigitsRoundTrip(number);
  }

  /** The count in the header reads back as the number of locations listed. */
  lemma HeaderCountReadsBack(keyword: string, locations: seq<LocationOption>)
    requires |locations| > 0
    ensures var digits := DecimalDigits(|locations|);
      && StartsAt(LocationsText(keyword, locations), 6, digits)
      && AllDigits(digits) && DigitsValue(digits) == |Entries(locations)|
  {
    ListingPieces(keyword, locations);
    PiecesOfThree("Found ", IntText(|locations|), ForKeyword(keyword) + Concat(Entries(locations)));
    DigitsRoundTrip(|locations|);
  }

  // ---------------------------------------------------------------------
  // calculate_shipping_cost
  // ---------------------------------------------------------------------

  const CalculateToolError := "Error calculating shipping cost: "

  /** Python's `int()` on a float: truncation toward zero. */
  function Truncate(x: real): int {
    if x >= 0.0 then x.Floor else -((-x).Floor)
  }

  /** `int()` drops the fraction and keeps the sign, and leaves whole numbers
      as they are. */
  lemma TruncateTowardZero(x: real)
    ensures 0.0 <= x ==> 0 <= Truncate(x) && Truncate(x) as real <= x < Truncate(x) as real + 1.0
    ensures x < 0.0 ==> Truncate(x) <= 0 && Truncate(x) as real - 1.0 < x <= Truncate(x) as real
    ensures x == x.Floor as real ==> Truncate(x) == x.Floor
  {
  }

  /** What the calculation tool answers, by how the gateway call went. A
      transport failure reaches the formatter as an error payload and so
      carries the formatter's "Error: " in front of the gateway's own sentence;
      an escaped exception is reported by the tool itself. */
  function CalculateToolText(exchange: Exchange<RateResponse>): string {
    match exchange
    case Raised(reason) => CalculateToolError + reason
    case RequestFailed(reason) => "Error: " + CalculateErrorPrefix + reason
    case Delivered(body) => ShippingText(body)
  }

  /** `CalculateShippingTool._run`: coerce the arguments with `int()`, ask the
      gateway, and format whatever it returned. */
  method CalculateShippingToolRun(
    shipperDestinationId: int, receiverDestinationId: int, weight: real, itemValue: real,
    exchange: Exchange<RateResponse>,
    cod: bool := false, originPinPoint: Option<string> := None, destinationPinPoint: Option<string> := None)
    returns (request: Request, response: string)
    ensures request == Request(CalculatePath, CalculateQuery(shipperDestinationId, receiverDestinationId,
                                                             Truncate(weight), Truncate(itemValue),
                                                             cod, originPinPoint, destinationPinPoint))
    ensures response == CalculateToolText(exchange)
  {
    var outcome;
    request, outcome := CalculateShippingCost(shipperDestinationId, receiverDestinationId,
                                              Truncate(weight), Truncate(itemValue), exchange,
                                              cod, originPinPoint, destinationPinPoint);
    if outcome.Threw? {
      return request, CalculateToolError + outcome.error;
    }
    response := FormatShippingResults(outcome.value);
    if exchange.RequestFailed? {
      NonSuccessRendersError(outcome.value);
    }
  }

  /** The sentence a transport failure produces is the one an escaped
      exception with the same reason produces, behind "Error: ": the tool and
      the gateway use the same wording. Neither is a quote summary. */
  lemma CalculateToolFailures(reason: string)
    ensures CalculateToolText(RequestFailed(reason)) == "Error: " + CalculateToolText(Raised(reason))
    ensures !StartsWith(CalculateToolText(RequestFailed(reason)), ShippingHeader)
    ensures !StartsWith(CalculateToolText(Raised(reason)), ShippingHeader)
  {
    var raised := CalculateToolError + reason;
    AppendAssociates("Error: ", CalculateToolError, reason);
    FirstLetterRulesOut(raised, ShippingHeader);
    FirstLetterRulesOut("Error: " + raised, ShippingHeader);
  }

  /** The gateway receives the truncated weight and item value, and exactly the
      whole number when the agent already passed one. */
  lemma CalculateToolSendsWholeNumbers(
    shipper: int, receiver: int, weight: real, itemValue: real,
    cod: bool, originPinPoint: Option<string>, destinationPinPoint: Option<string>)
    ensures var q := CalculateQuery(shipper, receiver, Truncate(weight), Truncate(itemValue),
                                    cod, originPinPoint, destinationPinPoint);
      && Lookup(q, Weight) == Some(IntParam(Truncate(weight)))
      && Lookup(q, ItemValue) == Some(IntParam(Truncate(itemValue)))
    ensures weight == weight.Floor as real ==> Truncate(weight) == weight.Floor
    ensures 0.0 <= weight ==> 0 <= Truncate(weight) && Truncate(weight) as real <= weight
  {
    CalculateQueryValues(shipper, receiver, Truncate(weight), Truncate(itemValue),
                         cod, originPinPoint, destinationPinPoint);
    TruncateTowardZero(weight);
  }
}
