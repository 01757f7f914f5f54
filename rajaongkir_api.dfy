/** The pricing gateway: the two rate-service calls with their uniform failure
    contract, and the two formatters that turn the service's JSON payloads into
    location options and a readable quote summary. The HTTP exchange itself is
    an input: the model sees only what the service answered, or how the call
    failed. */
module RajaOngkirApi {
  import opened Text
  import opened Numerals

  // ---------------------------------------------------------------------
  // Payload shapes. A JSON key that may be absent is an Option; absence and
  // the empty list are told apart because `dict.get` tells them apart.
  // ---------------------------------------------------------------------

  datatype Meta = Meta(status: Option<string>, code: Option<int>, message: Option<string>)

  /** One entry of a destination-search answer. */
  datatype LocationItem = LocationItem(
    id: int, labelText: string, subdistrictName: string, districtName: string,
    cityName: string, provinceName: string, zipCode: string)

  datatype SearchResponse = SearchResponse(meta: Option<Meta>, data: Option<seq<LocationItem>>)

  /** A location as offered to the user, with the gateway's own field names. */
  datatype LocationOption = LocationOption(
    id: int, displayName: string, subdistrict: string, district: string,
    city: string, province: string, zipCode: string)

  /** One quote of a rate answer; costs are integers. */
  datatype RateOption = RateOption(
    shippingName: string, serviceName: string, shippingCost: int,
    shippingCostNet: int, grandtotal: int, isCod: bool, etd: string)

  /** The `data` object of a rate answer: three independent tiers. */
  datatype RateData = RateData(
    calculateReguler: Option<seq<RateOption>>,
    calculateCargo: Option<seq<RateOption>>,
    calculateInstant: Option<seq<RateOption>>)

  datatype RateResponse = RateResponse(meta: Option<Meta>, data: Option<RateData>)

  datatype Tier = Regular | Cargo | Instant

  // ---------------------------------------------------------------------
  // Requests and the HTTP exchange
  // ---------------------------------------------------------------------

  datatype Param = IntParam(i: int) | BoolParam(b: bool) | TextParam(s: string)

  /** The query-string parameter names the gateway sends. */
  datatype ParamName =
    | Keyword | ShipperDestinationId | ReceiverDestinationId | Weight | ItemValue | Cod
    | OriginPinPoint | DestinationPinPoint

  /** The name as it appears on the wire. */
  function WireName(name: ParamName): string {
    match name
    case Keyword => "keyword"
    case ShipperDestinationId => "shipper_destination_id"
    case ReceiverDestinationId => "receiver_destination_id"
    case Weight => "weight"
    case ItemValue => "item_value"
    case Cod => "cod"
    case OriginPinPoint => "origin_pin_point"
    case DestinationPinPoint => "destination_pin_point"
  }

  /** Different parameters never share a wire name, so a query keyed by
      `ParamName` is the dict the source builds. */
  lemma WireNamesDistinct(a: ParamName, b: ParamName)
    requires a != b
    ensures WireName(a) != WireName(b)
  {
    assert |WireName(a)| != |WireName(b)|;
  }

  /** Query-string parameters in insertion order, as a Python dict keeps them. */
  type Query = seq<(ParamName, Param)>

  /** The request a gateway call sends: the path below the base URL and the
      query parameters. */
  datatype Request = Request(path: string, params: Query)

  /** What happened to one HTTP call. `RequestFailed` is any failure of the
      `requests` library (connection error, bad HTTP status); `Raised` is any
      other exception, which the gateway does not catch. */
  datatype Exchange<T> = Delivered(body: T) | RequestFailed(reason: string) | Raised(reason: string)

  /** A gateway call either returns a payload or lets an exception escape. */
  datatype Outcome<T> = Returned(value: T) | Threw(error: string)

  const SearchPath := "/tariff/api/v1/destination/search"
  const CalculatePath := "/tariff/api/v1/calculate"
  const SearchErrorPrefix := "Error searching destination: "
  const CalculateErrorPrefix := "Error calculating shipping cost: "

  function Keys(q: Query): (ks: seq<ParamName>)
    ensures |ks| == |q|
  {
    seq(|q|, i requires 0 <= i < |q| => q[i].0)
  }

  /** The value of the first entry with key `key`, as dict lookup gives it. */
  function Lookup(q: Query, key: ParamName): (v: Option<Param>)
    ensures v.None? <==> key !in Keys(q)
  {
    if |q| == 0 then None
    else if q[0].0 == key then (assert Keys(q)[0] == key; Some(q[0].1))
    else (assert Keys(q) == [q[0].0] + Keys(q[1..]); Lookup(q[1..], key))
  }

  lemma {:induction false} LookupAppend(a: Query, b: Query, key: ParamName)
    ensures Lookup(a + b, key) == if key in Keys(a) then Lookup(a, key) else Lookup(b, key)
    decreases |a|
  {
    if |a| == 0 {
      assert a + b == b;
    } else {
      assert Keys(a) == [a[0].0] + Keys(a[1..]);
      assert (a + b)[0] == a[0] && (a + b)[1..] == a[1..] + b;
      LookupAppend(a[1..], b, key);
    }
  }

  /** Python truthiness of an optional string: present and non-empty. */
  predicate Truthy(pin: Option<string>) { pin.Some? && pin.value != "" }

  /** `search_destination`: one GET with the keyword; a library failure becomes
      an error payload with an empty location list. */
  method SearchDestination(keyword: string, exchange: Exchange<SearchResponse>)
    returns (request: Request, outcome: Outcome<SearchResponse>)
    ensures request == Request(SearchPath, [(Keyword, TextParam(keyword))])
    ensures exchange.Delivered? ==> outcome == Returned(exchange.body)
    ensures exchange.RequestFailed? ==>
      outcome.Returned? &&
      outcome.value.meta == Some(Meta(Some("error"), Some(500), Some(SearchErrorPrefix + exchange.reason))) &&
      outcome.value.data == Some([])
    ensures exchange.Raised? ==> outcome == Threw(exchange.reason)
  {
    var params: Query := [(Keyword, TextParam(keyword))];
    request := Request(SearchPath, params);
    match exchange {
      case Delivered(body) =>
        outcome := Returned(body);
      case RequestFailed(reason) =>
        var meta := Meta(Some("error"), Some(500), Some(SearchErrorPrefix + reason));
        outcome := Returned(SearchResponse(Some(meta), Some([])));
      case Raised(reason) =>
        outcome := Threw(reason);
    }
  }

  /** The five parameters every rate request carries, in insertion order. */
  function FixedParams(shipperDestinationId: int, receiverDestinationId: int, weight: int,
                       itemValue: int, cod: bool): Query
  {
    [(ShipperDestinationId, IntParam(shipperDestinationId)),
     (ReceiverDestinationId, IntParam(receiverDestinationId)),
     (Weight, IntParam(weight)),
     (ItemValue, IntParam(itemValue)),
     (Cod, BoolParam(cod))]
  }

  /** An optional pin point: sent only when truthy. */
  function PinParam(name: ParamName, pin: Option<string>): Query {
    if Truthy(pin) then [(name, TextParam(pin.value))] else []
  }

  /** The parameters of a rate request: the five fixed ones, then each pin
      point that is truthy. */
  function CalculateQuery(
    shipperDestinationId: int, receiverDestinationId: int, weight: int, itemValue: int,
    cod: bool, originPinPoint: Option<string>, destinationPinPoint: Option<string>): Query
  {
    FixedParams(shipperDestinationId, receiverDestinationId, weight, itemValue, cod)
    + PinParam(OriginPinPoint, originPinPoint)
    + PinParam(DestinationPinPoint, destinationPinPoint)
  }

  lemma KeysAppend(a: Query, b: Query)
    ensures Keys(a + b) == Keys(a) + Keys(b)
  {
  }

  /** The keys of a rate request: the five fixed keys in order, then the
      origin pin point and the destination pin point, each exactly when it is
      truthy. */
  lemma CalculateQueryKeys(
    shipper: int, receiver: int, weight: int, itemValue: int,
    cod: bool, originPinPoint: Option<string>, destinationPinPoint: Option<string>)
    ensures Keys(CalculateQuery(shipper, receiver, weight, itemValue, cod, originPinPoint, destinationPinPoint))
      == [ShipperDestinationId, ReceiverDestinationId, Weight, ItemValue, Cod]
         + (if Truthy(originPinPoint) then [OriginPinPoint] else [])
         + (if Truthy(destinationPinPoint) then [DestinationPinPoint] else [])
  {
    var f := FixedParams(shipper, receiver, weight, itemValue, cod);
    var o, d := PinParam(OriginPinPoint, originPinPoint), PinParam(DestinationPinPoint, destinationPinPoint);
    KeysAppend(f + o, d);
    KeysAppend(f, o);
  }

  /** Each pin point is a key of the request exactly when it is truthy. */
  lemma PinPointSentIffTruthy(
    shipper: int, receiver: int, weight: int, itemValue: int,
    cod: bool, originPinPoint: Option<string>, destinationPinPoint: Option<string>)
    ensures var q := CalculateQuery(shipper, receiver, weight, itemValue, cod, originPinPoint, destinationPinPoint);
      && (OriginPinPoint in Keys(q) <==> Truthy(originPinPoint))
      && (DestinationPinPoint in Keys(q) <==> Truthy(destinationPinPoint))
      && |q| == 5 + (if Truthy(originPinPoint) then 1 else 0) + (if Truthy(destinationPinPoint) then 1 else 0)
  {
    CalculateQueryKeys(shipper, receiver, weight, itemValue, cod, originPinPoint, destinationPinPoint);
  }

  /** A lookup in a query that starts with a given entry. */
  lemma LookupCons(entry: (ParamName, Param), rest: Query, key: ParamName)
    ensures Lookup([entry] + rest, key) == if entry.0 == key then Some(entry.1) else Lookup(rest, key)
  {
    assert ([entry] + rest)[1..] == rest;
  }

  /** Each fixed key carries the value it was given, whatever follows. */
  lemma FixedParamValues(shipper: int, receiver: int, weight: int, itemValue: int, cod: bool, rest: Query)
    ensures var q := FixedParams(shipper, receiver, weight, itemValue, cod) + rest;
      && Lookup(q, ShipperDestinationId) == Some(IntParam(shipper))
      && Lookup(q, ReceiverDestinationId) == Some(IntParam(receiver))
      && Lookup(q, Weight) == Some(IntParam(weight))
      && Lookup(q, ItemValue) == Some(IntParam(itemValue))
      && Lookup(q, Cod) == Some(BoolParam(cod))
  {
    var e0, e1, e2 := (ShipperDestinationId, IntParam(shipper)), (ReceiverDestinationId, IntParam(receiver)),
                      (Weight, IntParam(weight));
    var e3, e4 := (ItemValue, IntParam(itemValue)), (Cod, BoolParam(cod));
    var q4 := [e4] + rest;
    var q3 := [e3] + q4;
    var q2 := [e2] + q3;
    var q1 := [e1] + q2;
    var q0 := [e0] + q1;
    assert FixedParams(shipper, receiver, weight, itemValue, cod) + rest == q0;
    LookupCons(e0, q1, ShipperDestinationId);
    LookupCons(e0, q1, ReceiverDestinationId);
    LookupCons(e1, q2, ReceiverDestinationId);
    LookupCons(e0, q1, Weight);
    LookupCons(e1, q2, Weight);
    LookupCons(e2, q3, Weight);
    LookupCons(e0, q1, ItemValue);
    LookupCons(e1, q2, ItemValue);
    LookupCons(e2, q3, ItemValue);
    LookupCons(e3, q4, ItemValue);
    LookupCons(e0, q1, Cod);
    LookupCons(e1, q2, Cod);
    LookupCons(e2, q3, Cod);
    LookupCons(e3, q4, Cod);
    LookupCons(e4, rest, Cod);
  }

  lemma FixedKeys(shipper: int, receiver: int, weight: int, itemValue: int, cod: bool)
    ensures Keys(FixedParams(shipper, receiver, weight, itemValue, cod))
      == [ShipperDestinationId, ReceiverDestinationId, Weight, ItemValue, Cod]
  {
  }

  /** The rate request carries each value it was given under its own key. */
  lemma CalculateQueryValues(
    shipper: int, receiver: int, weight: int, itemValue: int,
    cod: bool, originPinPoint: Option<string>, destinationPinPoint: Option<string>)
    ensures var q := CalculateQuery(shipper, receiver, weight, itemValue, cod, originPinPoint, destinationPinPoint);
      && Lookup(q, ShipperDestinationId) == Some(IntParam(shipper))
      && Lookup(q, ReceiverDestinationId) == Some(IntParam(receiver))
      && Lookup(q, Weight) == Some(IntParam(weight))
      && Lookup(q, ItemValue) == Some(IntParam(itemValue))
      && Lookup(q, Cod) == Some(BoolParam(cod))
      && (Truthy(originPinPoint) ==> Lookup(q, OriginPinPoint) == Some(TextParam(originPinPoint.value)))
      && (Truthy(destinationPinPoint) ==> Lookup(q, DestinationPinPoint) == Some(TextParam(destinationPinPoint.value)))
  {
    var f := FixedParams(shipper, receiver, weight, itemValue, cod);
    var o, d := PinParam(OriginPinPoint, originPinPoint), PinParam(DestinationPinPoint, destinationPinPoint);
    AppendAssociates(f, o, d);
    FixedParamValues(shipper, receiver, weight, itemValue, cod, o + d);
    FixedKeys(shipper, receiver, weight, itemValue, cod);
    PinParamValues(f, originPinPoint, destinationPinPoint);
  }

  /** After entries without pin points, each truthy pin point is found with
      its own text. */
  lemma PinParamValues(f: Query, originPinPoint: Option<string>, destinationPinPoint: Option<string>)
    requires OriginPinPoint !in Keys(f) && DestinationPinPoint !in Keys(f)
    ensures var q := f + PinParam(OriginPinPoint, originPinPoint) + PinParam(DestinationPinPoint, destinationPinPoint);
      && (Truthy(originPinPoint) ==> Lookup(q, OriginPinPoint) == Some(TextParam(originPinPoint.value)))
      && (Truthy(destinationPinPoint) ==> Lookup(q, DestinationPinPoint) == Some(TextParam(destinationPinPoint.value)))
  {
    var o, d := PinParam(OriginPinPoint, originPinPoint), PinParam(DestinationPinPoint, destinationPinPoint);
    AppendAssociates(f, o, d);
    LookupAppend(f, o + d, OriginPinPoint);
    LookupAppend(f, o + d, DestinationPinPoint);
    LookupAppend(o, d, OriginPinPoint);
    LookupAppend(o, d, DestinationPinPoint);
  }

  /** The `payload` dict of `calculate_shipping_cost`, built as the source
      builds it: the fixed entries, then each truthy pin point. */
  method BuildCalculatePayload(
    shipperDestinationId: int, receiverDestinationId: int, weight: int, itemValue: int,
    cod: bool, originPinPoint: Option<string>, destinationPinPoint: Option<string>)
    returns (payload: Query)
    ensures payload == CalculateQuery(shipperDestinationId, receiverDestinationId, weight, itemValue,
                                      cod, originPinPoint, destinationPinPoint)
  {
    payload := FixedParams(shipperDestinationId, receiverDestinationId, weight, itemValue, cod);
    if Truthy(originPinPoint) {
      payload := payload + [(OriginPinPoint, TextParam(originPinPoint.value))];
    }
    if Truthy(destinationPinPoint) {
      payload := payload + [(DestinationPinPoint, TextParam(destinationPinPoint.value))];
    }
  }

  /** `calculate_shipping_cost`: one GET with the built parameters; a library
      failure becomes an error payload whose `data` is the empty object. */
  method CalculateShippingCost(
    shipperDestinationId: int, receiverDestinationId: int, weight: int, itemValue: int,
    exchange: Exchange<RateResponse>,
    cod: bool := false, originPinPoint: Option<string> := None, destinationPinPoint: Option<string> := None)
    returns (request: Request, outcome: Outcome<RateResponse>)
    ensures request == Request(CalculatePath, CalculateQuery(shipperDestinationId, receiverDestinationId,
                                                             weight, itemValue, cod, originPinPoint, destinationPinPoint))
    ensures exchange.Delivered? ==> outcome == Returned(exchange.body)
    ensures exchange.RequestFailed? ==>
      outcome.Returned? &&
      outcome.value.meta == Some(Meta(Some("error"), Some(500), Some(CalculateErrorPrefix + exchange.reason))) &&
      outcome.value.data == Some(RateData(None, None, None))
    ensures exchange.Raised? ==> outcome == Threw(exchange.reason)
  {
    var payload := BuildCalculatePayload(shipperDestinationId, receiverDestinationId, weight, itemValue,
                                         cod, originPinPoint, destinationPinPoint);
    request := Request(CalculatePath, payload);
    match exchange {
      case Delivered(body) =>
        outcome := Returned(body);
      case RequestFailed(reason) =>
        var meta := Meta(Some("error"), Some(500), Some(CalculateErrorPrefix + reason));
        outcome := Returned(RateResponse(Some(meta), Some(RateData(None, None, None))));
      case Raised(reason) =>
        outcome := Threw(reason);
    }
  }

  // ---------------------------------------------------------------------
  // format_location_options
  // ---------------------------------------------------------------------

  /** `meta.status == "success"`, with a missing `meta` or `status` counting as
      anything else. */
  predicate Succeeded(meta: Option<Meta>) {
    meta.Some? && meta.value.status == Some("success")
  }

  /** `search_results.get("data", [])`. */
  function Items(searchResults: SearchResponse): seq<LocationItem> {
    if searchResults.data.Some? then searchResults.data.value else []
  }

  function AsLocationOption(item: LocationItem): LocationOption {
    LocationOption(item.id, item.labelText, item.subdistrictName, item.districtName,
                   item.cityName, item.provinceName, item.zipCode)
  }

  /** The location options a search answer yields: none unless the status is
      "success", and otherwise one per entry, in order, with renamed fields. */
  function LocationOptions(searchResults: SearchResponse): (locations: seq<LocationOption>)
    ensures !Succeeded(searchResults.meta) ==> locations == []
    ensures Succeeded(searchResults.meta) ==> |locations| == |Items(searchResults)|
    ensures Succeeded(searchResults.meta) ==>
      forall i :: 0 <= i < |locations| ==>
        var item, loc := Items(searchResults)[i], locations[i];
        && loc.id == item.id && loc.displayName == item.labelText
        && loc.subdistrict == item.subdistrictName && loc.district == item.districtName
        && loc.city == item.cityName && loc.province == item.provinceName
        && loc.zipCode == item.zipCode
  {
    if !Succeeded(searchResults.meta) then []
    else
      var items := Items(searchResults);
      seq(|items|, i requires 0 <= i < |items| => AsLocationOption(items[i]))
  }

  /** `format_location_options`: the `for`/`append` loop over the entries. */
  method FormatLocationOptions(searchResults: SearchResponse) returns (locations: seq<LocationOption>)
    ensures locations == LocationOptions(searchResults)
  {
    if !Succeeded(searchResults.meta) {
      return [];
    }
    var items := Items(searchResults);
    locations := [];
    var i := 0;
    while i < |items|
      invariant 0 <= i <= |items|
      invariant |locations| == i
      invariant forall j :: 0 <= j < i ==> locations[j] == AsLocationOption(items[j])
    {
      var item := items[i];
      locations := locations + [AsLocationOption(item)];
      i := i + 1;
    }
  }

  // ---------------------------------------------------------------------
  // format_shipping_results
  // ---------------------------------------------------------------------

  const ShippingHeader := "Shipping Options Available:\n\n"
  const NoOptionsLine := "No shipping options available for this route."
  const UnknownError := "Unknown error"

  function TierHeader(tier: Tier): string {
    match tier
    case Regular => "**Regular Shipping:**\n"
    case Cargo => "**Cargo Shipping:**\n"
    case Instant => "**Instant Shipping:**\n"
  }

  /** `data.get("calculate_…", [])` for the tier's key, on `data` itself
      defaulting to the empty object. */
  function TierOptions(data: Option<RateData>, tier: Tier): seq<RateOption> {
    if data.None? then []
    else
      var list := match tier
        case Regular => data.value.calculateReguler
        case Cargo => data.value.calculateCargo
        case Instant => data.value.calculateInstant;
      if list.Some? then list.value else []
  }

  predicate AllTiersEmpty(data: Option<RateData>) {
    |TierOptions(data, Regular)| == 0 && |TierOptions(data, Cargo)| == 0 && |TierOptions(data, Instant)| == 0
  }

  /** `meta.get("message", "Unknown error")`. */
  function ErrorMessage(meta: Option<Meta>): string {
    if meta.Some? && meta.value.message.Some? then meta.value.message.value else UnknownError
  }

  function CodText(isCod: bool): string {
    if isCod then "COD Available" else "No COD"
  }

  /** The delivery estimate as shown: a bare "-" is never shown but replaced by
      a tier-dependent fallback; anything else is copied. */
  function EtdText(tier: Tier, etd: string): (shown: string)
    ensures shown != "-"
    ensures etd != "-" ==> shown == etd
    ensures etd == "-" ==> shown == (if tier == Instant then "Same day" else "Contact courier")
  {
    if etd != "-" then etd else if tier == Instant then "Same day" else "Contact courier"
  }

  /** The courier line; only the instant tier bolds the courier name. */
  function CourierLine(tier: Tier, option: RateOption): string {
    if tier == Instant then "\U{2022} **" + option.shippingName + "** - " + option.serviceName + "\n"
    else "\U{2022} " + option.shippingName + " - " + option.serviceName + "\n"
  }

  /** One amount line: its caption, the amount with thousands separators, and
      the line break. */
  function CostLine(caption: string, amount: int): string {
    caption + GroupedInt(amount) + "\n"
  }

  /** The COD and delivery-estimate line, followed by the blank line. */
  function StatusLine(tier: Tier, option: RateOption): string {
    CodText(option.isCod) + " | " + EtdText(tier, option.etd) + "\n\n"
  }

  /** The five fragments appended for one quote, one per `+=`. */
  function QuoteFragments(tier: Tier, option: RateOption): (fragments: seq<string>)
    ensures |fragments| == 5
  {
    [CourierLine(tier, option),
     CostLine("Cost: Rp ", option.shippingCost),
     CostLine("Net Cost: Rp ", option.shippingCostNet),
     CostLine("Total: Rp ", option.grandtotal),
     StatusLine(tier, option)]
  }

  /** One block of five fragments per quote, in quote order. */
  function QuoteBlocks(tier: Tier, options: seq<RateOption>): (blocks: seq<seq<string>>)
    ensures |blocks| == |options|
    ensures forall k :: 0 <= k < |options| ==> blocks[k] == QuoteFragments(tier, options[k])
  {
    seq(|options|, k requires 0 <= k < |options| => QuoteFragments(tier, options[k]))
  }

  /** The fragments of a list of quotes, first quote first. */
  function QuotesFragments(tier: Tier, options: seq<RateOption>): seq<string> {
    Concat(QuoteBlocks(tier, options))
  }

  /** A tier's `if options:` block: nothing for an empty tier, else its header
      and its quotes. */
  function SectionFragments(tier: Tier, options: seq<RateOption>): seq<string> {
    if |options| == 0 then [] else [TierHeader(tier)] + QuotesFragments(tier, options)
  }

  /** The parts of the answer in the order they are appended: on success the
      header, the three tier blocks and the closing sentence when there is
      nothing to show; otherwise the one error line. */
  function ShippingParts(calculationResults: RateResponse): seq<seq<string>> {
    if !Succeeded(calculationResults.meta) then [["Error: " + ErrorMessage(calculationResults.meta)]]
    else
      var data := calculationResults.data;
      [[ShippingHeader],
       SectionFragments(Regular, TierOptions(data, Regular)),
       SectionFragments(Cargo, TierOptions(data, Cargo)),
       SectionFragments(Instant, TierOptions(data, Instant)),
       if AllTiersEmpty(data) then [NoOptionsLine] else []]
  }

  /** The fragments `format_shipping_results` appends, in order. */
  function ShippingFragments(calculationResults: RateResponse): seq<string> {
    Concat(ShippingParts(calculationResults))
  }

  /** The text `format_shipping_results` returns for a rate answer. */
  function ShippingText(calculationResults: RateResponse): string {
    Concat(ShippingFragments(calculationResults))
  }

  /** The `for option in options:` loop of one tier: five `+=` per quote. */
  method AppendQuotes(text: string, tier: Tier, options: seq<RateOption>) returns (resultText: string)
    ensures resultText == text + Concat(QuotesFragments(tier, options))
  {
    ghost var blocks := QuoteBlocks(tier, options);
    resultText := text;
    var i := 0;
    while i < |options|
      invariant 0 <= i <= |options|
      invariant resultText == text + Concat(Concat(blocks[..i]))
    {
      var option := options[i];
      ghost var before := Concat(Concat(blocks[..i]));
      resultText := resultText + CourierLine(tier, option);
      resultText := resultText + CostLine("Cost: Rp ", option.shippingCost);
      resultText := resultText + CostLine("Net Cost: Rp ", option.shippingCostNet);
      resultText := resultText + CostLine("Total: Rp ", option.grandtotal);
      resultText := resultText + StatusLine(tier, option);
      AppendFive(text + before, blocks[i]);
      ConcatTakeOneMore(blocks, i);
      ConcatAppend(Concat(blocks[..i]), blocks[i]);
      AppendAssociates(text, before, Concat(blocks[i]));
      i := i + 1;
    }
    assert blocks[..|options|] == blocks;
  }

  /** One tier's `if options:` block; the source repeats this block for the
      three tiers. */
  method AppendSection(text: string, tier: Tier, options: seq<RateOption>) returns (resultText: string)
    ensures resultText == text + Concat(SectionFragments(tier, options))
  {
    resultText := text;
    if |options| > 0 {
      resultText := resultText + TierHeader(tier);
      resultText := AppendQuotes(resultText, tier, options);
      ConcatAppend([TierHeader(tier)], QuotesFragments(tier, options));
      ConcatSingle(TierHeader(tier));
      AppendAssociates(text, TierHeader(tier), Concat(QuotesFragments(tier, options)));
    } else {
      AppendEmpty(text);
    }
  }

  /** `format_shipping_results`. */
  method FormatShippingResults(calculationResults: RateResponse) returns (resultText: string)
    ensures resultText == ShippingText(calculationResults)
  {
    ghost var parts := ShippingParts(calculationResults);
    if !Succeeded(calculationResults.meta) {
      ConcatSingle(parts[0]);
      ConcatSingle(parts[0][0]);
      return "Error: " + ErrorMessage(calculationResults.meta);
    }
    var data := calculationResults.data;
    resultText := ShippingHeader;
    var regularOptions := TierOptions(data, Regular);
    resultText := AppendSection(resultText, Regular, regularOptions);
    var cargoOptions := TierOptions(data, Cargo);
    resultText := AppendSection(resultText, Cargo, cargoOptions);
    var instantOptions := TierOptions(data, Instant);
    resultText := AppendSection(resultText, Instant, instantOptions);
    ConcatOfFiveParts(parts);
    ConcatSingle(ShippingHeader);
    if |regularOptions| == 0 && |cargoOptions| == 0 && |instantOptions| == 0 {
      resultText := resultText + NoOptionsLine;
      ConcatSingle(NoOptionsLine);
    } else {
      AppendEmpty(resultText);
    }
  }

  // ---------------------------------------------------------------------
  // Properties of the rendering
  // ---------------------------------------------------------------------

  /** Status is the sole error signal: any answer that is not a success renders
      as "Error: " and the message, or "Unknown error" when there is none. */
  lemma NonSuccessRendersError(calculationResults: RateResponse)
    requires !Succeeded(calculationResults.meta)
    ensures ShippingText(calculationResults) == "Error: " + ErrorMessage(calculationResults.meta)
    ensures calculationResults.meta.None? ==> ShippingText(calculationResults) == "Error: Unknown error"
  {
    var text := "Error: " + ErrorMessage(calculationResults.meta);
    assert ShippingFragments(calculationResults) == [text] by {
      ConcatSingle([text]);
    }
    ConcatSingle(text);
  }

  /** An error rendering carries a tier header only if the message itself
      does, and never opens with the shipping header. */
  lemma NonSuccessHasNoSections(calculationResults: RateResponse)
    requires !Succeeded(calculationResults.meta)
    ensures forall tier :: !ContainsSub(ErrorMessage(calculationResults.meta), TierHeader(tier)) ==>
      !ContainsSub(ShippingText(calculationResults), TierHeader(tier))
    ensures !StartsWith(ShippingText(calculationResults), ShippingHeader)
  {
    var message := ErrorMessage(calculationResults.meta);
    var text := "Error: " + message;
    NonSuccessRendersError(calculationResults);
    forall tier | !ContainsSub(message, TierHeader(tier))
      ensures !ContainsSub(text, TierHeader(tier))
    {
      assert TierHeader(tier)[0] == '*';
      NoOccurrenceAcross("Error: ", message, TierHeader(tier));
    }
    StartsAtSlice(text, 0, ShippingHeader);
    assert text[0] == 'E' && ShippingHeader[0] == 'S';
  }

  /** The five fragments of quote `j` sit at positions `5 * j` to `5 * j + 4`
      of its tier's quote fragments. */
  lemma QuoteFragmentsAt(tier: Tier, options: seq<RateOption>, j: nat)
    requires j < |options|
    ensures |QuotesFragments(tier, options)| == 5 * |options|
    ensures QuotesFragments(tier, options)[5 * j..5 * j + 5] == QuoteFragments(tier, options[j])
  {
    ConcatFivesLength(QuoteBlocks(tier, options));
    ConcatFivesAt(QuoteBlocks(tier, options), j);
  }

  /** A tier's block is empty when it has no quotes, and otherwise is the tier
      header followed by five fragments per quote, quote `j` at `1 + 5 * j`. */
  lemma SectionLayout(tier: Tier, options: seq<RateOption>, j: nat)
    ensures |SectionFragments(tier, options)| == if |options| == 0 then 0 else 1 + 5 * |options|
    ensures |options| > 0 ==> SectionFragments(tier, options)[0] == TierHeader(tier)
    ensures j < |options| ==>
      SectionFragments(tier, options)[1 + 5 * j..1 + 5 * j + 5] == QuoteFragments(tier, options[j])
  {
    if |options| > 0 {
      HeadedFivesAt(TierHeader(tier), QuoteBlocks(tier, options), j);
    }
  }

  /** The position of a tier's block among the parts of a successful answer. */
  function TierIndex(tier: Tier): (k: nat)
    ensures 1 <= k <= 3
  {
    match tier
    case Regular => 1
    case Cargo => 2
    case Instant => 3
  }

  /** Where a tier's block begins among the fragments of a successful answer. */
  function SectionStart(calculationResults: RateResponse, tier: Tier): nat
    requires Succeeded(calculationResults.meta)
  {
    Offset(ShippingParts(calculationResults), TierIndex(tier))
  }

  /** A tier's block begins after the header and the blocks of the tiers
      listed before it. */
  lemma SectionStartValue(calculationResults: RateResponse, tier: Tier)
    requires Succeeded(calculationResults.meta)
    ensures var data := calculationResults.data;
      SectionStart(calculationResults, tier) ==
      1 + (if tier != Regular then |SectionFragments(Regular, TierOptions(data, Regular))| else 0)
        + (if tier == Instant then |SectionFragments(Cargo, TierOptions(data, Cargo))| else 0)
  {
    var parts := ShippingParts(calculationResults);
    TierPart(calculationResults, Regular);
    TierPart(calculationResults, Cargo);
    assert Offset(parts, 1) == 1;
    assert Offset(parts, 2) == 1 + |parts[1]|;
    assert Offset(parts, 3) == 1 + |parts[1]| + |parts[2]|;
  }

  lemma TierPart(calculationResults: RateResponse, tier: Tier)
    requires Succeeded(calculationResults.meta)
    ensures |ShippingParts(calculationResults)| == 5
    ensures ShippingParts(calculationResults)[TierIndex(tier)]
      == SectionFragments(tier, TierOptions(calculationResults.data, tier))
  {
  }

  /** On success the first fragment is the header, so the text starts with
      it. */
  lemma HeaderComesFirst(calculationResults: RateResponse)
    requires Succeeded(calculationResults.meta)
    ensures var fs := ShippingFragments(calculationResults);
      |fs| > 0 && fs[0] == ShippingHeader
    ensures StartsWith(ShippingText(calculationResults), ShippingHeader)
  {
    ConcatFirst(ShippingParts(calculationResults));
    var fs := ShippingFragments(calculationResults);
    ConcatFragmentAt(fs, 0);
    assert fs[..0] == [];
  }

  /** On success each tier's block appears unchanged at its start. */
  lemma SectionAt(calculationResults: RateResponse, tier: Tier)
    requires Succeeded(calculationResults.meta)
    ensures var fs := ShippingFragments(calculationResults);
      var section := SectionFragments(tier, TierOptions(calculationResults.data, tier));
      var start := SectionStart(calculationResults, tier);
      start + |section| <= |fs| && fs[start..start + |section|] == section
  {
    BlockAtOffset(ShippingParts(calculationResults), TierIndex(tier));
    TierPart(calculationResults, tier);
  }

  /** On success nothing follows the instant block but the closing sentence,
      and that only when every tier is empty. */
  lemma FragmentCount(calculationResults: RateResponse)
    requires Succeeded(calculationResults.meta)
    ensures var data := calculationResults.data;
      |ShippingFragments(calculationResults)|
      == SectionStart(calculationResults, Instant) + |SectionFragments(Instant, TierOptions(data, Instant))|
         + (if AllTiersEmpty(data) then 1 else 0)
  {
    BlockAtOffset(ShippingParts(calculationResults), 0);
  }

  /** With every tier empty the answer is the header and the closing
      sentence. */
  lemma NoOptionsWhenAllTiersEmpty(calculationResults: RateResponse)
    requires Succeeded(calculationResults.meta) && AllTiersEmpty(calculationResults.data)
    ensures ShippingFragments(calculationResults) == [ShippingHeader, NoOptionsLine]
    ensures ShippingText(calculationResults) == ShippingHeader + NoOptionsLine
  {
    ConcatFive(ShippingParts(calculationResults));
    assert ShippingFragments(calculationResults) == [ShippingHeader, NoOptionsLine];
    ConcatFragmentsTwo(ShippingHeader, NoOptionsLine);
  }

  /** The tier whose block comes last among those with quotes. */
  function LastTierShown(data: Option<RateData>): Tier
    requires !AllTiersEmpty(data)
  {
    if |TierOptions(data, Instant)| > 0 then Instant
    else if |TierOptions(data, Cargo)| > 0 then Cargo
    else Regular
  }

  /** Every part after the last tier with quotes is empty. */
  lemma LaterPartsEmpty(calculationResults: RateResponse)
    requires Succeeded(calculationResults.meta) && !AllTiersEmpty(calculationResults.data)
    ensures |ShippingParts(calculationResults)| == 5
    ensures forall m :: TierIndex(LastTierShown(calculationResults.data)) < m < 5 ==>
      |ShippingParts(calculationResults)[m]| == 0
  {
  }

  /** A block with quotes ends with the status line of its last quote. */
  lemma SectionEndsWithStatusLine(tier: Tier, options: seq<RateOption>)
    requires |options| > 0
    ensures var section := SectionFragments(tier, options);
      |section| > 0 && section[|section| - 1] == StatusLine(tier, options[|options| - 1])
  {
    SectionLayout(tier, options, |options| - 1);
    var section := SectionFragments(tier, options);
    var at := 1 + 5 * (|options| - 1);
    assert section[|section| - 1] == section[at..at + 5][4];
  }

  /** With some quote to show, the answer ends with the status line of the
      last quote of the last tier that has quotes. */
  lemma EndsWithLastQuote(calculationResults: RateResponse)
    requires Succeeded(calculationResults.meta) && !AllTiersEmpty(calculationResults.data)
    ensures var fs := ShippingFragments(calculationResults);
      var tier := LastTierShown(calculationResults.data);
      var options := TierOptions(calculationResults.data, tier);
      |fs| > 0 && fs[|fs| - 1] == StatusLine(tier, options[|options| - 1])
  {
    var tier := LastTierShown(calculationResults.data);
    TierPart(calculationResults, tier);
    SectionEndsWithStatusLine(tier, TierOptions(calculationResults.data, tier));
    LaterPartsEmpty(calculationResults);
    ConcatLast(ShippingParts(calculationResults), TierIndex(tier));
  }

  /** On success the closing sentence is the last fragment exactly when all
      three tiers are empty. */
  lemma NoOptionsLineIffAllTiersEmpty(calculationResults: RateResponse)
    requires Succeeded(calculationResults.meta)
    ensures var fs := ShippingFragments(calculationResults);
      |fs| > 0 && (fs[|fs| - 1] == NoOptionsLine <==> AllTiersEmpty(calculationResults.data))
  {
    var data := calculationResults.data;
    if AllTiersEmpty(data) {
      NoOptionsWhenAllTiersEmpty(calculationResults);
    } else {
      var tier := LastTierShown(data);
      var options := TierOptions(data, tier);
      EndsWithLastQuote(calculationResults);
      StatusLineEnds(tier, options[|options| - 1]);
    }
  }

  lemma ConcatFragmentsTwo(a: string, b: string)
    ensures Concat([a, b]) == a + b
  {
    ConcatTakeOneMore([a, b], 0);
    ConcatTakeOneMore([a, b], 1);
    assert [a, b][..0] == [];
    assert [a, b][..2] == [a, b];
  }

  /** A quote ends with a blank line, so it never ends the way the closing
      sentence does. */
  lemma StatusLineEnds(tier: Tier, option: RateOption)
    ensures EndsWith(StatusLine(tier, option), "\n\n")
    ensures StatusLine(tier, option) != NoOptionsLine
  {
    var head := CodText(option.isCod) + " | " + EtdText(tier, option.etd);
    EndsWithSelf("\n\n");
    EndsWithAppend(head, "\n\n", "\n\n");
    var s := StatusLine(tier, option);
    assert s[|s| - 1] == '\n';
    assert NoOptionsLine[|NoOptionsLine| - 1] == '.';
  }

  /** Bolding is the only difference between the instant courier line and the
      other tiers' line. */
  lemma OnlyInstantBoldsCourier(option: RateOption)
    ensures CourierLine(Cargo, option) == CourierLine(Regular, option)
    ensures CourierLine(Instant, option) ==
      CourierLine(Regular, option.(shippingName := "**" + option.shippingName + "**"))
  {
  }

  /** An amount line shows its caption, then the grouped amount, which reads
      back, separators removed, as the plain decimal text of the amount. */
  lemma CostLineReadsBack(caption: string, amount: int)
    ensures StartsWith(CostLine(caption, amount), caption)
    ensures StartsAt(CostLine(caption, amount), |caption|, GroupedInt(amount))
    ensures StripCommas(GroupedInt(amount)) == IntText(amount)
  {
    GroupedIntStripsToText(amount);
    PiecesOfThree(caption, GroupedInt(amount), "\n");
  }
}
