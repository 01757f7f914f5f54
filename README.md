# Shipping price checker — a verified model of its core

The shipping price checker is a conversational assistant for Indonesian
parcel shipping. The user writes a message, an agent calls two tools, and the
tools ask a rate service (RajaOngkir) for matching destinations and for
shipping quotes, then format the answers as text. Besides that path, the
assistant has:

- a regular-expression helper that reads a package weight and an item value
  out of a message;
- a small retrieval knowledge base that supplies background passages.

This project models four parts of that core:

- **The pricing gateway** (`rajaongkir_api.dfy`, module `RajaOngkirApi`).
  - The two service calls are modelled. Each builds its request, and a
    failure of the HTTP library becomes an error payload instead of an
    exception.
  - The location formatter is modelled: no options unless the status is
    "success", and otherwise one renamed record per entry, in order.
  - The quote formatter is modelled. It writes the header, then the Regular,
    Cargo and Instant sections in that order, each quote as five lines with
    thousands-separated amounts, and a closing sentence when every tier is
    empty.
- **The two agent tools** (`shipping_tools.dfy`, module `ShippingTools`).
  - The destination search tool lists locations numbered from 1.
  - The cost tool coerces its arguments with `int()` and returns the quote
    summary.
  - Any exception that escapes the gateway becomes an error sentence.
- **Weight and item-value extraction** (`shipping_assistant.dfy`, module
  `ShippingAssistant`).
  - The four weight patterns and the three value patterns are tried in
    order on the lower-cased text, and the first pattern found anywhere
    wins.
  - Kilograms are converted to grams, and thousands commas are removed
    before `float()`.
  - `re.search` is modelled as a leftmost-start scan with greedy scanners.
    At each start position, Python's backtracking tries the greedy path
    first, so the model is exact when the greedy path succeeds whenever any
    path does. That holds for two reasons:
    - In the two prefix value patterns (`rp…` and `rupiah…`), nothing follows
      the captured group. Once a digit follows the prefix, the greedy path
      matches, and it is the match Python returns. Shorter paths can also
      match there, but Python never reaches them.
    - In the four weight patterns and the `…rupiah` suffix pattern, every
      shorter path leaves a digit, ',', '.' or white space just before a
      piece that cannot match it: `\s*` followed by the unit word, or
      "rupiah". So only the greedy path can match at that start.
  - `float()` is modelled on exact reals.
- **The knowledge base** (`knowledge_base.dfy`, module `KnowledgeBase`).
  - It is a class over the sequence of passages its vector store holds.
  - On construction it seeds a new store with the five built-in documents,
    or reopens an existing one.
  - `add_knowledge` only appends.
  - `get_context_for_query` builds the context from the header and one
    entry per retrieved passage, asking for three passages.
  - The text splitter and the similarity ranking are functions the
    knowledge base is given.

Two shared modules support these:

- `text.dfy` (module `Text`): character classes, `lower()`,
  `replace(',', '')` and substring predicates.
- `numerals.dfy` (module `Numerals`): `str(n)`, `format(n, ",")` and the
  value of a digit string.

Each HTTP call is a parameter of type `Exchange`. It says whether the service
answered (and with what), whether the HTTP library failed, or whether some
other exception was raised.

Two behaviours of the code are worth knowing:

- A failed rate answer is rendered as "Error: " followed by the payload's
  message, copied verbatim (AI_And_Tools/rajaongkir_api.py:129-130). A tier
  header therefore can appear in the text, but only when the message itself
  contains one. `RajaOngkirApi.NonSuccessHasNoSections` states the property
  under that condition.
- The gateway catches only `requests.exceptions.RequestException`
  (AI_And_Tools/rajaongkir_api.py:35, :86), modelled as `Exchange.RequestFailed`.
  Any other exception escapes it and reaches the tools' `except Exception`
  (AI_And_Tools/shipping_tools.py:47, :84), modelled as `Exchange.Raised`.

## Model

| member | source | states |
|---|---|---|
| RajaOngkirApi.SearchDestination | AI_And_Tools/rajaongkir_api.py:27-39 | The request is the search path with the keyword as its only parameter. A delivered answer is returned unchanged. A library failure returns status "error", code 500, the message "Error searching destination: " plus the reason, and an empty location list. Any other exception escapes. |
| RajaOngkirApi.CalculateShippingCost | AI_And_Tools/rajaongkir_api.py:66-90 | The request is the calculate path with the query of the given arguments. A delivered answer is returned unchanged. A library failure returns status "error", code 500, the message "Error calculating shipping cost: " plus the reason, and an empty data object. Any other exception escapes. |
| RajaOngkirApi.BuildCalculatePayload | AI_And_Tools/rajaongkir_api.py:69-80 | The payload built step by step is the five fixed entries followed by each pin point that is truthy. |
| RajaOngkirApi.CalculateQueryKeys | AI_And_Tools/rajaongkir_api.py:69-80 | The keys are exactly the five fixed ones, in insertion order, then origin_pin_point and destination_pin_point, each exactly when it is truthy. |
| RajaOngkirApi.PinPointSentIffTruthy | AI_And_Tools/rajaongkir_api.py:77-80 | Each pin point is sent if and only if it is present and not empty, and the payload has between 5 and 7 entries. |
| RajaOngkirApi.CalculateQueryValues | AI_And_Tools/rajaongkir_api.py:69-80 | Looking up any fixed key gives the value it was given. Looking up a truthy pin point gives its text. |
| RajaOngkirApi.WireNamesDistinct | AI_And_Tools/rajaongkir_api.py:70-80 | No two parameters share a wire name, so the keyed query is the same as the dict. |
| RajaOngkirApi.LocationOptions | AI_And_Tools/rajaongkir_api.py:102-117 | The result is empty whenever the status is not "success", including when meta is missing. Otherwise there is one option per entry, in order, with every field copied under its new name. |
| RajaOngkirApi.FormatLocationOptions | AI_And_Tools/rajaongkir_api.py:102-117 | The append loop returns exactly LocationOptions of the answer. |
| RajaOngkirApi.AppendQuotes | AI_And_Tools/rajaongkir_api.py:139-147 | The loop of five appends per quote extends the text by the quotes' fragments, in quote order. |
| RajaOngkirApi.AppendSection | AI_And_Tools/rajaongkir_api.py:136-147 | An empty tier adds nothing. Otherwise the text grows by the tier header and then its quotes. |
| RajaOngkirApi.FormatShippingResults | AI_And_Tools/rajaongkir_api.py:129-180 | The method returns ShippingText: the error line, or the header, the three sections in order, and the closing sentence when all tiers are empty. |
| RajaOngkirApi.EtdText | AI_And_Tools/rajaongkir_api.py:141-169 | The shown estimate is never "-". A "-" becomes "Same day" for instant quotes and "Contact courier" otherwise; any other estimate is copied. |
| RajaOngkirApi.NonSuccessRendersError | AI_And_Tools/rajaongkir_api.py:129-130 | A non-success answer renders as "Error: " plus its message, or "Error: Unknown error" when meta or its message is missing. |
| RajaOngkirApi.NonSuccessHasNoSections | AI_And_Tools/rajaongkir_api.py:129-130 | An error rendering never starts with the options header. It contains a tier header only if the message does. |
| RajaOngkirApi.QuoteFragmentsAt | AI_And_Tools/rajaongkir_api.py:139-147 | Quote j of a tier occupies fragments 5j to 5j+4: the courier line, the three amount lines and the status line. |
| RajaOngkirApi.SectionLayout | AI_And_Tools/rajaongkir_api.py:136-147 | A tier's block is empty for no quotes. Otherwise it is the tier header and then five fragments per quote, with quote j at 1+5j. |
| RajaOngkirApi.SectionStartValue | AI_And_Tools/rajaongkir_api.py:133-166 | Regular starts right after the header, Cargo after Regular's block, and Instant after both. |
| RajaOngkirApi.HeaderComesFirst | AI_And_Tools/rajaongkir_api.py:133 | On success the first fragment is "Shipping Options Available:\n\n", and the text starts with it. |
| RajaOngkirApi.SectionAt | AI_And_Tools/rajaongkir_api.py:136-175 | On success each tier's block appears unchanged at its start position. |
| RajaOngkirApi.FragmentCount | AI_And_Tools/rajaongkir_api.py:133-180 | Nothing follows the Instant block except the closing sentence, and that only when all tiers are empty. |
| RajaOngkirApi.NoOptionsWhenAllTiersEmpty | AI_And_Tools/rajaongkir_api.py:177-178 | With all three tiers empty (or missing), the text is the header followed by "No shipping options available for this route.". |
| RajaOngkirApi.EndsWithLastQuote | AI_And_Tools/rajaongkir_api.py:164-180 | With some quote shown, the last fragment is the status line of the last quote of the last tier that has quotes. |
| RajaOngkirApi.NoOptionsLineIffAllTiersEmpty | AI_And_Tools/rajaongkir_api.py:177-178 | On success the closing sentence is the last fragment if and only if all three tiers are empty. |
| RajaOngkirApi.StatusLineEnds | AI_And_Tools/rajaongkir_api.py:147 | Every quote ends with a blank line, so it is never the closing sentence. |
| RajaOngkirApi.OnlyInstantBoldsCourier | AI_And_Tools/rajaongkir_api.py:143-171 | Regular and Cargo courier lines are identical. The Instant line is the same line with the courier name in bold. |
| RajaOngkirApi.CostLineReadsBack | AI_And_Tools/rajaongkir_api.py:144-146 | An amount line is its caption, then the grouped amount. Removing the separators gives str(amount) back. |
| Numerals.GroupedStripsToDigits | AI_And_Tools/rajaongkir_api.py:144-146 | Removing the commas from format(n, ",") gives str(n). |
| Numerals.GroupedIntStripsToText | AI_And_Tools/rajaongkir_api.py:144-146 | The same holds for negative amounts, whose sign is kept. |
| Numerals.GroupedShape | AI_And_Tools/rajaongkir_api.py:144 | format(n, ",") is one to three leading digits followed by groups of a comma and exactly three digits. |
| Numerals.GroupedExample | AI_And_Tools/rajaongkir_api.py:144 | 150000 is shown as "150,000". |
| Numerals.GroupedIntExample | AI_And_Tools/rajaongkir_api.py:144 | 1200000 is shown as "1,200,000". |
| Numerals.DigitsRoundTrip | AI_And_Tools/shipping_tools.py:40-42 | str(n) is all digits and reads back as n. |
| Numerals.DecimalDigitsShape | AI_And_Tools/shipping_tools.py:40-42 | str(n) is a non-empty digit string that starts with '0' only for 0. |
| ShippingTools.ToolName | AI_And_Tools/shipping_tools.py:22-52 | The search tool is named "search_destination" and the calculation tool "calculate_shipping_cost". Each name belongs to exactly one tool. |
| ShippingTools.CreateShippingTools | AI_And_Tools/shipping_tools.py:87-92 | The tool list is the search tool and then the calculation tool. They carry the names "search_destination" and "calculate_shipping_cost", which differ. |
| ShippingTools.SearchDestinationToolRun | AI_And_Tools/shipping_tools.py:30-48 | The tool sends the keyword search. Its text is: the error sentence for an escaped exception; the "No locations found" sentence for a library failure or an empty list; otherwise the header with the count, then three lines per location numbered from 1. |
| ShippingTools.SearchToolListsIffFound | AI_And_Tools/shipping_tools.py:37-48 | The answer starts with "Found " if and only if the service answered and at least one location came out. |
| ShippingTools.NoLocationsIsNotFound | AI_And_Tools/shipping_tools.py:37-38 | The "No locations" sentence is never mistaken for a listing. |
| ShippingTools.EntryNumberReadsBack | AI_And_Tools/shipping_tools.py:41-42 | Entry number i starts with str(i) + ". ID: ", and the digits read back as i. |
| ShippingTools.HeaderCountReadsBack | AI_And_Tools/shipping_tools.py:40 | The count after "Found " reads back as the number of entries listed. |
| ShippingTools.CalculateShippingToolRun | AI_And_Tools/shipping_tools.py:71-85 | The gateway gets int() of the weight and of the item value. The text is: the formatted quotes; "Error: " plus the gateway's error sentence for a library failure; the tool's error sentence for an escaped exception. |
| ShippingTools.CalculateToolFailures | AI_And_Tools/shipping_tools.py:84-85 | The two failure sentences differ only by "Error: ", and neither is a quote summary. |
| ShippingTools.CalculateToolSendsWholeNumbers | AI_And_Tools/shipping_tools.py:73-81 | The request carries the truncated weight and item value, a whole number unchanged, and a non-negative weight rounded down. |
| ShippingAssistant.ExtractShippingInfo | Core_Application/shipping_assistant.py:146-180 | The two loops that break on the first pattern found give exactly ShippingInfo of the text. |
| ShippingAssistant.ShippingInfoKeys | Core_Application/shipping_assistant.py:146-180 | The result has only the keys "weight" and "item_value". Each is present if and only if one of its patterns is found in the lower-cased text. Both values are non-negative. |
| ShippingAssistant.ShippingInfoIgnoresCase | Core_Application/shipping_assistant.py:159-176 | The result for a text equals the result for its lower-cased form. |
| ShippingAssistant.CaptureParses | Core_Application/shipping_assistant.py:151-179 | float() never fails on what a pattern captures; for value patterns, after removing commas. |
| ShippingAssistant.FirstMatchIsFirstFound | Core_Application/shipping_assistant.py:158-166 | The pattern that decides is found, and every pattern listed before it is not. |
| ShippingAssistant.FirstFoundIsFirstMatch | Core_Application/shipping_assistant.py:158-166 | Conversely, the first pattern found in list order is the one that decides. |
| ShippingAssistant.FirstMatchNone | Core_Application/shipping_assistant.py:175-180 | No pattern decides if and only if no pattern of the list is found. |
| ShippingAssistant.KgTakesPriority | Core_Application/shipping_assistant.py:151-166 | If a "kg" amount is found anywhere, it is the weight, times 1000. |
| ShippingAssistant.GramsThenKilograms | Core_Application/shipping_assistant.py:151-166 | For any m and n, "m gram and n kg" weighs n*1000: pattern priority beats position in the text. |
| ShippingAssistant.AmountWithUnitReadsBack | Core_Application/shipping_assistant.py:151-166 | str(n), any spaces, and one unit word give the weight n*1000 for "kg" and "kilogram", or n for "gram" and "g", and no item value. |
| ShippingAssistant.WeightExamples | Core_Application/shipping_assistant.py:151-166 | "1kg" gives weight 1000 and "500g" gives weight 500. "5", the separator 0x1C and "kg" give 5000, because `\s` matches that separator. |
| ShippingAssistant.SearchOnAmountWithUnit | Core_Application/shipping_assistant.py:152-155 | On a number followed by a unit word, a weight pattern finds the number if and only if its unit is the one written. |
| ShippingAssistant.FirstWeightOnAmountWithUnit | Core_Application/shipping_assistant.py:158-166 | On a number, spaces and one unit word, the first weight pattern found is the one for that unit, and it captures exactly the number. |
| ShippingAssistant.UnitPrefixes | Core_Application/shipping_assistant.py:152-155 | The only unit word that starts another is "g", which starts "gram". The `\b` after "g" keeps that pattern from matching "gram". |
| ShippingAssistant.NoUnitNoWeight | Core_Application/shipping_assistant.py:151-166 | A text without 'k' or 'g' has no weight. |
| ShippingAssistant.NoCurrencyNoValue | Core_Application/shipping_assistant.py:169-180 | A text in which no 'r' is followed by 'p' or 'u' has no item value. |
| ShippingAssistant.FormattedAmountReadsBack | Core_Application/shipping_assistant.py:169-180 | For any n, "Rp " followed by format(n, ",") gives exactly the item value n. With Numerals.GroupedIntExample, "Rp 1,200,000" gives 1200000. |
| ShippingAssistant.RpAmountFound | Core_Application/shipping_assistant.py:170 | The "rp" pattern captures the whole grouped amount, commas included. |
| ShippingAssistant.ParseFloatOfDigits | Core_Application/shipping_assistant.py:161 | float(str(n)) is n. |
| ShippingAssistant.ParseFloatOfDotted | Core_Application/shipping_assistant.py:161 | float("w.f") is w plus f divided by 10 to the number of digits of f. |
| ShippingAssistant.SearchSkips | Core_Application/shipping_assistant.py:159 | re.search passes over start positions where the pattern does not match. |
| Text.LowerIdempotent | Core_Application/shipping_assistant.py:159 | Lower-casing twice is the same as lower-casing once. |
| Text.StripCommasRemovesAll | Core_Application/shipping_assistant.py:178 | replace(',', '') leaves no comma and never lengthens the text. |
| Text.StripCommasOfDigitsAndCommas | Core_Application/shipping_assistant.py:178 | Digits and commas become digits only, and the first digit is kept. |
| KnowledgeBase.JoinPath | AI_And_Tools/knowledge_base.py:15 | `os.path.join` keeps its first argument as a prefix and ends with the second. It inserts one '/' exactly when the first argument is non-empty and does not already end in '/'. |
| KnowledgeBase.JoinTwice | AI_And_Tools/knowledge_base.py:15 | Joining a non-empty part without a trailing '/' and then another part is the same as joining both as one path separated by '/'. |
| KnowledgeBase.DefaultDirectoryUnderRoot | AI_And_Tools/knowledge_base.py:13-15 | Joining the root with "Data_And_Config" and then "chroma_db" is joining it with "Data_And_Config/chroma_db". The result starts with the root. |
| KnowledgeBase.DefaultDirectoryAfterSlash | AI_And_Tools/knowledge_base.py:13-15 | A root ending in '/', such as "/", is followed directly by "Data_And_Config/chroma_db", with no doubled separator. |
| KnowledgeBase.DefaultDirectoryAddsSlash | AI_And_Tools/knowledge_base.py:13-15 | Any other non-empty root is followed by one '/' and then "Data_And_Config/chroma_db". |
| KnowledgeBase.ShippingKnowledgeBase.constructor | AI_And_Tools/knowledge_base.py:11-53 | The default directory is Data_And_Config/chroma_db under the project root. An existing directory is reopened with its passages. A missing one is seeded with the split built-in documents. |
| KnowledgeBase.ShippingKnowledgeBase.InitializeVectorstore | AI_And_Tools/knowledge_base.py:36-53 | The store holds the persisted passages when the directory exists, and the split seed documents otherwise. |
| KnowledgeBase.ShippingKnowledgeBase.CreateInitialDocuments | AI_And_Tools/knowledge_base.py:182-192 | The append loop over the built-in entries, followed by splitting, gives the split seed documents. |
| KnowledgeBase.AsDocumentsKeeps | AI_And_Tools/knowledge_base.py:182-188 | Each entry becomes one document with the same content and metadata, in order. |
| KnowledgeBase.SeedDocumentsCategories | AI_And_Tools/knowledge_base.py:58-180 | There are five seed documents, with the types and categories location_info/indonesia_cities, shipping_info/weight_guidelines, shipping_info/item_value, courier_info/service_types and faq/common_questions. |
| KnowledgeBase.ShippingKnowledgeBase.SearchKnowledge | AI_And_Tools/knowledge_base.py:194-196 | k defaults to 3. The result is the first min(k, n) passages of the ranking. |
| KnowledgeBase.ShippingKnowledgeBase.AddKnowledge | AI_And_Tools/knowledge_base.py:198-204 | The store becomes the old passages followed by the chunks of the new document; nothing is removed. |
| KnowledgeBase.ShippingKnowledgeBase.GetContextForQuery | AI_And_Tools/knowledge_base.py:206-214 | The context is built from the three most similar passages. Its length is the header plus each passage's length plus 4. |
| KnowledgeBase.ContextStartsWithHeader | AI_And_Tools/knowledge_base.py:210 | Every context starts with "Relevant shipping knowledge:\n\n". |
| KnowledgeBase.ContextLength | AI_And_Tools/knowledge_base.py:210-212 | The length of the context is the header's length plus the sum of len(content) + 4 over the passages. |
| KnowledgeBase.ContextIsHeaderOnlyWhenEmpty | AI_And_Tools/knowledge_base.py:210-214 | The context is exactly the header if and only if nothing was retrieved. |
| KnowledgeBase.ContextEntryAt | AI_And_Tools/knowledge_base.py:211-212 | Passage i appears as "- " + content + "\n\n" right after the entries of the passages before it, so passages appear in retrieval order. |

## Left out

- HTTP, JSON decoding, environment variables (base URL, API key, headers) and `raise_for_status`: each call is an `Exchange` parameter. The model sees only the decoded answer, a library failure with its reason, or another exception.
- The fields of an answer are typed, so JSON values of the wrong type or `null` are not modelled:
  - A missing `id` or `etd` in an entry is not modelled. The source raises `KeyError` there, and the tools catch it.
  - `"meta": null` is not modelled. The source raises `AttributeError` at AI_And_Tools/rajaongkir_api.py:102 and :129, and the tools catch it.
  - `"message": null` is not modelled. The source renders it as "Error: None".
  - A `data` that is `null` is not modelled. Neither is a search `data` that is not a list, or a calculate `data` that is a list or otherwise not an object.
- RajaOngkirApi.RateOption: costs are assumed to be integers. A fractional cost, which `:,` would print with decimals, is not modelled.
- RajaOngkirApi.CalculateShippingCost: the weight and the item value are integers, because the only caller passes `int()` of them.
- `str.lower()`, `\d`, `\s` and `\w` are modelled on ASCII only. Unicode case mapping and Unicode digits and spaces are not. Within ASCII, `\s` includes the separators 0x1C to 0x1F, as Python's does for text patterns.
- ShippingTools.CalculateShippingToolRun: the weight and item value are finite reals. Non-finite arguments are not modelled: `int()` of NaN or infinity raises inside the tool's `try`, and the tool turns that into "Error calculating shipping cost: " plus the conversion message.
- ShippingAssistant.ParseFloat: `float()` is computed on exact rational numbers. Binary rounding, overflow to infinity, and the rounding of weight * 1000 are not modelled.
- The location-keyword extraction of `extract_shipping_info` is not part of this model, nor is the rest of the assistant at Core_Application/shipping_assistant.py (the language model, the agent executor, the conversation memory, `chat()`). The same goes for Core_Application/streamlit_app.py and Core_Application/cli.py.
- The tools' pydantic argument schemas and descriptions are not modelled.
- The knowledge base's embedding model, Chroma store, `persist()` and progress messages are not modelled. The store is its sequence of passages.
  - The text splitter (chunk size 1000, overlap 200) is a function the class is given.
  - The similarity ranking is a function the class is given.
  - Whether the directory exists, and what a reopened store holds, are constructor parameters.
- KnowledgeBase.ShippingKnowledge: each built-in document's text is shortened to its title line. The metadata are exact, and no property depends on the rest of the text.
- KnowledgeBase.ShippingKnowledgeBase.SearchKnowledge: it does not state that the passages are the most similar ones, or that they come from the store. Both are properties of the ranking, which is a parameter. `k` is a natural number; a negative `k` is not modelled.
