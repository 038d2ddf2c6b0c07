# Place Types Tester — a Dafny model of its request/count pipeline

The program asks the Google Places "Nearby Search" web service for the places
within 100 meters of a coordinate and prints, for every place-type label in
the answer, how often it occurs across the results' `types` lists, most
frequent first. This project
models the four pieces of `PlaceTypesTester.cs` that hold logic, with the
console, the location sensor and the network stripped away:

- **Coordinate validation** (`GetLocationFromUser`, module `Coordinates`): two
  text lines become a coordinate, or one of three errors (empty input,
  invalid latitude, invalid longitude). `double.TryParse` is a parameter.
- **URL construction** (`NearbySearch.CreateURL`, module `NearbySearch`): the
  base link, `lat,lon`, `&radius=100`, an optional `&type=` with the
  comma-joined types, and `&key=`. The culture-dependent rendering of a
  `double` is a parameter. The builder is paired with a query-string parser
  (module `Query`, with `Split`/`Join` in module `Text`). It is proved that
  parsing the built URL text gives back exactly the intended parameters
  (as raw text: no percent-decoding is modelled).
- **Response acceptance** (`GetPlaceAPIResponse`): the HTTP GET plus JSON
  deserialisation is an abstract `Fetched` value. The response is kept only
  when it is non-null and its status is `"OK"`.
- **Place-type counting and ranking** (`GetNearbyPlaceTypes`, module
  `PlaceTypes`): the dictionary is a list of (label, count) entries in
  first-seen order. It is filled by two nested loops. `List.Sort` (an
  unstable sort in .NET) is modelled by an insertion sort by count, largest
  first. The result is specified as:
  - one entry per distinct label and no other;
  - each count equals the label's number of occurrences;
  - counts are non-increasing;
  - the counts add up to the number of labels.

In these places the model follows the code as written:

- A non-null but empty `typesToInclude` still produces `&type=` with an empty
  value. Only a null array leaves the segment out.
- Only a null input line counts as "empty input". An empty line fails
  `TryParse` and is reported as an invalid latitude (or longitude).
- Every failure of the request (exception, null object, non-OK status) ends
  as the same null. There is no separate "provider error" outcome.
- The order of equal counts is not fixed, because `List.Sort` is unstable. The
  contracts promise only "non-increasing by count" and "same entries as the
  dictionary". The model's insertion sort happens to keep first-seen order
  for ties. No contract states that, because the source does not promise it.
- The radius is the constant 100, not a parameter.

## Model

| member | source | states |
|---|---|---|
| Coordinates.GetLocationFromUserAsWritten | PlaceTypesTester.cs:151-167 | null input gives "empty input"; an accepted pair is what the two texts parse to, and neither value compares below or above its bounds |
| Coordinates.NaNAcceptedAsWritten | PlaceTypesTester.cs:156-167 | the text "NaN" passes both range checks as written and yields a NaN coordinate |
| Coordinates.GetLocationFromUser | PlaceTypesTester.cs:151-167 | success exactly when both lines are present and parse to numbers in [-90, 90] and [-180, 180], and the coordinate holds exactly those numbers; otherwise empty input, then invalid latitude (checked first), then invalid longitude, each error in exactly its case |
| Coordinates.AcceptsEveryValidCoordinate | PlaceTypesTester.cs:156-167 | any in-range coordinate whose texts parse to its components is accepted unchanged (round trip) |
| Coordinates.AgreesWithSourceUnlessNaN | PlaceTypesTester.cs:156-165 | when no text parses to NaN, the corrected checks give the same error or the same coordinate as the written ones |
| NearbySearch.CreateUrlRendersParameters | PlaceTypesTester.cs:237-252 | both arms of the format string equal the endpoint plus `?` plus the `&`-joined `name=value` list location, radius, (type), key |
| NearbySearch.CreateUrlParsesToParameters | PlaceTypesTester.cs:231-254 | reading the built URL back gives exactly that parameter list, provided no rendered coordinate or type contains `&` |
| NearbySearch.RequestParametersContent | PlaceTypesTester.cs:218-251 | the parameters are named location, radius, type, key in that order, with type present exactly when the array is non-null; the values are `lat,lon`, 100, the comma-join of the types and the API key |
| NearbySearch.CreateUrlParses | PlaceTypesTester.cs:231-254 | the parsed URL carries location `lat,lon`, radius 100, key, and a type parameter exactly when `typesToInclude` is non-null, equal to the comma-join in caller order, between radius and key |
| NearbySearch.CreateUrlWithoutTypes | PlaceTypesTester.cs:239-244 | with a null array the URL is exactly the link, `lat,lon`, `&radius=100&key=` and the key |
| NearbySearch.EmptyTypesStillSendTypeParameter | PlaceTypesTester.cs:245-251 | an empty, non-null array still sends a `type` parameter whose value is empty |
| NearbySearch.TypeValueRoundTrip | PlaceTypesTester.cs:250 | the comma-joined types split back into the caller's list when it is non-empty and no type holds a comma |
| NearbySearch.LocationRoundTrip | PlaceTypesTester.cs:239-242 | the location value splits back into the two rendered coordinates when neither rendering contains a comma |
| NearbySearch.RadiusText | PlaceTypesTester.cs:219 | the radius placeholder renders as `100` |
| NearbySearch.CreateUrl | PlaceTypesTester.cs:231-254 | no contract of its own; CreateUrlRendersParameters, CreateUrlParses and CreateUrlWithoutTypes state its content |
| Text.DecimalRoundTrip | PlaceTypesTester.cs:243 | the decimal rendering of the `int` radius reads back as the same number |
| Text.Join | PlaceTypesTester.cs:250 | no contract of its own; SplitJoin and JoinSplit state that Split inverts it |
| Text.SplitJoin | PlaceTypesTester.cs:250 | splitting what `string.Join` produced returns the parts when there is at least one part and none contains the separator |
| Text.JoinSplit | PlaceTypesTester.cs:250 | joining the pieces of a string with the separator returns the string |
| NearbySearch.GetPlaceApiResponse | PlaceTypesTester.cs:263-291 | a response is returned if and only if no exception occurred, the deserialised object is non-null and its status is non-null and equal to "OK"; then it is that object, unchanged |
| PlaceTypes.BumpExtendsTally | PlaceTypesTester.cs:194-201 | incrementing an existing label or adding a new one at count 1 turns a tally of the labels seen so far into a tally of those plus one more label, and raises the total by one |
| PlaceTypes.CountLabels | PlaceTypesTester.cs:192-202 | after the inner loop the dictionary tallies the labels seen before plus this result's labels |
| PlaceTypes.CountPlaceTypes | PlaceTypesTester.cs:188-203 | the dictionary holds every label of every result with non-null `types` exactly once, with its number of occurrences (at least 1), nothing else, and the counts sum to the number of labels |
| PlaceTypes.SortByCount | PlaceTypesTester.cs:210-211 | the sorted list is a permutation of the entries, non-increasing by count, with the same total |
| PlaceTypes.InsertKeepsSorted | PlaceTypesTester.cs:211 | inserting an entry after every entry with a count at least as large keeps a list non-increasing by count |
| PlaceTypes.PermutationKeepsTally | PlaceTypesTester.cs:210-211 | any reordering of the dictionary's entries still has one entry per label with the right count |
| PlaceTypes.TalliesArePermutations | PlaceTypesTester.cs:188-211 | any two lists meeting the counting contract hold the same entries, so the result is a permutation of the dictionary whatever the sort does with ties |
| PlaceTypes.EmptyTally | PlaceTypesTester.cs:205-209 | the dictionary is empty exactly when no result contributed a label |
| PlaceTypes.GetNearbyPlaceTypes | PlaceTypesTester.cs:182-212 | null exactly when the response is null, its `results` is null, or no labels were found (no results, or all `types` null); otherwise one entry per distinct label with its occurrence count, non-increasing by count, counts summing to the number of labels |
| PlaceTypes.FindNearbyPlaceTypes | PlaceTypesTester.cs:177-212 | for the URL built from the coordinate, a ranking comes back exactly when the fetch delivered a non-null response with status "OK", non-null results and at least one label, and it then ranks that response's labels |

## Left out

- The menu loop, all console reads and writes, and `OutputNearbyPlaceTypes` / `OutputCurrentLocation` (PlaceTypesTester.cs:17-91): user interface only. The lines read become `Option<string>` inputs.
- Opening the Google Maps URL with `Process.Start` (PlaceTypesTester.cs:63-71): a call into the operating system shell.
- `GetCurrentDeviceLocation` (PlaceTypesTester.cs:97-137): polls a host sensor after sleeping; its only logic maps sensor states to messages.
- NearbySearch.CreateUrl: the URL builder is modelled only for finite coordinates. It takes the real-valued `Coordinate`, so the source's path where a NaN coordinate accepted by `GetLocationFromUser` (PlaceTypesTester.cs:38) goes straight into `CreateURL` (PlaceTypesTester.cs:180) cannot be represented.
- The `HttpClient` GET and `JsonSerializer.Deserialize` (PlaceTypesTester.cs:265-268): network and library calls. Their outcome is the abstract `Fetched` value, produced by the `fetch` parameter of `FindNearbyPlaceTypes`.
- The exception-to-message mapping (PlaceTypesTester.cs:276-289): it only chooses a log line. Every exception becomes `Thrown`.
- `double.TryParse`, `double` rounding and the culture-dependent rendering of a `double` into the URL: floating point and locale behaviour. Parsing is the `tryParse` parameter. Finite doubles are exact reals. Rendering is the `format` parameter.
- NearbySearch.CreateUrlParses: the round trip assumes no rendered coordinate or type label contains `&`. The source escapes nothing, so a label holding `&` produces a URL whose parameters cannot be recovered. The round trip is also about the raw URL text only: `Query.Parse` does no percent-decoding and treats `#`, `+` and `%` as plain characters, so what the server reads from a value holding them can differ from the value the caller passed.
- NearbySearch.LocationRoundTrip: assumes the rendering contains no comma. In a culture with a decimal comma the source's `location` value holds three commas and is ambiguous.
- PlaceTypes.CountPlaceTypes: the model's sequences cannot hold null elements, so two crashes of the source are not modelled. A null element of `results` makes `result.types` throw a NullReferenceException (PlaceTypesTester.cs:191). A null label inside `types` makes `ContainsKey` throw an ArgumentNullException (PlaceTypesTester.cs:194). Neither is caught in `GetNearbyPlaceTypes`, so either ends the process. Counts are unbounded `nat`s, so the wrap-around of the unchecked 32-bit `int` count at PlaceTypesTester.cs:196 is not modelled either.
- The dictionary's initial capacity of 150 (PlaceTypesTester.cs:188): a performance hint with no effect on the result.
- The console messages printed on each rejection and null result: the error kind or the None result stands for them.

## Findings

| source | as written | input that shows it | evidently intended | confidence | as-written member | corrected member |
|---|---|---|---|---|---|---|
| PlaceTypesTester.cs:156-165 | a value is rejected only if it is below the lower bound or above the upper bound | the line "NaN", which `double.TryParse` accepts as NaN; NaN compares false both ways, so a NaN coordinate is returned | accept only numbers lying in [-90, 90] and [-180, 180], as the error messages say | medium, not executed | Coordinates.GetLocationFromUserAsWritten (shown by Coordinates.NaNAcceptedAsWritten) | Coordinates.GetLocationFromUser |
