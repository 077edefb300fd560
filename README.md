# HummingKit response handling, pagination and request building, in Dafny

HummingKit is a Swift client for the Apple Music API. This project models three parts of it:

- **Response handling** (`HelperFunctions.swift`):
  - the vendor's HTTP status table (`handleResponseStatusCode`);
  - the status code recovered from an Alamofire error (`handleResponseAFError`);
  - the three-valued response decoder (`decodeResponseStatus`);
  - the regular-expression search (`regexSearch`), for the one pattern the library uses, `(\d{2,})`.
- **Library pagination** (`AppleMusicInfoFetch.swift`):
  - the offset extractor `offsetMatches`;
  - the page closure of `fetchPartialUserLibrarySongs` / `fetchPartialUserLibraryPlaylists`;
  - the self-recursive `goto()` of `fetchAllUserLibrarySongs` / `fetchAllUserLibraryPlaylists`, which keeps `allFullInfo`, `offset` and `finished` in its closures;
  - the error and status branch of `fetchUserStorefront`.
- **Request building** (`HummingKitRequestFactory.swift`):
  - every builder, as a request descriptor made of method, scheme, host, path, query items, headers and JSON body.

Modules:

| file | module | what it holds |
|---|---|---|
| `base.dfy` | `Base` | `Option` (Swift's `T?`) and `Result` |
| `json.dfy` | `Json` | the part of SwiftyJSON's `JSON` the code relies on: subscripts, `.string`, `merged(with:)` |
| `transport.dfy` | `Transport` | the Alamofire response and error shapes; `JSON(value ?? "NA")` |
| `digit_runs.dfy` | `DigitRuns` | `(\d{2,})` as the maximal runs of two or more ASCII digits, and the last one |
| `helper_functions.dfy` | `HelperFunctions` | status table, Alamofire error code, decoder, `regexSearch` |
| `apple_music_info_fetch.dfy` | `AppleMusicInfoFetch` | `offsetMatches`, the page closure, the `goto()` loop, the storefront closure |
| `request_factory.dfy` | `RequestFactory` | the builders |

How the pieces are modelled:

- **The network.** A run of the paginator is a method over a sequence of responses: the k-th request it issues receives `responses[k]`. The method loops where the source recurses through `goto()`. It ends in one of three states:
  - `Done`: a page had no "next";
  - `Stalled`: a "next" was not a string, so the page closure returned without calling back;
  - `Awaiting`: the sequence ran out while a request was outstanding.
- **Offsets.** The offsets the run requests are recorded in `requested`. The method proves that they form a chain. The first offset is "0", and each later one is the offset extracted from the previous page's "next". The accumulator is proved to equal the page items collected so far.
- **Regex compilation.** The outcome of compiling the pattern is an input (`CompiledPattern`), so the error paths of `regexSearch` and `offsetMatches` are modelled.
- **Loop builders.** The builders that loop in the source are methods with loop invariants:
  - the four query stacks of `createAddResourcesToLibraryRequest`;
  - the search parameters of `createSearchRequest`;
  - the song entries of the two playlist bodies.

  The straight-line builders are one `Endpoint` constructor each, and `Build` makes the request for any of them.

Where the code and its own description disagree, the model follows the code:

- **The paginator does not decode the response status.** A failed response has no value, so `JSON(value ?? "NA")` reads as the string "NA". That string has no "next", so the page counts as the final one. Its "data" is null, and merging null into the array accumulator fails and is ignored. So a transport failure in the middle of a listing silently ends the run as if the listing were complete (`FailedResponseIsFinalPage`, `FailedSecondPageRun`).
- **The paginator never calls its caller's completion.** The call is commented out. The model records the final state instead.
- **A one-digit offset is not extracted.** The pattern needs at least two digits (this is what keeps the "1" of "/v1" from matching), so "offset=2" yields "" (`SingleDigitOffsetIsLost`).

## Model

| member | source | states |
|---|---|---|
| `Json.Lookup` | HummingKit/AppleMusicInfoFetch.swift:188 | `json[key].exists()` holds exactly for an object with that key, and then gives its member |
| `Json.Field` | HummingKit/AppleMusicInfoFetch.swift:185 | `json["data"]` reads the member, or null when there is none |
| `Json.StringValue` | HummingKit/AppleMusicInfoFetch.swift:190 | `.string` is present exactly for a string value and gives its text |
| `Json.Merged` | HummingKit/AppleMusicInfoFetch.swift:209-213 | `merged(with:)` throws exactly when the two values differ in type; two arrays concatenate in order |
| `Transport.BodyOrNA` | HummingKit/AppleMusicInfoFetch.swift:184 | `JSON(response.result.value ?? "NA")` is the body on success and the string "NA" on failure |
| `DigitRuns.RunEnd` | Sources/HummingKit/HelperFunctions.swift:23-25 | the greedy `\d` repetition stops at the first non-digit or at the end of the text |
| `DigitRuns.MatchesFromEmpty` | Sources/HummingKit/HelperFunctions.swift:24-25 | the search finds no match from a position exactly when no two adjacent digits occur after it |
| `DigitRuns.MatchesFromEndWithLastRun` | Sources/HummingKit/HelperFunctions.swift:24-28 | the last match reported is a maximal digit run after which no two adjacent digits occur |
| `DigitRuns.LastMaximalRunIsUnique` | Sources/HummingKit/HelperFunctions.swift:30 | there is at most one last maximal run, so `.last` is well defined |
| `DigitRuns.LastMatch` | Sources/HummingKit/HelperFunctions.swift:26-30 | `matches.map{…}.last` is absent exactly when the text has no two adjacent digits; otherwise it is the last maximal run, of length at least 2 |
| `DigitRuns.LastMatchIsLastRun` | Sources/HummingKit/HelperFunctions.swift:30 | conversely, the last maximal run of a text is what the search returns |
| `HelperFunctions.HandleResponseStatusCode` | Sources/HummingKit/HelperFunctions.swift:92-143 | success exactly for 200, 201, 202 and 204; every code outside the table gets `(false, "Unknown Status Code", "No Description Available.")` |
| `HelperFunctions.CodeName` | Sources/HummingKit/HelperFunctions.swift:94-139 | the name column of the documented rows (501 spelled "Not Implemeneted" as in the source); no documented name is the fallback's "Unknown Status Code" |
| `HelperFunctions.Description` | Sources/HummingKit/HelperFunctions.swift:94-139 | the description column, verbatim; no documented description is the fallback's "No Description Available." |
| `HelperFunctions.UnknownStatusExactlyForUndocumented` | Sources/HummingKit/HelperFunctions.swift:140-141 | the fallback row is returned for exactly the codes the table does not list |
| `HelperFunctions.HandleResponseAFError` | Sources/HummingKit/HelperFunctions.swift:151-184 | the code of an unacceptable-status-code validation failure, otherwise the error's `_code`; the `statusCode` argument never matters |
| `HelperFunctions.DecodeResponseStatus` | Sources/HummingKit/HelperFunctions.swift:50-86 | success exactly when a status is present, is a success code and there is no Alamofire or URL error; the error is returned exactly for an Alamofire error with a status, or for a URL error; JSON (the body or "NA") exactly on success |
| `HelperFunctions.DecodedIsOneOfThree` | Sources/HummingKit/HelperFunctions.swift:50-86 | every result is success with JSON, a failure with an error, or a bare failure |
| `HelperFunctions.RegexSearch` | Sources/HummingKit/HelperFunctions.swift:18-44 | an uncompilable pattern returns its error; otherwise the search succeeds or reports `responseCorrupted`, the latter exactly when there is no match, and success carries the last maximal digit run |
| `AppleMusicInfoFetch.OffsetMatches` | HummingKit/AppleMusicInfoFetch.swift:230-243 | "" for an uncompilable pattern; otherwise "" exactly when there is no run of two digits, else the last maximal run |
| `AppleMusicInfoFetch.OffsetMatchesAgreesWithRegexSearch` | HummingKit/AppleMusicInfoFetch.swift:230-243 | `offsetMatches` is `regexSearch` with every failure read as "" |
| `AppleMusicInfoFetch.OffsetOfNextLink` | HummingKit/AppleMusicInfoFetch.swift:191 | "/v1/me/library/songs?offset=100" yields "100" |
| `AppleMusicInfoFetch.LaterRunWins` | HummingKit/AppleMusicInfoFetch.swift:238 | of two runs ("limit=25&offset=50") the later one, "50", is taken |
| `AppleMusicInfoFetch.SingleDigitOffsetIsLost` | HummingKit/AppleMusicInfoFetch.swift:191 | "…?offset=2" yields "" |
| `AppleMusicInfoFetch.PartialPage` | HummingKit/AppleMusicInfoFetch.swift:182-201 | the page handed on is always the response's "data" member, and a final page carries offset ""; its full case analysis is `PartialPageOutcomes` |
| `AppleMusicInfoFetch.PartialPageOutcomes` | HummingKit/AppleMusicInfoFetch.swift:184-200 | the page closure stays silent exactly when "next" exists and is not a string; the page is final exactly when "next" is missing, and then the offset is ""; otherwise the offset is the last digit run of "next" |
| `AppleMusicInfoFetch.FailedResponseIsFinalPage` | HummingKit/AppleMusicInfoFetch.swift:184-196 | a failed response completes as a final page with null data and offset "" |
| `AppleMusicInfoFetch.CollectedConcatenatesData` | HummingKit/AppleMusicInfoFetch.swift:209-213 | when every page's data is an array, the accumulator is their in-order concatenation |
| `AppleMusicInfoFetch.MergeOrKeep` | HummingKit/AppleMusicInfoFetch.swift:209-213 | an array page is appended to the accumulator; any other page fails the merge and leaves it unchanged |
| `AppleMusicInfoFetch.Goto` | HummingKit/AppleMusicInfoFetch.swift:204-217 | one `goto()` issues exactly one request, at the current offset; it handles the next response if one was delivered and otherwise leaves a request outstanding; the accumulator stays an array and never shrinks |
| `AppleMusicInfoFetch.GotoKeepsConsistent` | HummingKit/AppleMusicInfoFetch.swift:204-217 | one `goto()` keeps the run consistent (offset chain, accumulator, state) and either handles a response or stops |
| `AppleMusicInfoFetch.FetchAllUserLibrary` | HummingKit/AppleMusicInfoFetch.swift:169-227 | the first request is at "0" and each later one at the previous page's extracted offset; the run stops only at a page without "next" (offset ""), at a non-string "next", or with a request outstanding; the accumulator is the collected page items; `finished` exactly when done |
| `AppleMusicInfoFetch.PageWithNextLink` | HummingKit/AppleMusicInfoFetch.swift:188-193 | a page whose "next" is "/v1/me/library/songs?offset=100" continues at offset "100" with its data |
| `AppleMusicInfoFetch.LastPage` | HummingKit/AppleMusicInfoFetch.swift:194-196 | a page without "next" is final, with offset "" and its data |
| `AppleMusicInfoFetch.TwoPageRun` | HummingKit/AppleMusicInfoFetch.swift:204-224 | two pages linking "0" → "100" give exactly two requests and the items of both pages, in order |
| `AppleMusicInfoFetch.LinkedPagesRun` | HummingKit/AppleMusicInfoFetch.swift:182-224 | two concrete pages, the first linking to `offset=100` and the second without "next", give requests "0" and "100" and all three items in order |
| `AppleMusicInfoFetch.FailedSecondPageRun` | HummingKit/AppleMusicInfoFetch.swift:184-216 | a transport failure on the second page ends the run as done, with the first page's items only and no third request |
| `AppleMusicInfoFetch.FetchUserStorefront` | HummingKit/AppleMusicInfoFetch.swift:81-93 | an Alamofire or URL error gives two completions, `(false, error, nil)` then `(true, nil, JSON(value ?? "NA"))`; otherwise only the latter |
| `AppleMusicInfoFetch.StorefrontErrorThenNA` | HummingKit/AppleMusicInfoFetch.swift:81-93 | after an error the caller hears a failure, then a success whose result is "NA" |
| `AppleMusicInfoFetch.StorefrontStatusCode` | HummingKit/AppleMusicInfoFetch.swift:48-74 | the logged status is the HTTP status unless an Alamofire error overwrites it; it is absent, so `statusCode!` at line 90 traps, exactly when there is neither an HTTP response nor an Alamofire error |
| `AppleMusicInfoFetch.StorefrontStatusMatchesAFErrorCode` | HummingKit/AppleMusicInfoFetch.swift:48-74 | the storefront closure's inline code recovery agrees with `handleResponseAFError` |
| `AppleMusicInfoFetch.StorefrontFirstCallMatchesDecoder` | HummingKit/AppleMusicInfoFetch.swift:81-86 | where the decoder reports an error, the storefront's first completion is the decoder's triple |
| `AppleMusicInfoFetch.StorefrontReportsSuccessAfterFailure` | HummingKit/AppleMusicInfoFetch.swift:48-93 | a JSON serialization failure of a status-500 response (an Alamofire error, so the logged status is present and line 90 does not trap) is reported as a failure and then as a success with "NA" |
| `AppleMusicInfoFetch.FetchUserStorefrontOnce` | HummingKit/AppleMusicInfoFetch.swift:81-93 | the intended closure calls back once: success exactly without an Alamofire or URL error |
| `AppleMusicInfoFetch.StorefrontOnceIsFirstCall` | HummingKit/AppleMusicInfoFetch.swift:81-93 | the intended closure's one call is the written closure's first call |
| `RequestFactory.Headers` | HummingKit/HummingKitRequestFactory.swift:59-60 | the bearer developer token first, and the user token exactly when the builder adds it; one or two headers, nothing else |
| `RequestFactory.MakeRequest` | HummingKit/HummingKitRequestFactory.swift:42-47 | every request is https to api.music.apple.com, with the given path, query, method and body, the developer token first, and the user token (and no other header) exactly when asked |
| `RequestFactory.EndpointPath` | HummingKit/HummingKitRequestFactory.swift:52-641 | each straight-line builder's `urlComponents.path`; every one lies under "/v1/" |
| `RequestFactory.SendsUserToken` | HummingKit/HummingKitRequestFactory.swift:52-641 | which builders add `Music-User-Token`; every builder whose path is under `/v1/me` does |
| `RequestFactory.Build` | HummingKit/HummingKitRequestFactory.swift:52-641 | every straight-line builder issues a GET without a body, authorised with "Bearer " + developer token |
| `RequestFactory.UserTokenExactlyOnMePaths` | HummingKit/HummingKitRequestFactory.swift:52-641 | the user token is sent exactly for paths under `/v1/me` and for the catalog song, multiple catalog songs and catalog playlists requests |
| `RequestFactory.PaginatedRequests` | HummingKit/HummingKitRequestFactory.swift:608-641 | the paginated builders target `/v1/me/library/songs` and `/v1/me/library/playlists` with the query `[limit=100, offset]` in that order, and the user token |
| `RequestFactory.PaginatedRequestsDefaultToFirstPage` | HummingKit/HummingKitRequestFactory.swift:608-633 | with the default offset argument the paginated builders ask for offset "0" |
| `RequestFactory.MultiIDQuery` | HummingKit/HummingKitRequestFactory.swift:83-96 | a multi-ID builder sends the single item `ids`, whose value splits at "," back into the comma-free identifiers |
| `RequestFactory.Join` | HummingKit/HummingKitRequestFactory.swift:88 | `joined(separator: ",")` begins with the first identifier; its round trip is `SplitJoin` |
| `RequestFactory.SplitJoin` | HummingKit/HummingKitRequestFactory.swift:88 | `joined(separator: ",")` of one or more comma-free identifiers is undone by splitting at "," |
| `RequestFactory.QueryValue` | HummingKit/HummingKitRequestFactory.swift:613 | a query item is found by name exactly when one has that name |
| `RequestFactory.CatalogSongPath` | HummingKit/HummingKitRequestFactory.swift:408-419 | the catalog song path is "/v1/catalog/" + storefront + "/songs/" + song identifier |
| `RequestFactory.CatalogPlaylistsPath` | HummingKit/HummingKitRequestFactory.swift:536-552 | the catalog playlists path is "/v1/catalog/" + storefront + "/playlists/", ending in "/" |
| `RequestFactory.Stacked` | HummingKit/HummingKitRequestFactory.swift:245-267 | one stack holds one item per identifier, in input order |
| `RequestFactory.ValuesAppend` | HummingKit/HummingKitRequestFactory.swift:270 | reading values by name distributes over concatenating query lists |
| `RequestFactory.ValuesOfStacked` | HummingKit/HummingKitRequestFactory.swift:245-267 | a stack read back by its own name gives the identifiers, and by any other name nothing |
| `RequestFactory.StackQueryItems` | HummingKit/HummingKitRequestFactory.swift:246-249 | the loop builds the stack |
| `RequestFactory.CreateAddResourcesToLibraryRequest` | HummingKit/HummingKitRequestFactory.swift:240-282 | a POST to `/v1/me/library` with both tokens; the query is the song, album, playlist and music-video stacks in that order, its length is the sum of the four counts, and reading it back by item name recovers each list |
| `RequestFactory.AddResourcesReadBack` | HummingKit/HummingKitRequestFactory.swift:269-273 | each identifier list is recovered from the combined query by its item name |
| `RequestFactory.PlusForSpace` | HummingKit/HummingKitRequestFactory.swift:566 | every space becomes "+", every other character stays, the length is kept |
| `RequestFactory.SearchParameters` | HummingKit/HummingKitRequestFactory.swift:566-569 | `urlParameters` has exactly the keys term, limit and types, and the term has its spaces rewritten to "+" |
| `RequestFactory.CreateSearchRequest` | HummingKit/HummingKitRequestFactory.swift:561-583 | a GET to `/v1/catalog/<storefront>/search` with only the developer token; whatever the dictionary's order, the query holds exactly `term` (spaces rewritten), `limit=10` and `types=songs,albums`, once each |
| `RequestFactory.SongEntries` | HummingKit/HummingKitRequestFactory.swift:655-659 | one `{id, type: "songs"}` entry per identifier, in input order |
| `RequestFactory.EntryIDsOfSongEntries` | HummingKit/HummingKitRequestFactory.swift:655-661 | reading the entries' "id" members back gives the identifiers, in order |
| `RequestFactory.BuildSongEntries` | HummingKit/HummingKitRequestFactory.swift:655-659 | the loop builds the entries |
| `RequestFactory.CreateAddSongsToPlaylistRequest` | HummingKit/HummingKitRequestFactory.swift:650-672 | a POST to `/v1/me/library/playlists/<id>/tracks` with both tokens, whose body's "data" is the song entries, from which the identifiers read back in order |
| `RequestFactory.NewPlaylistBody` | HummingKit/HummingKitRequestFactory.swift:688-696 | the body holds name and description under "attributes" and the entries under "relationships" → "tracks" → "data" |
| `RequestFactory.CreateCreateNewPlaylistRequest` | HummingKit/HummingKitRequestFactory.swift:682-707 | a POST to `/v1/me/library/playlists` with both tokens and that body |
| `RequestFactory.NewPlaylistTracksReadBack` | HummingKit/HummingKitRequestFactory.swift:689-696 | the new playlist's track identifiers read back from the body in order |

## Left out

- `fetchUserToken` (StoreKit's cloud service controller and `UserDefaults`): foreign, callback-driven calls.
- All `print` logging: it has no functional effect. The code `decodeResponseStatus` recovers with `handleResponseAFError` is only logged.
- The Alamofire transport and the asynchronous delivery of responses: a run is given its responses as a sequence.
- `AppleMusicRequestFactory`, which the fetch functions call to build their requests, is not part of this model. A paginator request is identified by its offset alone.
- The trap of the force-unwrap `statusCode!` in `fetchUserStorefront` (line 90). `StorefrontStatusCode` states exactly when it occurs: neither an HTTP response nor an Alamofire error, for example a URL error with no response. `FetchUserStorefront` does not stop there; it lists the completions as if the log line had passed.
- `NSRegularExpression` in general: only `(\d{2,})` is modelled, with ASCII digits. `\d` also matches other Unicode decimal digits.
- SwiftyJSON beyond what the code uses. Numbers are integers only. The untypechecked member-by-member merge of nested objects is modelled, but only the typechecked top level is stated.
- Percent-encoding by `URLComponents`, the `url!` force-unwrap, `JSONSerialization` of the bodies (the model keeps the JSON value), and the difference between a nil and an empty `queryItems`.
- `CreateSearchRequest`: the order of the query items is an input `keyOrder`, because Swift's dictionary iteration order is unspecified. So the contract fixes the items and their multiplicity, not their order.
- `FetchAllUserLibrary`: models `fetchAllUserLibrarySongs` and `fetchAllUserLibraryPlaylists` as one method. They differ only in the request they issue, which is not modelled.
- Multiple catalog songs by ISRC: the source has only a placeholder for it.

## Findings

| source | as written | input that shows it | evidently intended | confidence | as-written member | corrected member |
|---|---|---|---|---|---|---|
| HummingKit/AppleMusicInfoFetch.swift:81-93 | after `completion(false, error, nil)` the closure falls through and also calls `completion(true, nil, JSON(value ?? "NA"))` | a status-500 response whose body is not JSON, so `responseJSON` fails with `responseSerializationFailed` (an Alamofire error, which sets `statusCode` at line 50) | return after reporting the error, so the caller hears exactly one completion | not executed | `AppleMusicInfoFetch.StorefrontReportsSuccessAfterFailure` | `AppleMusicInfoFetch.FetchUserStorefrontOnce` |
