/** The library-listing paginator, the offset extractor it uses, and the storefront fetch's inline
    error handling. The network is an input: the k-th request the paginator issues receives
    `responses[k]`. */
module AppleMusicInfoFetch {
  import opened Base
  import opened Json
  import opened Transport
  import opened DigitRuns
  import opened HelperFunctions

  // ---------------------------------------------------------------------------------------------
  // offsetMatches
  // ---------------------------------------------------------------------------------------------

  /** The last match of the pattern in `text`, or "" when there is none or the pattern does not compile. */
  function OffsetMatches(pattern: CompiledPattern, text: string): (r: string)
    ensures pattern.CompileError? ==> r == ""
    ensures pattern.DigitRunPattern? ==> (r == "" <==> !HasDigitPairFrom(text, 0))
    ensures pattern.DigitRunPattern? && r != "" ==>
      exists i: nat, j: nat :: LastMaximalRun(text, i, j) && r == text[i..j]
  {
    match pattern
    case CompileError(_) => ""
    case DigitRunPattern => LastMatch(text).GetOr("")
  }

  /** The two digit-run searches agree wherever `regexSearch` succeeds; where it fails, whether with
      `responseCorrupted` or with a pattern error, `offsetMatches` answers "". */
  lemma OffsetMatchesAgreesWithRegexSearch(pattern: CompiledPattern, text: string)
    ensures OffsetMatches(pattern, text) ==
      match RegexSearch(pattern, text)
      case Success(digits) => digits
      case Failure(_) => ""
  {
  }

  /** The offset of a typical "next" link: the run after `offset=`; the "1" of "/v1" is too short to match. */
  lemma OffsetOfNextLink(next: string)
    requires next == "/v1/me/library/songs?offset=100"
    ensures OffsetMatches(DigitRunPattern, next) == "100"
  {
    assert LastMaximalRun(next, 28, 31);
    LastMatchIsLastRun(next, 28, 31);
    assert next[28..31] == "100";
  }

  /** With two runs of two or more digits, the later one is the offset. */
  lemma LaterRunWins(next: string)
    requires next == "limit=25&offset=50"
    ensures OffsetMatches(DigitRunPattern, next) == "50"
  {
    assert LastMaximalRun(next, 16, 18);
    LastMatchIsLastRun(next, 16, 18);
    assert next[16..18] == "50";
  }

  /** A one-digit offset is no match, so it is lost. */
  lemma SingleDigitOffsetIsLost(next: string)
    requires next == "/v1/me/library/songs?offset=2"
    ensures OffsetMatches(DigitRunPattern, next) == ""
  {
    assert forall k :: 0 <= k < |next| && IsDigit(next[k]) ==> k == 2 || k == 28;
  }

  // ---------------------------------------------------------------------------------------------
  // fetchPartialUserLibrarySongs / fetchPartialUserLibraryPlaylists: one page
  // ---------------------------------------------------------------------------------------------

  /** `(partialInfo, nextOffset, finished)` as the page callback passes it on. */
  datatype PageResult = PageResult(partialInfo: Json, nextOffset: string, isFinished: bool)

  /** The response closure of the partial fetch: the body (or "NA") read as JSON, its "data" member as
      the page, and the offset taken from "next". None: the closure returns without calling its completion. */
  function PartialPage(response: DataResponse): (r: Option<PageResult>)
    ensures r.Some? ==> r.value.partialInfo == Field(BodyOrNA(response), "data")
    ensures r.Some? && r.value.isFinished ==> r.value.nextOffset == ""
  {
    var currentJson := BodyOrNA(response);
    var info := Field(currentJson, "data");
    match Lookup(currentJson, "next")
    case None => Some(PageResult(info, "", true))
    case Some(next) =>
      match StringValue(next)
      case None => None
      case Some(nextString) => Some(PageResult(info, OffsetMatches(DigitRunPattern, nextString), false))
  }

  /** A page is final exactly when its JSON has no "next" member, and then the next offset stays "";
      a "next" that is not a string makes the closure return without completing; otherwise the next
      offset is the last run of two or more digits in "next" (or "" if it has none). */
  lemma PartialPageOutcomes(response: DataResponse)
    ensures var current := BodyOrNA(response); var page := PartialPage(response);
      && (page.None? <==> Lookup(current, "next").Some? && !Lookup(current, "next").value.JString?)
      && (page.Some? ==> page.value.partialInfo == Field(current, "data"))
      && (page.Some? ==> (page.value.isFinished <==> Lookup(current, "next").None?))
      && (page.Some? && page.value.isFinished ==> page.value.nextOffset == "")
      && (page.Some? && !page.value.isFinished ==>
            var next := Lookup(current, "next").value.s;
            (page.value.nextOffset == "" <==> !HasDigitPairFrom(next, 0)) &&
            (page.value.nextOffset != "" ==>
              exists i: nat, j: nat :: LastMaximalRun(next, i, j) && page.value.nextOffset == next[i..j]))
  {
  }

  /** A response without a value (any transport failure) reads as the string "NA": a final page whose
      "data" is null. */
  lemma FailedResponseIsFinalPage(response: DataResponse)
    requires response.result.Failure?
    ensures PartialPage(response) == Some(PageResult(JNull, "", true))
  {
  }

  /** The page has a "next" and the run goes on. */
  predicate PageContinues(response: DataResponse) {
    PartialPage(response).Some? && !PartialPage(response).value.isFinished
  }

  /** What handling one page appends to the accumulator: the page's data items when the merge succeeds
      (the accumulator is always an array, so exactly when "data" is an array), nothing otherwise. */
  function PageItems(response: DataResponse): seq<Json>
  {
    match PartialPage(response)
    case Some(page) => if page.partialInfo.JArray? then page.partialInfo.items else []
    case None => []
  }

  /** The accumulator after these responses were handled in order, starting from `[]`. */
  function Collected(responses: seq<DataResponse>): seq<Json>
  {
    if responses == [] then []
    else Collected(responses[..|responses| - 1]) + PageItems(responses[|responses| - 1])
  }

  lemma CollectedStep(responses: seq<DataResponse>, n: nat)
    requires n < |responses|
    ensures Collected(responses[..n + 1]) == Collected(responses[..n]) + PageItems(responses[n])
  {
    assert responses[..n + 1][..n] == responses[..n];
  }

  /** When every page's "data" is an array, the accumulator is the in-order concatenation of them. */
  lemma {:induction false} CollectedConcatenatesData(responses: seq<DataResponse>, data: seq<seq<Json>>)
    requires |data| == |responses|
    requires forall k :: 0 <= k < |responses| ==>
      PartialPage(responses[k]).Some? && PartialPage(responses[k]).value.partialInfo == JArray(data[k])
    ensures Collected(responses) == Flatten(data)
  {
    if responses != [] {
      var n := |responses| - 1;
      CollectedConcatenatesData(responses[..n], data[..n]);
      assert data == data[..n] + [data[n]];
      FlattenAppend(data[..n], data[n]);
    }
  }

  function Flatten(xss: seq<seq<Json>>): seq<Json> {
    if xss == [] then [] else xss[0] + Flatten(xss[1..])
  }

  lemma {:induction false} FlattenAppend(xss: seq<seq<Json>>, xs: seq<Json>)
    ensures Flatten(xss + [xs]) == Flatten(xss) + xs
  {
    if xss != [] {
      assert (xss + [xs])[1..] == xss[1..] + [xs];
      FlattenAppend(xss[1..], xs);
    }
  }

  // ---------------------------------------------------------------------------------------------
  // fetchAllUserLibrarySongs / fetchAllUserLibraryPlaylists: the goto() loop
  // ---------------------------------------------------------------------------------------------

  /** Every request after the first asks for the offset the previous page linked to, and that page had
      a "next". */
  ghost predicate OffsetChain(responses: seq<DataResponse>, requested: seq<string>) {
    |requested| <= |responses| + 1 &&
    forall k :: 0 <= k < |requested| - 1 ==>
      PageContinues(responses[k]) && requested[k + 1] == PartialPage(responses[k]).value.nextOffset
  }

  lemma OffsetChainExtends(responses: seq<DataResponse>, requested: seq<string>, offset: string)
    requires OffsetChain(responses, requested) && |requested| <= |responses|
    requires |requested| > 0 ==>
      PageContinues(responses[|requested| - 1]) &&
      offset == PartialPage(responses[|requested| - 1]).value.nextOffset
    ensures OffsetChain(responses, requested + [offset])
  {
    var extended := requested + [offset];
    forall k | 0 <= k < |extended| - 1
      ensures PageContinues(responses[k]) && extended[k + 1] == PartialPage(responses[k]).value.nextOffset
    {
      if k + 1 < |requested| {
        assert extended[k + 1] == requested[k + 1];
      }
    }
  }

  /** The `do { try allFullInfo = allFullInfo.merged(with: …) } catch { }` step of goto's completion:
      a page that is not an array fails the merge and leaves the accumulator as it was. */
  function MergeOrKeep(allFullInfo: Json, partialInfo: Json): (merged: Json)
    requires allFullInfo.JArray?
    ensures partialInfo.JArray? ==> merged == JArray(allFullInfo.items + partialInfo.items)
    ensures !partialInfo.JArray? ==> merged == allFullInfo
  {
    match Merged(allFullInfo, partialInfo)
    case Success(m) => m
    case Failure(_) => allFullInfo
  }

  /** Where a pagination run stands once the model stops following it. */
  datatype RunState =
    | Running
      /** a page without "next" set `finished`: goto() returns; the caller's completion is never called */
    | Done
      /** "next" was not a string: the page closure returned without calling goto's completion */
    | Stalled
      /** a request is outstanding and the transport has delivered no further response */
    | Awaiting

  /** The state the closures of a run share: `allFullInfo`, `offset` and `finished`, the offsets
      `requested` so far and the number of responses `handled`. */
  datatype Run = Run(allFullInfo: Json, offset: string, finished: bool,
                     requested: seq<string>, handled: nat, state: RunState)

  /** One call of goto() while `finished` is false: request the page at `offset`, then handle the
      next response, if the transport has delivered one. */
  function Goto(responses: seq<DataResponse>, run: Run): (next: Run)
    requires run.handled <= |responses| && run.allFullInfo.JArray?
    ensures next.requested == run.requested + [run.offset]
    ensures next.state.Awaiting? <==> run.handled == |responses|
    ensures next.handled == if run.handled == |responses| then run.handled else run.handled + 1
    ensures next.allFullInfo.JArray? && |next.allFullInfo.items| >= |run.allFullInfo.items|
  {
    var requested := run.requested + [run.offset];
    if run.handled == |responses| then run.(requested := requested, state := Awaiting)
    else
      match PartialPage(responses[run.handled])
      case None => run.(requested := requested, handled := run.handled + 1, state := Stalled)
      case Some(page) =>
        run.(allFullInfo := MergeOrKeep(run.allFullInfo, page.partialInfo), offset := page.nextOffset,
             finished := page.isFinished, requested := requested, handled := run.handled + 1,
             state := if page.isFinished then Done else Running)
  }

  /** What a run has established about the responses it handled: the requested offsets form a chain,
      the accumulator holds the pages collected so far, and the state says why the run stopped. */
  ghost predicate Consistent(responses: seq<DataResponse>, run: Run) {
    var handled := run.handled;
    var requested := run.requested;
    && handled <= |responses| && handled <= |requested| <= handled + 1
    && (|requested| >= 1 ==> requested[0] == "0")
    && OffsetChain(responses, requested)
    && (run.finished <==> run.state.Done?)
    && run.allFullInfo == JArray(Collected(responses[..handled]))
    && match run.state
       case Running =>
         && |requested| == handled
         && (handled == 0 ==> run.offset == "0")
         && (handled > 0 ==>
               PageContinues(responses[handled - 1]) &&
               run.offset == PartialPage(responses[handled - 1]).value.nextOffset)
       case Done =>
         1 <= handled == |requested| && PartialPage(responses[handled - 1]).Some? &&
         PartialPage(responses[handled - 1]).value.isFinished && run.offset == ""
       case Stalled =>
         1 <= handled == |requested| && PartialPage(responses[handled - 1]).None? &&
         run.offset == requested[handled - 1]
       case Awaiting =>
         handled == |responses| && |requested| == handled + 1 && run.offset == requested[handled]
  }

  /** A running run stays consistent across one goto(), and it either handles a response or stops. */
  lemma GotoKeepsConsistent(responses: seq<DataResponse>, run: Run)
    requires Consistent(responses, run) && run.state.Running?
    ensures Goto(responses, run).handled == run.handled + 1 || Goto(responses, run).state.Awaiting?
    ensures Consistent(responses, Goto(responses, run))
  {
    OffsetChainExtends(responses, run.requested, run.offset);
    if run.handled < |responses| {
      PartialPageOutcomes(responses[run.handled]);
      CollectedStep(responses, run.handled);
    }
  }

  /** goto() as a loop over the state captured by the closures, `allFullInfo`, `offset` and `finished`.
      `requested` lists the offsets of the requests issued, `handled` counts the responses handled. */
  method FetchAllUserLibrary(responses: seq<DataResponse>)
    returns (allFullInfo: Json, offset: string, finished: bool,
             requested: seq<string>, handled: nat, state: RunState)
    ensures state.Done? || state.Stalled? || state.Awaiting?
    ensures handled <= |responses| && handled <= |requested| <= handled + 1 && 1 <= |requested|
    ensures requested[0] == "0"
    ensures OffsetChain(responses, requested)
    ensures state.Done? ==>
      handled == |requested| && PartialPage(responses[handled - 1]).Some? &&
      PartialPage(responses[handled - 1]).value.isFinished && offset == ""
    ensures state.Stalled? ==>
      handled == |requested| && PartialPage(responses[handled - 1]).None? &&
      offset == requested[handled - 1]
    ensures state.Awaiting? ==> handled == |responses| && |requested| == handled + 1 && offset == requested[handled]
    ensures finished <==> state.Done?
    ensures allFullInfo == JArray(Collected(responses[..handled]))
  {
    allFullInfo, offset, finished := JArray([]), "0", false;
    requested, handled, state := [], 0, Running;
    while state.Running?
      invariant Consistent(responses, Run(allFullInfo, offset, finished, requested, handled, state))
      decreases |responses| - handled, if state.Running? then 1 else 0
    {
      ghost var now := Run(allFullInfo, offset, finished, requested, handled, state);
      GotoKeepsConsistent(responses, now);
      // goto() with `finished` false: request the page at the current offset
      requested := requested + [offset];
      if handled == |responses| {
        state := Awaiting;
      } else {
        var page := PartialPage(responses[handled]);
        if page.None? {
          state := Stalled;
        } else {
          allFullInfo := MergeOrKeep(allFullInfo, page.value.partialInfo);
          offset := page.value.nextOffset;
          finished := page.value.isFinished;
          if finished {
            state := Done;
          }
        }
        handled := handled + 1;
      }
      assert Run(allFullInfo, offset, finished, requested, handled, state) == Goto(responses, now);
    }
  }

  /** A successful page with the given data and, optionally, a "next" link. */
  function Page(data: seq<Json>, next: Option<string>): DataResponse {
    var fields := map["data" := JArray(data)];
    DataResponse(Some(200), Success(JObject(if next.Some? then fields["next" := JString(next.value)] else fields)))
  }

  lemma PageWithNextLink(data: seq<Json>)
    ensures PartialPage(Page(data, Some("/v1/me/library/songs?offset=100"))) == Some(PageResult(JArray(data), "100", false))
  {
    OffsetOfNextLink("/v1/me/library/songs?offset=100");
  }

  lemma LastPage(data: seq<Json>)
    ensures PartialPage(Page(data, None)) == Some(PageResult(JArray(data), "", true))
  {
  }

  /** Two pages, the first with items `a, b` linking to offset 100 (as `Page([a, b], Some(link))` does)
      and the second with item `c` and no "next": exactly two requests, at "0" and "100", and the
      accumulator holds the items of both pages in order. */
  method TwoPageRun(first: DataResponse, second: DataResponse, a: Json, b: Json, c: Json)
    returns (allFullInfo: Json, requested: seq<string>, state: RunState)
    requires PartialPage(first) == Some(PageResult(JArray([a, b]), "100", false))
    requires PartialPage(second) == Some(PageResult(JArray([c]), "", true))
    ensures allFullInfo == JArray([a, b, c])
    ensures requested == ["0", "100"]
    ensures state.Done?
  {
    var responses := [first, second];
    var offset, finished, handled;
    allFullInfo, offset, finished, requested, handled, state := FetchAllUserLibrary(responses);
    assert handled == 2 && |requested| == 2;
    assert requested[1] == "100";
    assert responses[..2] == responses && responses[..2][..1] == [first] && [first][..0] == [];
    assert Collected(responses) == Collected([first]) + PageItems(second);
    assert Collected([first]) == Collected([]) + PageItems(first);
  }

  /** Two concrete pages as the API serves them: the first links to `offset=100`, the second has no
      "next". The run requests "0" and then "100", and collects `a, b, c`. */
  method LinkedPagesRun(a: Json, b: Json, c: Json) returns (allFullInfo: Json, requested: seq<string>, state: RunState)
    ensures allFullInfo == JArray([a, b, c])
    ensures requested == ["0", "100"]
    ensures state.Done?
  {
    PageWithNextLink([a, b]);
    LastPage([c]);
    allFullInfo, requested, state :=
      TwoPageRun(Page([a, b], Some("/v1/me/library/songs?offset=100")), Page([c], None), a, b, c);
  }

  /** A transport failure on the second of three pages: the failed response reads as a final page, so no
      third request is issued and the run ends as if the listing were complete, with the first page's
      items only. */
  method FailedSecondPageRun(first: DataResponse, third: DataResponse, a: Json, b: Json, failure: TransportError)
    returns (allFullInfo: Json, requested: seq<string>, state: RunState)
    requires PartialPage(first) == Some(PageResult(JArray([a, b]), "100", false))
    ensures allFullInfo == JArray([a, b])
    ensures requested == ["0", "100"]
    ensures state.Done?
  {
    var second := DataResponse(None, Failure(failure));
    FailedResponseIsFinalPage(second);
    var responses := [first, second, third];
    var offset, finished, handled;
    allFullInfo, offset, finished, requested, handled, state := FetchAllUserLibrary(responses);
    assert PageContinues(responses[0]) && !PageContinues(responses[1]) && PartialPage(responses[1]).Some?;
    assert handled == 2 && |requested| == 2;
    assert requested[1] == "100";
    assert responses[..2] == [first, second] && [first, second][..1] == [first] && [first][..0] == [];
    assert Collected([first, second]) == Collected([first]) + PageItems(second);
    assert Collected([first]) == Collected([]) + PageItems(first);
  }

  // ---------------------------------------------------------------------------------------------
  // fetchUserStorefront: the response closure
  // ---------------------------------------------------------------------------------------------

  /** One call of the caller's `completion(success, error, result)`. */
  datatype Completion = Completion(success: bool, error: Option<TransportError>, result: Option<Json>)

  /** The local `statusCode` when it is logged: an Alamofire error overwrites the HTTP status with the
      error's bridged code, or with the code of an unacceptable-status-code validation failure. It is
      absent, so the `statusCode!` that logs it traps, exactly when there is neither an HTTP response
      nor an Alamofire error. */
  function StorefrontStatusCode(response: DataResponse): (statusCode: Option<int>)
    ensures statusCode.None? <==> response.statusCode.None? && !FailedWithAFError(response)
    ensures !FailedWithAFError(response) ==> statusCode == response.statusCode
  {
    if FailedWithAFError(response) then
      var error := response.result.error.af;
      match error.errorCase
      case ResponseValidationFailed(UnacceptableStatusCode(code)) => Some(code)
      case _ => Some(error.bridgedCode)
    else response.statusCode
  }

  /** The completions, in order: an Alamofire or URL error first reports `(false, error, nil)`; then,
      whatever happened, `(true, nil, JSON(value ?? "NA"))` follows. */
  function FetchUserStorefront(response: DataResponse): (calls: seq<Completion>)
    ensures |calls| == (if FailedWithAFError(response) || FailedWithURLError(response) then 2 else 1)
    ensures calls[|calls| - 1] == Completion(true, None, Some(BodyOrNA(response)))
    ensures |calls| == 2 ==> calls[0] == Completion(false, Some(response.result.error), None)
  {
    var last := Completion(true, None, Some(BodyOrNA(response)));
    if FailedWithAFError(response) || FailedWithURLError(response) then
      [Completion(false, Some(response.result.error), None), last]
    else [last]
  }

  /** After an Alamofire or URL error the caller hears a failure and then a success whose result is the
      string "NA". */
  lemma StorefrontErrorThenNA(response: DataResponse)
    requires FailedWithAFError(response) || FailedWithURLError(response)
    ensures FetchUserStorefront(response) ==
      [Completion(false, Some(response.result.error), None), Completion(true, None, Some(JString("NA")))]
  {
  }

  /** The storefront closure recovers the same code from an Alamofire error as `handleResponseAFError`,
      whatever status was passed to the latter. */
  lemma StorefrontStatusMatchesAFErrorCode(response: DataResponse, anyStatus: int)
    requires FailedWithAFError(response)
    ensures StorefrontStatusCode(response) == Some(HandleResponseAFError(anyStatus, response.result.error.af))
  {
  }

  /** Where `decodeResponseStatus` reports an error object, the storefront's first completion reports the
      same triple. */
  lemma StorefrontFirstCallMatchesDecoder(response: DataResponse)
    requires DecodeResponseStatus(response).error.Some?
    ensures var d := DecodeResponseStatus(response);
      FetchUserStorefront(response)[0] == Completion(d.success, d.error, d.responseJSON)
  {
  }

  /** As written, a response whose JSON serialization failed (a status-500 page that is not JSON) is
      reported as a failure and then, at once, as a success whose result is "NA"; the Alamofire error
      supplies the status code, so the `statusCode!` between the two calls does not trap. */
  lemma StorefrontReportsSuccessAfterFailure()
    ensures var response := DataResponse(Some(500), Failure(AF(AFError(ResponseSerializationFailed("jsonSerializationFailed"), 4))));
      var calls := FetchUserStorefront(response);
      && StorefrontStatusCode(response) == Some(4)
      && |calls| == 2 && !calls[0].success && calls[1].success && calls[1].result == Some(JString("NA"))
  {
  }

  /** The storefront closure as evidently intended: an Alamofire or URL error ends it after the failure
      report, so the caller hears exactly one completion. */
  function FetchUserStorefrontOnce(response: DataResponse): (calls: seq<Completion>)
    ensures |calls| == 1
    ensures calls[0].success <==> !FailedWithAFError(response) && !FailedWithURLError(response)
    ensures calls[0].error.Some? <==> !calls[0].success
    ensures calls[0].result.Some? <==> calls[0].success
  {
    if FailedWithAFError(response) || FailedWithURLError(response) then
      [Completion(false, Some(response.result.error), None)]
    else [Completion(true, None, Some(BodyOrNA(response)))]
  }

  /** The intended closure makes the first call the written one makes, and no other. */
  lemma StorefrontOnceIsFirstCall(response: DataResponse)
    ensures FetchUserStorefrontOnce(response) == FetchUserStorefront(response)[..1]
  {
  }
}
