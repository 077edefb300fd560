/** Response classification: the HTTP status table, the Alamofire error code, the three-valued response
    decoder, and the digit-run search used on the "next" field. */
module HelperFunctions {
  import opened Base
  import opened Json
  import opened Transport
  import opened DigitRuns

  // ---------------------------------------------------------------------------------------------
  // handleResponseStatusCode
  // ---------------------------------------------------------------------------------------------

  /** `(success, codeName, description)` for one HTTP status code. */
  datatype StatusOutcome = StatusOutcome(success: bool, codeName: string, description: string)

  /** The codes the vendor's table documents as successful. */
  predicate IsSuccessCode(code: int) {
    code == 200 || code == 201 || code == 202 || code == 204
  }

  /** Every code the table has an entry for. */
  predicate IsDocumentedCode(code: int) {
    IsSuccessCode(code) || code == 301 || code == 302 || code == 400 || code == 401 || code == 403 ||
    code == 404 || code == 405 || code == 409 || code == 413 || code == 414 || code == 429 ||
    code == 500 || code == 501 || code == 503
  }

  const UnknownStatus := StatusOutcome(false, "Unknown Status Code", "No Description Available.")

  /** The vendor's status table, one `(success, codeName, description)` row per documented code. It is
      total: an undocumented code gets `UnknownStatus`. */
  function HandleResponseStatusCode(statusCode: int): (r: StatusOutcome)
    ensures r.success <==> IsSuccessCode(statusCode)
    ensures !IsDocumentedCode(statusCode) ==> r == UnknownStatus
  {
    if IsDocumentedCode(statusCode) then
      StatusOutcome(IsSuccessCode(statusCode), CodeName(statusCode), Description(statusCode))
    else UnknownStatus
  }

  /** The name column of the table (501's name is spelled as the vendor's table spells it). */
  function CodeName(statusCode: int): (codeName: string)
    requires IsDocumentedCode(statusCode)
    ensures codeName != UnknownStatus.codeName
  {
    match statusCode
    case 200 => "OK"
    case 201 => "Created"
    case 202 => "Accepted"
    case 204 => "No Content"
    case 301 => "Moved Permanently"
    case 302 => "Found"
    case 400 => "Bad Request"
    case 401 => "Unauthorized"
    case 403 => "Forbidden"
    case 404 => "Not Found"
    case 405 => "Method Not Allowed"
    case 409 => "Conflict"
    case 413 => "Payload Too Large"
    case 414 => "URI Too Long"
    case 429 => "Too Many Requests"
    case 500 => "Internal Server Error"
    case 501 => "Not Implemeneted"
    case 503 => "Service Unavailable"
    case _ => assert false; ""
  }

  /** The description column of the table. */
  function Description(statusCode: int): (description: string)
    requires IsDocumentedCode(statusCode)
    ensures description != UnknownStatus.description
  {
    match statusCode
    case 200 => Description200
    case 201 => Description201
    case 202 => Description202
    case 204 => Description204
    case 301 => Description301
    case 302 => Description302
    case 400 => Description400
    case 401 => Description401
    case 403 => Description403
    case 404 => Description404
    case 405 => Description405
    case 409 => Description409
    case 413 => Description413
    case 414 => Description414
    case 429 => Description429
    case 500 => Description500
    case 501 => Description501
    case 503 => Description503
    case _ => assert false; ""
  }

  // The descriptions, verbatim.
  const Description200: string := "The request was successful; no errors or faults."
  const Description201: string := "Creation request was successful."
  const Description202: string := "Modification request was accepted but may not have completed."
  const Description204: string := "Modification was successful, but there’s no content in the response."
  const Description301: string := "Content may be available at a different URL."
  const Description302: string := "Content definitely available at a specific URL."
  const Description400: string := "The request wasn’t accepted as formed."
  const Description404: string := "The requested resource doesn’t exist."
  const Description405: string := "The method can’t be used for the request."
  const Description409: string := "A modification or creation request couldn’t be processed because there’s a conflict with the current state of the resource."
  const Description413: string := "The body of the request is too large."
  const Description414: string := "The URI of the request is too long and won’t be processed."
  const Description429: string := "The user has made too many requests. See Simulate the Too Many Requests Error."
  const Description500: string := "There’s an error processing the request."
  const Description501: string := "Endpoint is currently unavailable and reserved for future use."
  const Description503: string := "The service is currently unavailable to process requests."

  /** The 401 description: a Swift multi-line literal, so each line keeps four spaces of indentation and
      the lines are joined by newlines without a trailing one. */
  const Description401: string :=
    "    The request wasn’t accepted because its authorization is missing or invalid due to an issue with the developer token.\n" +
    "    (For personal endpoints) Authorization issues may occur because the user wasn’t signed in or didn’t have a valid Apple Music subscription.\n" +
    "    (For music user token request) Developer token issues may occur because the token wasn’t received or was invalid. There could also be an error processing the request."

  /** The 403 description, laid out like the 401 one. */
  const Description403: string :=
    "    The request wasn’t accepted due to an issue with the music user token or because it’s using incorrect authentication.\n" +
    "    (For personal endpoints) Authentication issues may occur if the account hasn’t accepted the Media and Apple Music privacy setting."

  /** The fallback row is told apart from every documented row: a caller sees `UnknownStatus` exactly
      for the codes the table does not list. */
  lemma UnknownStatusExactlyForUndocumented(statusCode: int)
    ensures HandleResponseStatusCode(statusCode) == UnknownStatus <==> !IsDocumentedCode(statusCode)
  {
  }

  // ---------------------------------------------------------------------------------------------
  // handleResponseAFError
  // ---------------------------------------------------------------------------------------------

  /** The validation failure that carries the HTTP status the server sent. */
  predicate IsUnacceptableStatusCode(error: AFError) {
    error.errorCase.ResponseValidationFailed? && error.errorCase.validation.UnacceptableStatusCode?
  }

  /** The status code recovered from an Alamofire error: the code inside an unacceptable-status-code
      validation failure, otherwise the error's bridged code. The `statusCode` argument is never read. */
  function HandleResponseAFError(statusCode: int, error: AFError): (status: int)
    ensures IsUnacceptableStatusCode(error) ==> status == error.errorCase.validation.code
    ensures !IsUnacceptableStatusCode(error) ==> status == error.bridgedCode
  {
    match error.errorCase
    case ResponseValidationFailed(UnacceptableStatusCode(code)) => code
    case _ => error.bridgedCode
  }

  // ---------------------------------------------------------------------------------------------
  // decodeResponseStatus
  // ---------------------------------------------------------------------------------------------

  /** `(success, error, responseJSON)` */
  datatype Decoded = Decoded(success: bool, error: Option<TransportError>, responseJSON: Option<Json>)

  /** The response failed with an Alamofire error. */
  predicate FailedWithAFError(response: DataResponse) {
    response.result.Failure? && response.result.error.AF?
  }

  /** The response failed with a Foundation `URLError`. */
  predicate FailedWithURLError(response: DataResponse) {
    response.result.Failure? && response.result.error.URL?
  }

  /** The decision tree, first match wins: an Alamofire error that came with a status, then a URL error,
      both returned as failures carrying the error; then the status table, where a failing code yields a
      failure without an error object; and no status at all yields the same bare failure. */
  function DecodeResponseStatus(response: DataResponse): (r: Decoded)
    ensures r.success <==>
      response.statusCode.Some? && IsSuccessCode(response.statusCode.value) &&
      !FailedWithAFError(response) && !FailedWithURLError(response)
    ensures r.error.Some? <==>
      (FailedWithAFError(response) && response.statusCode.Some?) || FailedWithURLError(response)
    ensures r.error.Some? ==> r.error.value == response.result.error
    ensures r.responseJSON.Some? <==> r.success
    ensures r.success ==> r.responseJSON.value == BodyOrNA(response)
  {
    if FailedWithAFError(response) && response.statusCode.Some? then
      // the recovered code, HandleResponseAFError(status, error), is only logged
      Decoded(false, Some(response.result.error), None)
    else if FailedWithURLError(response) then
      Decoded(false, Some(response.result.error), None)
    else if response.statusCode.Some? then
      var decodedStatus := HandleResponseStatusCode(response.statusCode.value);
      if decodedStatus.success then Decoded(true, None, Some(BodyOrNA(response)))
      else Decoded(false, None, None)
    else
      Decoded(false, None, None)
  }

  /** The decoder's result is always one of three shapes: success with JSON, failure with an error,
      or a bare failure with neither. */
  lemma DecodedIsOneOfThree(response: DataResponse)
    ensures var r := DecodeResponseStatus(response);
      (r.success && r.error.None? && r.responseJSON.Some?) ||
      (!r.success && r.error.Some? && r.responseJSON.None?) ||
      (!r.success && r.error.None? && r.responseJSON.None?)
  {
  }

  // ---------------------------------------------------------------------------------------------
  // regexSearch, for the pattern (\d{2,})
  // ---------------------------------------------------------------------------------------------

  /** The errors `regexSearch` returns. */
  datatype SearchError = ResponseCorrupted | PatternError(message: string)

  /** The last match of the pattern; a text without one is reported as a corrupted response, and a
      pattern that does not compile as that compile error. */
  function RegexSearch(pattern: CompiledPattern, text: string): (r: Result<string, SearchError>)
    ensures pattern.CompileError? ==> r == Failure(PatternError(pattern.message))
    ensures pattern.DigitRunPattern? ==> r.Success? || r == Failure(ResponseCorrupted)
    ensures pattern.DigitRunPattern? ==> (r == Failure(ResponseCorrupted) <==> !HasDigitPairFrom(text, 0))
    ensures pattern.DigitRunPattern? && r.Success? ==>
      exists i: nat, j: nat :: LastMaximalRun(text, i, j) && r.value == text[i..j]
  {
    match pattern
    case CompileError(message) => Failure(PatternError(message))
    case DigitRunPattern =>
      match LastMatch(text)
      case Some(digits) => Success(digits)
      case None => Failure(ResponseCorrupted)
  }
}
