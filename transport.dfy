/** The shapes of an Alamofire response that the library inspects. The transport itself is not modelled:
    a response is an input. */
module Transport {
  import opened Base
  import opened Json

  /** `AFError.ResponseValidationFailureReason` */
  datatype ValidationFailureReason =
    | DataFileNil
    | DataFileReadFailed(at: string)
    | MissingContentType(acceptableContentTypes: seq<string>)
    | UnacceptableContentType(acceptableContentTypes: seq<string>, responseContentType: string)
    | UnacceptableStatusCode(code: int)

  /** The five cases of `AFError`; the reasons other than validation are only ever logged. */
  datatype AFErrorCase =
    | InvalidURL(url: string)
    | ParameterEncodingFailed(reason: string)
    | MultipartEncodingFailed(reason: string)
    | ResponseValidationFailed(validation: ValidationFailureReason)
    | ResponseSerializationFailed(reason: string)

  /** An `AFError` together with its bridged `_code`, which the library reads as a status code. */
  datatype AFError = AFError(errorCase: AFErrorCase, bridgedCode: int)

  /** A Foundation `URLError` (connectivity failures: offline, DNS, timeout, ...). */
  datatype URLError = URLError(code: int)

  /** The error in a failed `response.result`, classified as the `as? AFError` / `as? URLError` casts see it. */
  datatype TransportError =
    | AF(af: AFError)
    | URL(url: URLError)
    | OtherError(description: string)

  /** `DataResponse<Any>`: the HTTP status of `response.response`, if any, and `response.result`. */
  datatype DataResponse = DataResponse(statusCode: Option<int>, result: Result<Json, TransportError>)

  /** `response.result.value`: present exactly when the result is a success. */
  function ResultValue(response: DataResponse): (r: Option<Json>)
    ensures r.Some? <==> response.result.Success?
  {
    match response.result
    case Success(v) => Some(v)
    case Failure(_) => None
  }

  /** `JSON(response.result.value ?? "NA")`: the body, or the string "NA" when there is none. */
  function BodyOrNA(response: DataResponse): (r: Json)
    ensures response.result.Failure? ==> r == JString("NA")
    ensures response.result.Success? ==> r == response.result.value
  {
    ResultValue(response).GetOr(JString("NA"))
  }
}
