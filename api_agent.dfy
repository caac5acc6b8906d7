/**
 * Classification of one HTTP exchange into a typed result, as done by the
 * agent's response processing. JSON decoding is foreign code: its two possible
 * outcomes for the body (as the expected payload, and as the error wire
 * schema) are inputs, and so is the value of the page-count header.
 */
module APIAgent {
  import opened Wrappers
  import opened Decimal

  /** The error wire schema, used also as the client-side error. */
  datatype ErrorResponse = ErrorResponse(status: int, errorContext: string, errorCode: string, errorMessage: string)

  /** A decoded payload with the page count from the response header. */
  datatype APIResponse<T> = APIResponse(data: Option<T>, totalPages: Option<int>)

  /** Swift's `Result<T?, ErrorResponse>`. */
  type CustomResult<T> = Result<Option<T>, ErrorResponse>

  /**
   * The response the transport handed over: not an HTTP response at all, or an
   * HTTP response with its status code and the value of the page-count header
   * `x-pagination-pages` (the header lookup by name is not part of this model).
   */
  datatype URLResponse = NonHTTP | HTTP(statusCode: int, pagesHeader: Option<string>)

  /** How decoding the body as the expected payload failed. */
  datatype DecodingError =
    | DataCorrupted(debugDescription: string)
    | KeyNotFound(key: string, debugDescription: string)
    | ValueNotFound(valueType: string, debugDescription: string)
    | TypeMismatch(mismatchedType: string, debugDescription: string)
    | OtherError(localizedDescription: string)

  predicate IsSuccessStatus(code: int) {
    200 <= code <= 299
  }

  /** The page count read from the header: nil when absent, else the integer parse. */
  function TotalPages(header: Option<string>): (r: Option<int>)
    ensures header == None ==> r == None
    ensures r.Some? ==> InIntRange(r.value)
  {
    match header
    case None => None
    case Some(text) => ParseInt(text)
  }

  /** The diagnostic recorded for a failed decode of a 2xx body. */
  function DecodeFailureContext(e: DecodingError): string {
    match e
    case DataCorrupted(debug) => debug
    case KeyNotFound(key, debug) => "Key '" + key + "' not found: " + debug
    case ValueNotFound(valueType, debug) => "Value '" + valueType + "' not found: " + debug
    case TypeMismatch(mismatchedType, debug) => "Type '" + mismatchedType + "' mismatch: " + debug
    case OtherError(description) => description
  }

  /** The 2xx branch. */
  function SuccessStatusBranch<T>(code: int, header: Option<string>, decoded: Result<T, DecodingError>): CustomResult<APIResponse<T>> {
    match decoded
    case Success(model) => Success(Some(APIResponse(Some(model), TotalPages(header))))
    case Failure(e) => Failure(ErrorResponse(code, DecodeFailureContext(e), "1001", "Unexpected Error: 1001"))
  }

  /** The 401 branch. */
  function UnauthorizedBranch<T>(code: int, errorBody: Result<ErrorResponse, string>): CustomResult<APIResponse<T>> {
    match errorBody
    case Success(errorResponse) => Failure(errorResponse)
    case Failure(description) => Failure(ErrorResponse(code, description, "", "Unexpected Error: 1001"))
  }

  /** The branch for every other status. */
  function OtherStatusBranch<T>(code: int, errorBody: Result<ErrorResponse, string>): CustomResult<APIResponse<T>> {
    match errorBody
    case Success(errorResponse) => Failure(errorResponse)
    case Failure(description) => Failure(ErrorResponse(code, description, "", "Unexpected Error: 1001"))
  }

  /**
   * The one result the completion receives for a response. `decoded` is the
   * outcome of decoding the body as the expected payload, `errorBody` that of
   * decoding it as `ErrorResponse` (a failure carries its description).
   */
  function ProcessDataResponse<T>(response: URLResponse, decoded: Result<T, DecodingError>,
                                  errorBody: Result<ErrorResponse, string>): (r: CustomResult<APIResponse<T>>)
    // not an HTTP response
    ensures response == NonHTTP ==> r == Failure(ErrorResponse(0, "", "", "unknown!!"))
    // success exactly for a 2xx status whose body decodes, and it carries the model and the page count
    ensures r.Success? <==> response.HTTP? && IsSuccessStatus(response.statusCode) && decoded.Success?
    ensures r.Success? ==>
      r.value == Some(APIResponse(Some(decoded.value), TotalPages(response.pagesHeader)))
    // a 2xx body that does not decode: HTTP status, code 1001, the decoder's diagnostic
    ensures response.HTTP? && IsSuccessStatus(response.statusCode) && decoded.Failure? ==>
      r == Failure(ErrorResponse(response.statusCode, DecodeFailureContext(decoded.error),
                                 "1001", "Unexpected Error: 1001"))
    // any other status: the server's error body unchanged, or a fallback with an empty code
    ensures response.HTTP? && !IsSuccessStatus(response.statusCode) && errorBody.Success? ==>
      r == Failure(errorBody.value)
    ensures response.HTTP? && !IsSuccessStatus(response.statusCode) && errorBody.Failure? ==>
      r == Failure(ErrorResponse(response.statusCode, errorBody.error, "", "Unexpected Error: 1001"))
  {
    match response
    case NonHTTP => Failure(ErrorResponse(0, "", "", "unknown!!"))
    case HTTP(code, header) =>
      if IsSuccessStatus(code) then SuccessStatusBranch(code, header, decoded)
      else if code == 401 then UnauthorizedBranch(code, errorBody)
      else OtherStatusBranch(code, errorBody)
  }

  /** The diagnostic names the failure kind, and only dataCorrupted and the catch-all pass text through unchanged. */
  lemma DecodeFailureContextByKind(e: DecodingError)
    ensures e.DataCorrupted? ==> DecodeFailureContext(e) == e.debugDescription
    ensures e.KeyNotFound? ==> DecodeFailureContext(e) == "Key '" + e.key + "' not found: " + e.debugDescription
    ensures e.ValueNotFound? ==> DecodeFailureContext(e) == "Value '" + e.valueType + "' not found: " + e.debugDescription
    ensures e.TypeMismatch? ==> DecodeFailureContext(e) == "Type '" + e.mismatchedType + "' mismatch: " + e.debugDescription
    ensures e.OtherError? ==> DecodeFailureContext(e) == e.localizedDescription
  {
  }

  /** The 401 branch and the default branch give the same result for every input. */
  lemma UnauthorizedLikeOtherStatus<T>(code: int, errorBody: Result<ErrorResponse, string>)
    ensures UnauthorizedBranch<T>(code, errorBody) == OtherStatusBranch<T>(code, errorBody)
  {
  }

  /** A success always carries a payload: the agent never delivers `.success(nil)`. */
  lemma SuccessCarriesPayload<T>(response: URLResponse, decoded: Result<T, DecodingError>,
                                 errorBody: Result<ErrorResponse, string>)
    ensures var r := ProcessDataResponse(response, decoded, errorBody);
      r.Success? ==> r.value.Some? && r.value.value.data.Some?
  {
  }

  /**
   * For a decoded 2xx body, `totalPages` is `n` when the header is the decimal
   * text of an `n` in `Int` range, and nil when the header is absent, empty,
   * a lone sign, the text of an `n` outside `Int` range, or holds a character
   * that is neither a digit nor a leading sign.
   */
  lemma TotalPagesFromHeader<T>(code: int, header: Option<string>, model: T, errorBody: Result<ErrorResponse, string>)
    requires IsSuccessStatus(code)
    ensures forall n :: InIntRange(n) && header == Some(IntText(n)) ==>
      ProcessDataResponse(HTTP(code, header), Success(model), errorBody) == Success(Some(APIResponse(Some(model), Some(n))))
    ensures forall n :: !InIntRange(n) && header == Some(IntText(n)) ==>
      ProcessDataResponse(HTTP(code, header), Success(model), errorBody) == Success(Some(APIResponse(Some(model), None)))
    ensures header == None || header == Some("") || header == Some("+") || header == Some("-") ==>
      ProcessDataResponse(HTTP(code, header), Success(model), errorBody) == Success(Some(APIResponse(Some(model), None)))
    ensures forall k :: header.Some? && 0 <= k < |header.value| && !IsDigit(header.value[k])
                        && (k == 0 ==> header.value[0] != '+' && header.value[0] != '-') ==>
      ProcessDataResponse(HTTP(code, header), Success(model), errorBody) == Success(Some(APIResponse(Some(model), None)))
  {
    forall n | InIntRange(n) && header == Some(IntText(n))
      ensures TotalPages(header) == Some(n)
    {
      IntTextRoundTrip(n);
    }
    forall n | !InIntRange(n) && header == Some(IntText(n))
      ensures TotalPages(header) == None
    {
      IntTextRoundTrip(n);
    }
    forall k | header.Some? && 0 <= k < |header.value| && !IsDigit(header.value[k])
               && (k == 0 ==> header.value[0] != '+' && header.value[0] != '-')
      ensures TotalPages(header) == None
    {
      ParseIntRejectsNonDigit(header.value, k);
    }
  }
}
