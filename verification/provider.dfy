/**
 * What both versions of the backend share about the weather provider: the payload types that are
 * identical in the two files, the provider's reply as the backend receives it, the error taxonomy
 * of `GetAstro`, the exchange that turns a reply into a decoded forecast payload or an error, and
 * `makeKey`.
 *
 * JSON decoding is a foreign call: a reply body is given already decoded, as an error payload, a
 * forecast payload, or text that decodes as neither. `encoding/json` ignores keys a struct does
 * not name, so a body of one shape decoded into the other struct yields that struct's zero value.
 */
module Provider {
  import opened Wrappers
  import opened GoTime

  const StatusOK: int := 200

  datatype AstroData = AstroData(
    sunrise: string,
    sunset: string,
    moonrise: string,
    moonset: string,
    moonPhase: string,
    moonIllumination: int)

  const NoAstroData := AstroData("", "", "", "", "", 0)

  /** One day of the forecast map; the numeric metrics the backend never reads are not modelled. */
  datatype Forecast = Forecast(date: string, dateEpoch: int, astroData: AstroData)

  const NoForecast := Forecast("", 0, NoAstroData)

  datatype ApiError = ApiError(code: int, kind: string, info: string)

  datatype ApiErrorResponse = ApiErrorResponse(success: bool, error: ApiError)

  const NoApiErrorResponse := ApiErrorResponse(false, ApiError(0, "", ""))

  /** A response body, as `json.Unmarshal` sees it; `P` is the forecast payload of the backend version. */
  datatype Body<P> =
    | ErrorPayload(response: ApiErrorResponse)
    | ForecastPayload(payload: P)
    | Malformed  // text that is not JSON, or JSON whose values do not fit the structs

  /** What the HTTP exchange with the provider yields. */
  datatype Reply<P> =
    | SendFailed(cause: string)
    | ReadFailed(cause: string)
    | Received(statusCode: int, body: Body<P>)

  /** The errors `GetAstro` returns, one per early return. */
  datatype FetchError =
    | RequestFailed(cause: string)
    | BodyReadFailed(cause: string)
    | ErrorBodyUndecodable
    | ApiFailure(error: ApiError)
    | ForecastUndecodable
    | ExpiryFailed(reason: TimeError)

  /**
   * `json.Unmarshal(body, &apiErrorResponse)`: fails exactly on a body that does not decode
   * (`Malformed`); a forecast body carries none of the error struct's keys and leaves it at its
   * zero value.
   */
  function DecodeApiError<P>(body: Body<P>): (r: Option<ApiErrorResponse>)
    ensures r.None? <==> body.Malformed?
    ensures r.Some? && !body.ErrorPayload? ==> r.value == NoApiErrorResponse
  {
    match body
    case ErrorPayload(response) => Some(response)
    case ForecastPayload(_) => Some(NoApiErrorResponse)
    case Malformed => None
  }

  /**
   * `json.Unmarshal(body, &forecastResponse)`, `zero` being the payload struct's zero value: fails
   * exactly on a body that does not decode (`Malformed`); an error body leaves the struct at its
   * zero value.
   */
  function DecodeForecast<P>(body: Body<P>, zero: P): (r: Option<P>)
    ensures r.None? <==> body.Malformed?
    ensures r.Some? && !body.ForecastPayload? ==> r.value == zero
  {
    match body
    case ErrorPayload(_) => Some(zero)
    case ForecastPayload(payload) => Some(payload)
    case Malformed => None
  }

  /**
   * The exchange with the provider up to the decoded forecast payload: a transport or read
   * failure, a status other than 200 (reported with the provider's code, type and info when the
   * body decodes as an error payload), or a 200 whose body decodes as a forecast payload.
   */
  function Exchange<P>(reply: Reply<P>, zero: P): (r: Result<P, FetchError>)
    ensures r.Success? <==> reply.Received? && reply.statusCode == StatusOK && !reply.body.Malformed?
    ensures r.Success? && reply.body.ForecastPayload? ==> r.value == reply.body.payload
    ensures reply.SendFailed? ==> r == Failure(RequestFailed(reply.cause))
    ensures reply.ReadFailed? ==> r == Failure(BodyReadFailed(reply.cause))
    ensures reply.Received? && reply.statusCode != StatusOK ==>
      && r.Failure?
      && (r.error == ErrorBodyUndecodable <==> reply.body.Malformed?)
      && (reply.body.ErrorPayload? ==> r.error == ApiFailure(reply.body.response.error))
    ensures reply.Received? && reply.statusCode == StatusOK && reply.body.Malformed? ==>
      r == Failure(ForecastUndecodable)
    ensures reply.Received? && reply.statusCode != StatusOK && reply.body.ForecastPayload? ==>
      r == Failure(ApiFailure(ApiError(0, "", "")))
    ensures reply.Received? && reply.statusCode == StatusOK && reply.body.ErrorPayload? ==>
      r == Success(zero)
  {
    match reply
    case SendFailed(cause) => Failure(RequestFailed(cause))
    case ReadFailed(cause) => Failure(BodyReadFailed(cause))
    case Received(statusCode, body) =>
      if statusCode != StatusOK then
        match DecodeApiError(body)
        case None => Failure(ErrorBodyUndecodable)
        case Some(apiErrorResponse) => Failure(ApiFailure(apiErrorResponse.error))
      else
        match DecodeForecast(body, zero)
        case None => Failure(ForecastUndecodable)
        case Some(forecastResponse) => Success(forecastResponse)
  }

  /** `makeKey(location, date)`: `fmt.Sprintf("%s:%s", location, date)`. */
  function MakeKey(location: string, date: string): (key: string)
    ensures |key| == |location| + 1 + |date|
    ensures key[..|location|] == location && key[|location|] == ':' && key[|location| + 1..] == date
  {
    location + ":" + date
  }

  /**
   * With dates of one length, as `Format("2006-01-02")` writes them, a key names exactly one
   * location and one date, even when the location itself contains ':'.
   */
  lemma {:induction false} KeySplits(a: string, b: string, d: string, e: string)
    requires |d| == |e|
    ensures MakeKey(a, d) == MakeKey(b, e) <==> a == b && d == e
  {
    var k, k' := MakeKey(a, d), MakeKey(b, e);
    if k == k' {
      assert |a| == |b|;
      assert a == k[..|a|] == k'[..|b|] == b;
      assert d == k[|a| + 1..] == k'[|b| + 1..] == e;
    }
  }
}
