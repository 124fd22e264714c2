/**
 * `backend/weather.go`: the earlier version of the astro cache.
 *
 * It differs from `backend/astro.go` in three ways. The cache key uses the location exactly as
 * given, with no case folding. The clock is read twice: once for the key and again, when an
 * entry exists, for the freshness check. The expiry is midnight UTC after the reported local
 * time, because the reported time is parsed with no zone. The response carries only the date,
 * the astro data and the expiry.
 */
module Weather {
  import opened Wrappers
  import opened GoTime
  import opened Provider

  datatype Location = Location(name: string, country: string, region: string, localTime: string)

  datatype WeatherApiResponse = WeatherApiResponse(location: Location, forecast: map<string, Forecast>)

  const NoWeatherApiResponse := WeatherApiResponse(Location("", "", "", ""), map[])

  datatype AstroResponse = AstroResponse(date: string, astroData: AstroData, expiresAt: Time)

  /** `AstroResponse{}`, returned with every error. */
  const EmptyResponse := AstroResponse("", NoAstroData, ZeroTime)

  type AstroReply = Reply<WeatherApiResponse>

  // ---------------------------------------------------------------- expiry

  /**
   * `DefaultTimeManager.ComputeExpiryTime`: the reported local time is read as a UTC time, and
   * the expiry is the UTC midnight that starts the following day. It fails when the text does not
   * read "YYYY-MM-DD HH:MM".
   */
  function ComputeExpiryTime(localTime: string): (r: Result<Time, TimeError>)
    ensures r.Success? <==> ParseWall(localTime).Success?
    ensures r.Failure? ==> r.error == ParseError(localTime)
    ensures r.Success? ==>
      var reported := Parse(localTime).value;
      && IsMidnight(r.value) && r.value.offset == 0
      && r.value.wall.date == NextDay(reported.wall.date)
      && DayNumber(r.value.wall.date) == DayNumber(reported.wall.date) + 1
      && Before(reported, r.value)
      && 60 * NanosPerSecond <= Instant(r.value) - Instant(reported) <= NanosPerDay
  {
    match Parse(localTime)
    case Failure(e) => Failure(e)
    case Success(parsedTime) =>
      var nextDay := AddOneDay(parsedTime);
      Success(Midnight(nextDay.wall.date, parsedTime.offset))
  }

  /**
   * The expiry is the first UTC midnight after the reported local time read as UTC: no UTC
   * midnight comes strictly between the two.
   */
  lemma ExpiryIsNextUtcMidnight(localTime: string, d: Date)
    requires ComputeExpiryTime(localTime).Success? && d.Valid()
    ensures
      var midnight := Midnight(d, 0);
      Before(Parse(localTime).value, midnight) ==> !Before(midnight, ComputeExpiryTime(localTime).value)
  {
    var reported := Parse(localTime).value;
    var expiry := ComputeExpiryTime(localTime).value;
    var midnight := Midnight(d, 0);
    if Before(reported, midnight) {
      assert Instant(reported) >= DayNumber(reported.wall.date) * SecondsPerDay * NanosPerSecond;
      assert DayNumber(d) > DayNumber(reported.wall.date);
      assert Instant(expiry) == DayNumber(expiry.wall.date) * SecondsPerDay * NanosPerSecond;
    }
  }

  /**
   * The answer to a lookup can be marshalled unless the reported day is the last day of year
   * 9999, whose next midnight falls in year 10000.
   */
  lemma ExpiryMarshals(localTime: string)
    requires ComputeExpiryTime(localTime).Success?
    ensures MarshalsToJson(ComputeExpiryTime(localTime).value) <==> ParseWall(localTime).value.date != Date(9999, 12, 31)
  {
    var reported := ParseWall(localTime).value;
    assert reported.date.year <= 9999;
    assert NextDay(reported.date).year <= 9999 <==> reported.date != Date(9999, 12, 31);
  }

  // ---------------------------------------------------------------- the cache

  /**
   * `makeKey(location, Now().Format("2006-01-02"))`: the location exactly as given, ':', then the
   * date of the clock reading.
   */
  function CacheKey(location: string, now: Time): (key: string)
    ensures |key| == |location| + 1 + |FormatDate(now.wall.date)|
    ensures key[..|location|] == location
    ensures key[|location|] == ':' && key[|location| + 1..] == FormatDate(now.wall.date)
  {
    MakeKey(location, FormatDate(now.wall.date))
  }

  /**
   * Two lookups share a cache entry exactly when they name the same location, letter case
   * included, and their clock readings fall on the same calendar date.
   */
  lemma CacheKeyIdentifiesLocationAndDay(a: string, b: string, now: Time, now': Time)
    requires now.wall.date.year <= 9999 && now'.wall.date.year <= 9999
    ensures CacheKey(a, now) == CacheKey(b, now') <==> a == b && now.wall.date == now'.wall.date
  {
    KeySplits(a, b, FormatDate(now.wall.date), FormatDate(now'.wall.date));
    FormatDateInjective(now.wall.date, now'.wall.date);
  }

  /** A cache entry under `key` that is still fresh at `now`. */
  predicate Hit(cache: map<string, AstroResponse>, key: string, now: Time) {
    key in cache && Before(now, cache[key].expiresAt)
  }

  /** The decoded provider answer and the expiry computed from it. */
  datatype Fetched = Fetched(payload: WeatherApiResponse, expiry: Time)

  /**
   * What `GetAstro` learns from the provider on a miss: the exchange, then the expiry of the
   * reported local time. Success needs a 200 answer that decodes and an expiry that computes.
   */
  function Refresh(reply: AstroReply): (r: Result<Fetched, FetchError>)
    ensures Exchange(reply, NoWeatherApiResponse).Failure? ==> r == Failure(Exchange(reply, NoWeatherApiResponse).error)
    ensures r.Success? <==>
      && Exchange(reply, NoWeatherApiResponse).Success?
      && ParseWall(Exchange(reply, NoWeatherApiResponse).value.location.localTime).Success?
    ensures r.Success? ==> reply.Received? && reply.statusCode == StatusOK
    ensures r.Success? ==> Exchange(reply, NoWeatherApiResponse) == Success(r.value.payload)
    ensures r.Success? ==> ComputeExpiryTime(r.value.payload.location.localTime) == Success(r.value.expiry)
    ensures Exchange(reply, NoWeatherApiResponse).Success? && r.Failure? ==>
      r == Failure(ExpiryFailed(ParseError(Exchange(reply, NoWeatherApiResponse).value.location.localTime)))
  {
    match Exchange(reply, NoWeatherApiResponse)
    case Failure(e) => Failure(e)
    case Success(forecastResponse) =>
      match ComputeExpiryTime(forecastResponse.location.localTime)
      case Failure(e) => Failure(ExpiryFailed(e))
      case Success(expiryTime) => Success(Fetched(forecastResponse, expiryTime))
  }

  /**
   * `resp` is a response `GetAstro` may assemble from `f`: the computed expiry and one day of the
   * forecast map (no day, and zero astro data, when the map is empty).
   */
  predicate AssembledFrom(resp: AstroResponse, f: Fetched) {
    && resp.expiresAt == f.expiry
    && if f.payload.forecast == map[] then
         resp.date == "" && resp.astroData == NoAstroData
       else
         resp.date in f.payload.forecast && resp.astroData == f.payload.forecast[resp.date].astroData
  }

  class WeatherStackManager {
    var cache: map<string, AstroResponse>
    ghost var queries: seq<string>

    /** Every cached answer expires at a UTC midnight. */
    ghost predicate Valid()
      reads this
    {
      forall key | key in cache :: IsMidnight(cache[key].expiresAt) && cache[key].expiresAt.offset == 0
    }

    constructor()
      ensures cache == map[] && queries == []
      ensures Valid()
    {
      cache := map[];
      queries := [];
    }

    /**
     * `GetAstro(location)`, where `keyNow` is the clock reading that names the key and `checkNow`
     * the later reading the freshness check compares with an existing entry's expiry.
     */
    method GetAstro(location: string, keyNow: Time, checkNow: Time, reply: AstroReply)
      returns (resp: AstroResponse, err: Option<FetchError>)
      modifies this
      ensures var key := CacheKey(location, keyNow);
        Hit(old(cache), key, checkNow) ==>
          resp == old(cache)[key] && err == None && cache == old(cache) && queries == old(queries)
      ensures var key := CacheKey(location, keyNow);
        !Hit(old(cache), key, checkNow) ==>
          && queries == old(queries) + [location]
          && match Refresh(reply)
             case Failure(e) => err == Some(e)
             case Success(f) => err == None && AssembledFrom(resp, f)
      ensures err.Some? ==> resp == EmptyResponse && cache == old(cache)
      ensures err.None? ==> cache == old(cache)[CacheKey(location, keyNow) := resp]
      ensures old(Valid()) ==> Valid()
      ensures old(Valid()) && err.None? ==> IsMidnight(resp.expiresAt)
    {
      var currentDate := FormatDate(keyNow.wall.date);
      var cacheKey := MakeKey(location, currentDate);
      assert cacheKey == CacheKey(location, keyNow);
      if cacheKey in cache {
        var cachedAstroResponse := cache[cacheKey];
        if Before(checkNow, cachedAstroResponse.expiresAt) {
          return cachedAstroResponse, None;
        }
      }

      queries := queries + [location];
      if reply.SendFailed? {
        return EmptyResponse, Some(RequestFailed(reply.cause));
      }
      if reply.ReadFailed? {
        return EmptyResponse, Some(BodyReadFailed(reply.cause));
      }
      if reply.statusCode != StatusOK {
        var apiErrorResponse := DecodeApiError(reply.body);
        if apiErrorResponse.None? {
          return EmptyResponse, Some(ErrorBodyUndecodable);
        }
        return EmptyResponse, Some(ApiFailure(apiErrorResponse.value.error));
      }
      var decoded := DecodeForecast(reply.body, NoWeatherApiResponse);
      if decoded.None? {
        return EmptyResponse, Some(ForecastUndecodable);
      }
      var forecastResponse := decoded.value;
      var expiryTime := ComputeExpiryTime(forecastResponse.location.localTime);
      if expiryTime.Failure? {
        return EmptyResponse, Some(ExpiryFailed(expiryTime.error));
      }

      // The `range` over the forecast map stops after one entry, whichever the map yields first.
      var forecastDate, forecast := "", NoForecast;
      if forecastResponse.forecast != map[] {
        forecastDate :| forecastDate in forecastResponse.forecast;
        forecast := forecastResponse.forecast[forecastDate];
      }

      resp := AstroResponse(forecastDate, forecast.astroData, expiryTime.value);
      cache := cache[cacheKey := resp];
      err := None;
    }
  }

  /**
   * The decision of `AstroHandler`: 400 without touching the cache when the location is empty,
   * 500 when `GetAstro` fails or its answer cannot be marshalled, 200 with the answer otherwise.
   */
  method AstroHandler(wm: WeatherStackManager, location: string, keyNow: Time, checkNow: Time, reply: AstroReply)
    returns (status: int, body: Option<AstroResponse>)
    modifies wm
    ensures status == 200 <==> body.Some?
    ensures location == "" ==>
      status == 400 && wm.cache == old(wm.cache) && wm.queries == old(wm.queries)
    ensures location != "" ==>
      var key := CacheKey(location, keyNow);
      if Hit(old(wm.cache), key, checkNow) || Refresh(reply).Success? then
        && key in wm.cache
        && status == (if MarshalsToJson(wm.cache[key].expiresAt) then 200 else 500)
        && (body.Some? ==> body.value == wm.cache[key])
      else
        status == 500 && wm.cache == old(wm.cache)
    ensures location != "" ==>
      var key := CacheKey(location, keyNow);
      wm.queries == old(wm.queries) + if Hit(old(wm.cache), key, checkNow) then [] else [location]
    ensures location != "" && Hit(old(wm.cache), CacheKey(location, keyNow), checkNow) ==>
      wm.cache == old(wm.cache) && body == (if MarshalsToJson(old(wm.cache)[CacheKey(location, keyNow)].expiresAt)
                                             then Some(old(wm.cache)[CacheKey(location, keyNow)]) else None)
    ensures location != "" && !Hit(old(wm.cache), CacheKey(location, keyNow), checkNow) ==>
      var key := CacheKey(location, keyNow);
      match Refresh(reply)
      case Failure(_) => wm.cache == old(wm.cache)
      case Success(f) =>
        key in wm.cache && wm.cache == old(wm.cache)[key := wm.cache[key]] && AssembledFrom(wm.cache[key], f)
  {
    if location == "" {
      return 400, None;
    }
    var astroData, err := wm.GetAstro(location, keyNow, checkNow, reply);
    if err.Some? {
      return 500, None;
    }
    if !MarshalsToJson(astroData.expiresAt) {
      return 500, None;
    }
    return 200, Some(astroData);
  }

  /**
   * Two lookups on a new manager whose clock reads `now` every time, as the caching tests make
   * them. The second is served from the cache exactly when the first succeeded with an answer
   * still fresh at `now` and both name the same location, letter case included.
   */
  method TwoLookups(first: string, second: string, now: Time, firstReply: AstroReply, secondReply: AstroReply)
    returns (r1: AstroResponse, e1: Option<FetchError>, r2: AstroResponse, e2: Option<FetchError>, ghost queries: seq<string>)
    ensures e1.None? && first == second && Before(now, r1.expiresAt) ==> r2 == r1 && e2 == None
    ensures e1.None? && first == second && Before(now, r1.expiresAt) ==> queries == [first]
    ensures e1.Some? || first != second || !Before(now, r1.expiresAt) ==>
      queries == [first, second]
  {
    var wsm := new WeatherStackManager();
    r1, e1 := wsm.GetAstro(first, now, now, firstReply);
    assert wsm.queries == [first];
    assert wsm.cache == if e1.None? then map[CacheKey(first, now) := r1] else map[];
    assert CacheKey(first, now) == CacheKey(second, now) <==> first == second by {
      KeySplits(first, second, FormatDate(now.wall.date), FormatDate(now.wall.date));
    }
    r2, e2 := wsm.GetAstro(second, now, now, secondReply);
    queries := wsm.queries;
  }

  // ---------------------------------------------------------------- worked examples

  /** A wall clock written as "YYYY-MM-DD HH:MM" expires at the next UTC midnight. */
  lemma ExpiryOfFormatted(w: Wall)
    requires w.Valid() && w.date.year <= 9999 && w.second == 0 && w.nanosecond == 0
    ensures ComputeExpiryTime(FormatWall(w)) == Success(Midnight(NextDay(w.date), 0))
  {
    ParseFormatRoundTrip(w);
  }

  /** How the provider writes 16:30 on 2023-06-21. */
  lemma ReportedText()
    ensures FormatWall(Wall(Date(2023, 6, 21), 16, 30, 0, 0)) == "2023-06-21 16:30"
  {
    FourDigitsSpelled(2, 0, 2, 3);
    TwoDigitsSpelled(0, 6);
    TwoDigitsSpelled(2, 1);
    TwoDigitsSpelled(1, 6);
    TwoDigitsSpelled(3, 0);
  }

  /** A local time on 2023-06-21 expires at 2023-06-22T00:00:00Z, whatever the location's zone. */
  lemma ExampleExpiry()
    ensures ComputeExpiryTime("2023-06-21 16:30") == Success(Midnight(Date(2023, 6, 22), 0))
  {
    var reported := Wall(Date(2023, 6, 21), 16, 30, 0, 0);
    ReportedText();
    assert NextDay(reported.date) == Date(2023, 6, 22) by {
      assert DaysIn(2023, 6) == 30;
    }
    ExpiryOfFormatted(reported);
  }

  /** A lookup of "Vancouver" while the clock reads 2023-06-27 22:00 UTC is cached under "Vancouver:2023-06-27". */
  lemma ExampleKey()
    ensures CacheKey("Vancouver", Moment(Wall(Date(2023, 6, 27), 22, 0, 0, 0), 0)) == "Vancouver:2023-06-27"
  {
    FourDigitsSpelled(2, 0, 2, 3);
    TwoDigitsSpelled(0, 6);
    TwoDigitsSpelled(2, 7);
  }

  /**
   * With the zone dropped, the expiry can come before the instant the provider reported: in a
   * zone ten hours west of UTC, a report later than 14:00 local time is already past the computed
   * expiry (a report at 20:00 by six hours), so the answer is stale when it is stored.
   */
  lemma ExpiryCanPrecedeReport(d: Date, hour: nat, minute: nat)
    requires d.Valid() && d.year <= 9999 && hour < 24 && minute < 60
    ensures var w := Wall(d, hour, minute, 0, 0);
      var localTime := FormatWall(w);
      && ComputeExpiryTime(localTime).Success?
      && (Before(ComputeExpiryTime(localTime).value, Moment(w, -36000)) <==> hour * 60 + minute > 14 * 60)
  {
    ParseFormatRoundTrip(Wall(d, hour, minute, 0, 0));
  }
}
