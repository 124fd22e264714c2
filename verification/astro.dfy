/**
 * `backend/astro.go`: the astro cache with location-local expiry.
 *
 * `WeatherStackManager.GetAstro` keeps astronomy answers in an in-memory map keyed by the
 * lower-cased location and the caller's current date. An entry is served while the clock is
 * strictly before its expiry, which is midnight after the location's reported local time, in the
 * location's own zone. Anything else goes to the provider; only a complete answer is stored.
 *
 * The clock reading `now`, the provider's reply and the zone database are parameters. The ghost
 * field `queries` records the location of every provider request, so that "a hit never fetches"
 * can be stated.
 */
module Astro {
  import opened Wrappers
  import opened GoTime
  import opened Text
  import opened Provider

  datatype Location = Location(
    name: string,
    country: string,
    region: string,
    localTime: string,
    timeZoneId: string)

  datatype WeatherApiResponse = WeatherApiResponse(location: Location, forecast: map<string, Forecast>)

  const NoWeatherApiResponse := WeatherApiResponse(Location("", "", "", "", ""), map[])

  datatype AstroResponse = AstroResponse(
    date: string,
    locationName: string,
    locationRegion: string,
    locationCountry: string,
    astroData: AstroData,
    expiresAt: Time)

  /** `AstroResponse{}`, returned with every error. */
  const EmptyResponse := AstroResponse("", "", "", "", NoAstroData, ZeroTime)

  type AstroReply = Reply<WeatherApiResponse>

  // ---------------------------------------------------------------- expiry

  /**
   * `DefaultTimeManager.ComputeExpiryTime`: midnight at the start of the day after the reported
   * local time, in the reported zone. It fails when the zone is unknown or the local time does
   * not read "YYYY-MM-DD HH:MM".
   */
  function ComputeExpiryTime(zones: ZoneDb, localTime: string, timeZoneId: string): (r: Result<Time, TimeError>)
    ensures r.Success? <==> LoadLocation(zones, timeZoneId).Success? && ParseWall(localTime).Success?
    ensures LoadLocation(zones, timeZoneId).Failure? ==> r == Failure(LoadLocation(zones, timeZoneId).error)
    ensures LoadLocation(zones, timeZoneId).Success? && r.Failure? ==> r == Failure(ParseError(localTime))
    ensures r.Success? ==>
      var offset := LoadLocation(zones, timeZoneId).value;
      var reported := ParseInLocation(localTime, offset).value;
      && IsMidnight(r.value) && r.value.offset == offset
      && r.value.wall.date == NextDay(reported.wall.date)
      && DayNumber(r.value.wall.date) == DayNumber(reported.wall.date) + 1
      && Before(reported, r.value)
      && 60 * NanosPerSecond <= Instant(r.value) - Instant(reported) <= NanosPerDay
  {
    match LoadLocation(zones, timeZoneId)
    case Failure(e) => Failure(e)
    case Success(loc) =>
      match ParseInLocation(localTime, loc)
      case Failure(e) => Failure(e)
      case Success(parsedTime) =>
        var nextDay := AddOneDay(parsedTime);
        Success(Midnight(nextDay.wall.date, loc))
  }

  /**
   * The expiry is the first midnight of the location's zone after its reported local time: a
   * midnight of that zone that comes after the reported time is never earlier than the expiry.
   */
  lemma ExpiryIsNextLocalMidnight(zones: ZoneDb, localTime: string, timeZoneId: string, d: Date)
    requires ComputeExpiryTime(zones, localTime, timeZoneId).Success? && d.Valid()
    ensures
      var offset := LoadLocation(zones, timeZoneId).value;
      var midnight := Midnight(d, offset);
      Before(ParseInLocation(localTime, offset).value, midnight) ==>
        !Before(midnight, ComputeExpiryTime(zones, localTime, timeZoneId).value)
  {
    var offset := LoadLocation(zones, timeZoneId).value;
    var reported := ParseInLocation(localTime, offset).value;
    var expiry := ComputeExpiryTime(zones, localTime, timeZoneId).value;
    var midnight := Midnight(d, offset);
    if Before(reported, midnight) {
      assert Instant(reported) >= (DayNumber(reported.wall.date) * SecondsPerDay - offset) * NanosPerSecond;
      assert DayNumber(d) > DayNumber(reported.wall.date);
      assert Instant(expiry) == (DayNumber(expiry.wall.date) * SecondsPerDay - offset) * NanosPerSecond;
    }
  }

  /**
   * The answer to a lookup can be marshalled unless the reported day is the last day of year
   * 9999, whose next midnight falls in year 10000, or the zone lies a whole day or more from UTC.
   */
  lemma ExpiryMarshals(zones: ZoneDb, localTime: string, timeZoneId: string)
    requires ComputeExpiryTime(zones, localTime, timeZoneId).Success?
    ensures
      var offset := LoadLocation(zones, timeZoneId).value;
      MarshalsToJson(ComputeExpiryTime(zones, localTime, timeZoneId).value) <==>
        ParseWall(localTime).value.date != Date(9999, 12, 31) && -SecondsPerDay < offset < SecondsPerDay
  {
    var reported := ParseWall(localTime).value;
    assert reported.date.year <= 9999;
    assert NextDay(reported.date).year <= 9999 <==> reported.date != Date(9999, 12, 31);
  }

  // ---------------------------------------------------------------- the cache

  /**
   * `makeKey(strings.ToLower(location), now.Format("2006-01-02"))`: the location lower-cased
   * letter by letter, ':', then the date of the clock reading.
   */
  function CacheKey(location: string, now: Time): (key: string)
    ensures |key| == |location| + 1 + |FormatDate(now.wall.date)|
    ensures forall i :: 0 <= i < |location| ==> key[i] == LowerChar(location[i])
    ensures key[|location|] == ':' && key[|location| + 1..] == FormatDate(now.wall.date)
  {
    MakeKey(ToLower(location), FormatDate(now.wall.date))
  }

  /**
   * Two lookups share a cache entry exactly when their locations differ only in letter case and
   * their clock readings fall on the same calendar date.
   */
  lemma CacheKeyIdentifiesLocationAndDay(a: string, b: string, now: Time, now': Time)
    requires now.wall.date.year <= 9999 && now'.wall.date.year <= 9999
    ensures CacheKey(a, now) == CacheKey(b, now') <==> SameUpToCase(a, b) && now.wall.date == now'.wall.date
  {
    KeySplits(ToLower(a), ToLower(b), FormatDate(now.wall.date), FormatDate(now'.wall.date));
    FormatDateInjective(now.wall.date, now'.wall.date);
    LowerEqualIffSameUpToCase(a, b);
  }

  /** A cache entry under `key` that is still fresh at `now`. */
  predicate Hit(cache: map<string, AstroResponse>, key: string, now: Time) {
    key in cache && Before(now, cache[key].expiresAt)
  }

  /** The decoded provider answer and the expiry computed from it. */
  datatype Fetched = Fetched(payload: WeatherApiResponse, expiry: Time)

  /**
   * What `GetAstro` learns from the provider on a miss: the exchange, then the expiry of the
   * reported local day. Success needs a 200 answer that decodes and an expiry that computes.
   */
  function Refresh(zones: ZoneDb, reply: AstroReply): (r: Result<Fetched, FetchError>)
    ensures Exchange(reply, NoWeatherApiResponse).Failure? ==> r == Failure(Exchange(reply, NoWeatherApiResponse).error)
    ensures r.Success? <==>
      && Exchange(reply, NoWeatherApiResponse).Success?
      && var location := Exchange(reply, NoWeatherApiResponse).value.location;
         ComputeExpiryTime(zones, location.localTime, location.timeZoneId).Success?
    ensures r.Success? ==> reply.Received? && reply.statusCode == StatusOK
    ensures r.Success? ==> Exchange(reply, NoWeatherApiResponse) == Success(r.value.payload)
    ensures r.Success? ==>
      var location := r.value.payload.location;
      ComputeExpiryTime(zones, location.localTime, location.timeZoneId) == Success(r.value.expiry)
    ensures Exchange(reply, NoWeatherApiResponse).Success? && r.Failure? ==>
      var location := Exchange(reply, NoWeatherApiResponse).value.location;
      r == Failure(ExpiryFailed(ComputeExpiryTime(zones, location.localTime, location.timeZoneId).error))
  {
    match Exchange(reply, NoWeatherApiResponse)
    case Failure(e) => Failure(e)
    case Success(forecastResponse) =>
      var location := forecastResponse.location;
      match ComputeExpiryTime(zones, location.localTime, location.timeZoneId)
      case Failure(e) => Failure(ExpiryFailed(e))
      case Success(expiryTime) => Success(Fetched(forecastResponse, expiryTime))
  }

  /**
   * `resp` is a response `GetAstro` may assemble from `f`: the location's name, region and
   * country, the computed expiry, and one day of the forecast map (no day, and zero astro data,
   * when the map is empty).
   */
  predicate AssembledFrom(resp: AstroResponse, f: Fetched) {
    && resp.locationName == f.payload.location.name
    && resp.locationRegion == f.payload.location.region
    && resp.locationCountry == f.payload.location.country
    && resp.expiresAt == f.expiry
    && if f.payload.forecast == map[] then
         resp.date == "" && resp.astroData == NoAstroData
       else
         resp.date in f.payload.forecast && resp.astroData == f.payload.forecast[resp.date].astroData
  }

  class WeatherStackManager {
    var cache: map<string, AstroResponse>
    const zones: ZoneDb
    ghost var queries: seq<string>

    /** Every cached answer expires at a midnight. */
    ghost predicate Valid()
      reads this
    {
      forall key | key in cache :: IsMidnight(cache[key].expiresAt)
    }

    constructor(zones: ZoneDb)
      ensures cache == map[] && this.zones == zones && queries == []
      ensures Valid()
    {
      cache := map[];
      this.zones := zones;
      queries := [];
    }

    /**
     * `GetAstro(location)` with the clock reading `now` and the provider's `reply`. A fresh entry
     * is returned as it is; otherwise the provider is asked, every failure returns the empty
     * response and leaves the cache alone, and a success is stored under the key and returned.
     */
    method GetAstro(location: string, now: Time, reply: AstroReply) returns (resp: AstroResponse, err: Option<FetchError>)
      modifies this
      ensures var key := CacheKey(location, now);
        Hit(old(cache), key, now) ==>
          resp == old(cache)[key] && err == None && cache == old(cache) && queries == old(queries)
      ensures var key := CacheKey(location, now);
        !Hit(old(cache), key, now) ==>
          && queries == old(queries) + [location]
          && match Refresh(zones, reply)
             case Failure(e) => err == Some(e)
             case Success(f) => err == None && AssembledFrom(resp, f)
      ensures err.Some? ==> resp == EmptyResponse && cache == old(cache)
      ensures err.None? ==> cache == old(cache)[CacheKey(location, now) := resp]
      ensures old(Valid()) ==> Valid()
      ensures old(Valid()) && err.None? ==> IsMidnight(resp.expiresAt)
    {
      var currentDate := FormatDate(now.wall.date);
      var cacheKey := MakeKey(ToLower(location), currentDate);
      if cacheKey in cache {
        var cachedAstroResponse := cache[cacheKey];
        if Before(now, cachedAstroResponse.expiresAt) {
          return cachedAstroResponse, None;
        }
      }

      queries := queries + [location];
      if reply.SendFailed? {
        return EmptyResponse, Some(RequestFailed(reply.cause));
      }
      if reply.ReadFailed? {
        return EmptyResponse, Some(BodyReadFailed(reply.cause));
      }
      if reply.statusCode != StatusOK {
        var apiErrorResponse := DecodeApiError(reply.body);
        if apiErrorResponse.None? {
          return EmptyResponse, Some(ErrorBodyUndecodable);
        }
        return EmptyResponse, Some(ApiFailure(apiErrorResponse.value.error));
      }
      var decoded := DecodeForecast(reply.body, NoWeatherApiResponse);
      if decoded.None? {
        return EmptyResponse, Some(ForecastUndecodable);
      }
      var forecastResponse := decoded.value;
      var expiryTime := ComputeExpiryTime(zones, forecastResponse.location.localTime, forecastResponse.location.timeZoneId);
      if expiryTime.Failure? {
        return EmptyResponse, Some(ExpiryFailed(expiryTime.error));
      }

      // The `range` over the forecast map stops after one entry, whichever the map yields first.
      var forecastDate, forecast := "", NoForecast;
      if forecastResponse.forecast != map[] {
        forecastDate :| forecastDate in forecastResponse.forecast;
        forecast := forecastResponse.forecast[forecastDate];
      }

      resp := AstroResponse(
        forecastDate,
        forecastResponse.location.name,
        forecastResponse.location.region,
        forecastResponse.location.country,
        forecast.astroData,
        expiryTime.value);
      cache := cache[cacheKey := resp];
      err := None;
    }
  }

  /**
   * The decision of `AstroHandler`: 400 without touching the cache when the location is empty,
   * 500 when `GetAstro` fails or its answer cannot be marshalled, 200 with the answer otherwise.
   */
  method AstroHandler(wm: WeatherStackManager, location: string, now: Time, reply: AstroReply)
    returns (status: int, body: Option<AstroResponse>)
    modifies wm
    ensures status == 200 <==> body.Some?
    ensures location == "" ==>
      status == 400 && wm.cache == old(wm.cache) && wm.queries == old(wm.queries)
    ensures location != "" ==>
      var key := CacheKey(location, now);
      if Hit(old(wm.cache), key, now) || Refresh(wm.zones, reply).Success? then
        && key in wm.cache
        && status == (if MarshalsToJson(wm.cache[key].expiresAt) then 200 else 500)
        && (body.Some? ==> body.value == wm.cache[key])
      else
        status == 500 && wm.cache == old(wm.cache)
    ensures location != "" ==>
      var key := CacheKey(location, now);
      wm.queries == old(wm.queries) + if Hit(old(wm.cache), key, now) then [] else [location]
    ensures location != "" && Hit(old(wm.cache), CacheKey(location, now), now) ==>
      wm.cache == old(wm.cache) && body == (if MarshalsToJson(old(wm.cache)[CacheKey(location, now)].expiresAt)
                                             then Some(old(wm.cache)[CacheKey(location, now)]) else None)
    ensures location != "" && !Hit(old(wm.cache), CacheKey(location, now), now) ==>
      var key := CacheKey(location, now);
      match Refresh(wm.zones, reply)
      case Failure(_) => wm.cache == old(wm.cache)
      case Success(f) =>
        key in wm.cache && wm.cache == old(wm.cache)[key := wm.cache[key]] && AssembledFrom(wm.cache[key], f)
  {
    if location == "" {
      return 400, None;
    }
    var astroData, err := wm.GetAstro(location, now, reply);
    if err.Some? {
      return 500, None;
    }
    if !MarshalsToJson(astroData.expiresAt) {
      return 500, None;
    }
    return 200, Some(astroData);
  }

  /**
   * Two lookups with one clock reading on a new manager, as the caching tests make them. When
   * the first succeeds with an answer still fresh at `now` and the second names the same
   * location up to case, the second is served from the cache: one provider request, the same
   * answer. When the first failed, its answer has already expired, or the locations differ
   * other than in case, both lookups go to the provider.
   */
  method TwoLookups(zones: ZoneDb, first: string, second: string, now: Time, firstReply: AstroReply, secondReply: AstroReply)
    returns (r1: AstroResponse, e1: Option<FetchError>, r2: AstroResponse, e2: Option<FetchError>, ghost queries: seq<string>)
    ensures e1.None? && SameUpToCase(first, second) && Before(now, r1.expiresAt) ==> r2 == r1 && e2 == None
    ensures e1.None? && SameUpToCase(first, second) && Before(now, r1.expiresAt) ==> queries == [first]
    ensures e1.Some? || !SameUpToCase(first, second) || !Before(now, r1.expiresAt) ==>
      queries == [first, second]
  {
    var wsm := new WeatherStackManager(zones);
    r1, e1 := wsm.GetAstro(first, now, firstReply);
    assert wsm.queries == [first];
    assert wsm.cache == if e1.None? then map[CacheKey(first, now) := r1] else map[];
    assert CacheKey(first, now) == CacheKey(second, now) <==> SameUpToCase(first, second) by {
      LowerEqualIffSameUpToCase(first, second);
      KeySplits(ToLower(first), ToLower(second), FormatDate(now.wall.date), FormatDate(now.wall.date));
    }
    r2, e2 := wsm.GetAstro(second, now, secondReply);
    queries := wsm.queries;
  }

  // ---------------------------------------------------------------- a worked example

  /** A zone database that knows Vancouver at its summer offset, seven hours west of UTC. */
  const ExampleZones := ZoneDb(0, map["America/Vancouver" := -7 * 3600])

  /** A wall clock written as "YYYY-MM-DD HH:MM" expires at the next midnight of a known zone. */
  lemma ExpiryOfFormatted(zones: ZoneDb, w: Wall, timeZoneId: string)
    requires w.Valid() && w.date.year <= 9999 && w.second == 0 && w.nanosecond == 0
    requires LoadLocation(zones, timeZoneId).Success?
    ensures ComputeExpiryTime(zones, FormatWall(w), timeZoneId)
      == Success(Midnight(NextDay(w.date), LoadLocation(zones, timeZoneId).value))
  {
    ParseFormatRoundTrip(w);
  }

  /** The example database places Vancouver seven hours west of UTC. */
  lemma VancouverZone()
    ensures LoadLocation(ExampleZones, "America/Vancouver") == Success(-25200)
  {
    var zone := "America/Vancouver";
    assert forall i | 0 <= i < |zone| :: zone[i] != '.';
  }

  /** How the provider writes 16:30 on 2023-06-21. */
  lemma VancouverReportedText()
    ensures FormatWall(Wall(Date(2023, 6, 21), 16, 30, 0, 0)) == "2023-06-21 16:30"
  {
    FourDigitsSpelled(2, 0, 2, 3);
    TwoDigitsSpelled(0, 6);
    TwoDigitsSpelled(2, 1);
    TwoDigitsSpelled(1, 6);
    TwoDigitsSpelled(3, 0);
  }

  /** 16:30 on 2023-06-21 in Vancouver expires at the following local midnight. */
  lemma VancouverExpiry()
    ensures ComputeExpiryTime(ExampleZones, "2023-06-21 16:30", "America/Vancouver")
      == Success(Midnight(Date(2023, 6, 22), -25200))
  {
    VancouverZone();
    VancouverReportedText();
    var reported := Wall(Date(2023, 6, 21), 16, 30, 0, 0);
    assert NextDay(reported.date) == Date(2023, 6, 22) by {
      assert DaysIn(2023, 6) == 30;
    }
    ExpiryOfFormatted(ExampleZones, reported, "America/Vancouver");
  }
}
