/**
 * The Dark Sky client (services/WeatherService.kt): two in-memory caches of forecasts
 * keyed by request URI, one for current conditions and one for full forecasts, and the
 * classification of an HTTP exchange into a forecast or an exception.
 *
 * The clock (`System.currentTimeMillis`) and the network are inputs: each call receives
 * the current time and the outcome the HTTP exchange would have.  The request URI is
 * built by `uriOf` from the coordinates and the exclusion list (the API key and the
 * "%.5f" formatting stay abstract).  A call's callback runs at once, and its arguments
 * are recorded in `delivered`; the URIs requested from the network are recorded in
 * `fetched`.
 */
module WeatherServices {
  import opened Common
  import opened UserLocations

  /** The decoded forecast document, kept opaque. */
  datatype Weather = Weather(document: string)

  /** A cache entry: when it was fetched and what was received. */
  datatype CachedWeather = CachedWeather(receivedTime: int, weather: Weather)

  /** The arguments of the `(Weather?, Exception?) -> Unit` callback. */
  datatype Delivery = Delivery(weather: Option<Weather>, exception: Option<Exception>)

  /** What reading the body of a response gives: no body, its text, or the exception the read throws. */
  datatype BodyRead = NoBody | BodyText(text: string) | BodyReadFailure(error: Exception)

  /** What the HTTP client reports for one request. */
  datatype HttpOutcome =
    | TransportFailure(error: Exception)
    | Response(code: int, successful: bool, body: BodyRead)

  const CurrentWeatherExclude := "minutely,hourly,daily,flags"
  const FullWeatherExclude := "flags"
  const CurrentForecastLifetime := 300
  const FullForecastLifetime := 300

  const UnsuccessfulMessage := "Weather is not available (R_UNSUCCESSFUL)"
  const NoDataMessage := "Weather is not available (R_NODATA)"

  /**
   * The callbacks of `fetchWeather`: a transport failure or a decoding failure is passed
   * on, an unsuccessful status or a missing body becomes a RuntimeException, and a body
   * that decodes becomes the weather.  Exactly one of the two arguments is non-null.
   * Reading the body happens outside the `try`: when the read throws, the exception
   * leaves `onResponse`, the HTTP client only logs it, and the callback never runs (None).
   */
  function Classify(outcome: HttpOutcome, decode: string -> Result<Weather, Exception>): (d: Option<Delivery>)
    ensures d.Some? ==> d.value.weather.Some? != d.value.exception.Some?
  {
    match outcome
    case TransportFailure(e) => Some(Delivery(None, Some(e)))
    case Response(_, successful, body) =>
      if !successful then Some(Delivery(None, Some(RuntimeException(UnsuccessfulMessage))))
      else match body
        case NoBody => Some(Delivery(None, Some(RuntimeException(NoDataMessage))))
        case BodyReadFailure(_) => None
        case BodyText(text) =>
          match decode(text)
          case Success(w) => Some(Delivery(Some(w), None))
          case Failure(e) => Some(Delivery(None, Some(e)))
  }

  /** The callback is skipped exactly when a successful response's body cannot be read. */
  lemma ClassifySkipsCallbackIff(outcome: HttpOutcome, decode: string -> Result<Weather, Exception>)
    ensures Classify(outcome, decode).None? <==>
      outcome.Response? && outcome.successful && outcome.body.BodyReadFailure?
  {
  }

  /** The callback gets weather exactly when the server answered successfully with a body that decodes. */
  lemma ClassifyYieldsWeatherIff(outcome: HttpOutcome, decode: string -> Result<Weather, Exception>)
    ensures (Classify(outcome, decode).Some? && Classify(outcome, decode).value.weather.Some?) <==>
      outcome.Response? && outcome.successful && outcome.body.BodyText? && decode(outcome.body.text).Success?
    ensures Classify(outcome, decode).Some? && Classify(outcome, decode).value.weather.Some? ==>
      Classify(outcome, decode).value.weather.value == decode(outcome.body.text).value
  {
  }

  /** Which exception each failing exchange produces. */
  lemma ClassifyErrors(outcome: HttpOutcome, decode: string -> Result<Weather, Exception>)
    ensures outcome.TransportFailure? ==> Classify(outcome, decode) == Some(Delivery(None, Some(outcome.error)))
    ensures outcome.Response? && !outcome.successful ==>
      Classify(outcome, decode) == Some(Delivery(None, Some(RuntimeException(UnsuccessfulMessage))))
    ensures outcome.Response? && outcome.successful && outcome.body.NoBody? ==>
      Classify(outcome, decode) == Some(Delivery(None, Some(RuntimeException(NoDataMessage))))
    ensures outcome.Response? && outcome.successful && outcome.body.BodyText? && decode(outcome.body.text).Failure? ==>
      Classify(outcome, decode) == Some(Delivery(None, Some(decode(outcome.body.text).error)))
  {
  }

  /**
   * The cache test as the code writes it: an entry is served when
   * `receivedTime + lifetime < currentTime`, with both times in milliseconds.
   */
  predicate CacheHit(receivedTime: int, lifetime: int, currentTime: int) {
    receivedTime + lifetime < currentTime
  }

  /** The cache test the doc comment describes: an entry is served while younger than `lifetime` seconds. */
  predicate CacheHitIntended(receivedTime: int, lifetimeSeconds: int, currentTime: int) {
    currentTime < receivedTime + lifetimeSeconds * 1000
  }

  /**
   * As written, an entry is never served in the first 300 ms after it was stored, and
   * once served it is served for ever: a forecast an hour old is still a hit.
   */
  lemma CacheHitAsWrittenIsInverted(receivedTime: int)
    ensures forall now :: receivedTime <= now <= receivedTime + CurrentForecastLifetime ==>
      !CacheHit(receivedTime, CurrentForecastLifetime, now)
    ensures CacheHit(receivedTime, CurrentForecastLifetime, receivedTime + 3_600_000)
    ensures forall later :: later > receivedTime + CurrentForecastLifetime ==> CacheHit(receivedTime, CurrentForecastLifetime, later)
  {
  }

  /**
   * The intended test serves an entry from the moment it is stored until five minutes
   * later, and never after.
   */
  lemma CacheHitIntendedExpires(receivedTime: int, currentTime: int)
    ensures receivedTime <= currentTime < receivedTime + 300_000 ==> CacheHitIntended(receivedTime, CurrentForecastLifetime, currentTime)
    ensures currentTime >= receivedTime + 300_000 ==> !CacheHitIntended(receivedTime, CurrentForecastLifetime, currentTime)
    ensures forall earlier :: earlier <= currentTime && CacheHitIntended(receivedTime, CurrentForecastLifetime, currentTime) ==>
      CacheHitIntended(receivedTime, CurrentForecastLifetime, earlier)
  {
  }

  class WeatherService {
    /** `getUri(latitude, longitude, exclude)`. */
    const uriOf: (real, real, string) -> string
    /** `jsonMapper.readValue<Weather>`. */
    const decode: string -> Result<Weather, Exception>

    var cachedCurrentWeather: map<string, CachedWeather>
    var cachedFullWeather: map<string, CachedWeather>

    ghost var fetched: seq<string>
    ghost var delivered: seq<Delivery>

    constructor (uriOf: (real, real, string) -> string, decode: string -> Result<Weather, Exception>)
      ensures this.uriOf == uriOf && this.decode == decode
      ensures cachedCurrentWeather == map[] && cachedFullWeather == map[]
      ensures fetched == [] && delivered == []
    {
      this.uriOf := uriOf;
      this.decode := decode;
      cachedCurrentWeather := map[];
      cachedFullWeather := map[];
      fetched := [];
      delivered := [];
    }

    /** `fetchWeather`: one request to `uri`; the callback, when it runs, gets what `Classify` says. */
    method FetchWeather(uri: string, outcome: HttpOutcome) returns (d: Option<Delivery>)
      modifies this`fetched
      ensures fetched == old(fetched) + [uri]
      ensures d == Classify(outcome, decode)
    {
      fetched := fetched + [uri];
      d := Classify(outcome, decode);
    }

    /**
     * `getCurrentForecast`: serves the cached entry for the URI when the cache test
     * passes; otherwise fetches once, caches a successful result stamped with the time
     * read before the fetch, and hands the result on unchanged.  The callback runs at most
     * once: not at all when the fetch never calls back.
     */
    method GetCurrentForecast(location: UserLocation, currentTime: int, outcome: HttpOutcome) returns (d: Option<Delivery>)
      modifies this`cachedCurrentWeather, this`fetched, this`delivered
      ensures var uri := uriOf(location.latitude, location.longitude, CurrentWeatherExclude);
        var hit := uri in old(cachedCurrentWeather) && CacheHit(old(cachedCurrentWeather)[uri].receivedTime, CurrentForecastLifetime, currentTime);
        && delivered == old(delivered) + (if d.Some? then [d.value] else [])
        && (hit ==> && d == Some(Delivery(Some(old(cachedCurrentWeather)[uri].weather), None))
                    && fetched == old(fetched)
                    && cachedCurrentWeather == old(cachedCurrentWeather))
        && (!hit ==> && d == Classify(outcome, decode)
                     && fetched == old(fetched) + [uri]
                     && cachedCurrentWeather == (if d.Some? && d.value.exception.None? && d.value.weather.Some?
                                                 then old(cachedCurrentWeather)[uri := CachedWeather(currentTime, d.value.weather.value)]
                                                 else old(cachedCurrentWeather)))
    {
      var uri := uriOf(location.latitude, location.longitude, CurrentWeatherExclude);
      if uri in cachedCurrentWeather {
        var entry := cachedCurrentWeather[uri];
        if entry.receivedTime + CurrentForecastLifetime < currentTime {
          d := Some(Delivery(Some(entry.weather), None));
          delivered := delivered + [d.value];
          return;
        }
      }
      d := FetchWeather(uri, outcome);
      if d.Some? {
        if d.value.exception.None? && d.value.weather.Some? {
          cachedCurrentWeather := cachedCurrentWeather[uri := CachedWeather(currentTime, d.value.weather.value)];
        }
        delivered := delivered + [d.value];
      }
    }

    /** `getFullForecast`: the same policy over the full-forecast cache and URI. */
    method GetFullForecast(location: UserLocation, currentTime: int, outcome: HttpOutcome) returns (d: Option<Delivery>)
      modifies this`cachedFullWeather, this`fetched, this`delivered
      ensures var uri := uriOf(location.latitude, location.longitude, FullWeatherExclude);
        var hit := uri in old(cachedFullWeather) && CacheHit(old(cachedFullWeather)[uri].receivedTime, FullForecastLifetime, currentTime);
        && delivered == old(delivered) + (if d.Some? then [d.value] else [])
        && (hit ==> && d == Some(Delivery(Some(old(cachedFullWeather)[uri].weather), None))
                    && fetched == old(fetched)
                    && cachedFullWeather == old(cachedFullWeather))
        && (!hit ==> && d == Classify(outcome, decode)
                     && fetched == old(fetched) + [uri]
                     && cachedFullWeather == (if d.Some? && d.value.exception.None? && d.value.weather.Some?
                                              then old(cachedFullWeather)[uri := CachedWeather(currentTime, d.value.weather.value)]
                                              else old(cachedFullWeather)))
    {
      var uri := uriOf(location.latitude, location.longitude, FullWeatherExclude);
      if uri in cachedFullWeather {
        var entry := cachedFullWeather[uri];
        if entry.receivedTime + FullForecastLifetime < currentTime {
          d := Some(Delivery(Some(entry.weather), None));
          delivered := delivered + [d.value];
          return;
        }
      }
      d := FetchWeather(uri, outcome);
      if d.Some? {
        if d.value.exception.None? && d.value.weather.Some? {
          cachedFullWeather := cachedFullWeather[uri := CachedWeather(currentTime, d.value.weather.value)];
        }
        delivered := delivered + [d.value];
      }
    }
  }
}
