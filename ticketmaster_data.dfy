/**
 * The records the Ticketmaster Discovery API returns, as far as `getEvents` reads them, and
 * the JSON values it builds from them. An optional chain such as
 * `event._embedded?.venues?.[0]?.city?.name` becomes the `Option` of the value it ends in;
 * a list the source reads with `?.` becomes a sequence that is empty when absent.
 */
module TicketmasterData {
  import opened Wrappers
  import opened JsNumbers

  /** One entry of `images`: its `ratio`, `width` and `url`. */
  datatype RawImage = RawImage(ratio: Option<string>, width: Option<int>, url: Option<string>)

  /**
   * One entry of `priceRanges`. Amounts are in cents; `None` stands for a `min` or `max`
   * that is `null` or absent.
   */
  datatype RawPrice = RawPrice(currency: Option<string>, min: Option<int>, max: Option<int>)

  /** One entry of `_embedded.attractions`. */
  datatype RawAttraction = RawAttraction(id: Option<string>, name: Option<string>)

  /**
   * One entry of `_embedded.venues`. `distance` is the number the API sends, if any;
   * `latitude` and `longitude` are the results of the source's `Number(...)` conversions of
   * the texts it sends; `imageUrl` is `images[0].url`; `generalRule` is
   * `generalInfo.generalRule`.
   */
  datatype RawVenue = RawVenue(
    name: Option<string>,
    url: Option<string>,
    imageUrl: Option<string>,
    city: Option<string>,
    stateCode: Option<string>,
    country: Option<string>,
    countryCode: Option<string>,
    address: Option<string>,
    distance: Option<real>,
    latitude: JsNumber,
    longitude: JsNumber,
    generalRule: Option<string>,
    accessibleSeatingDetail: Option<string>)

  /**
   * One entry of `_embedded.events`. `localDate`, `localTime` and `statusCode` are
   * `dates.start.localDate`, `dates.start.localTime` and `dates.status.code`; `genre` is
   * `classifications[0].genre.name`; `accessibilityInfo` and `ticketLimitInfo` are the `info`
   * texts of `accessibility` and `ticketLimit`.
   */
  datatype RawEvent = RawEvent(
    id: Option<string>,
    name: Option<string>,
    url: Option<string>,
    localDate: Option<string>,
    localTime: Option<string>,
    statusCode: Option<string>,
    images: seq<RawImage>,
    genre: Option<string>,
    priceRanges: seq<RawPrice>,
    attractions: seq<RawAttraction>,
    venues: seq<RawVenue>,
    info: Option<string>,
    pleaseNote: Option<string>,
    accessibilityInfo: Option<string>,
    ticketLimitInfo: Option<string>,
    additionalInfo: Option<string>)

  /** A JSON-like value as the route handlers hand it to `res.json`; `JUndefined` is `undefined`. */
  datatype Json =
    | JString(text: string)
    | JBool(flag: bool)
    | JNumber(number: JsNumber)
    | JArray(items: seq<Json>)
    | JObject(fields: seq<(string, Json)>)
    | JUndefined

  /** The first element of a list, as `list?.[0]` reads it. */
  function First<T>(s: seq<T>): (r: Option<T>)
    ensures r.Some? <==> |s| > 0
    ensures r.Some? ==> r.value == s[0]
  {
    if |s| == 0 then None else Some(s[0])
  }
}
