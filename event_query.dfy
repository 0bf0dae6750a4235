/**
 * The query string `getEvents` sends to the Ticketmaster Discovery API: an ordered list of
 * name/value pairs appended one by one to a `URLSearchParams`.
 */
module EventQuery {
  import opened Wrappers
  import opened Seqs
  import opened Text
  import StateUtils
  import opened JsNumbers

  /**
   * The options record `getEvents` destructures. Absent and empty strings are both `""`
   * (the source only tests them for truthiness); an absent `radius` or `size` is `NaN`.
   * `latitude` and `longitude` are the numbers as they print.
   */
  datatype SearchOptions = SearchOptions(
    eventIds: seq<string>,
    attractionIds: seq<string>,
    latitude: string,
    longitude: string,
    radius: JsNumber,
    countryCode: string,
    size: JsNumber,
    keyword: string,
    sort: string,
    startDate: string,
    endDate: string,
    mode: string,
    followedEvents: seq<string>,
    searchLocation: string)

  /** The defaults of the destructuring pattern: the UIUC coordinates and LIST mode. */
  function DefaultOptions(): SearchOptions {
    SearchOptions([], [], "40.1164", "-88.2434", NaN, "", NaN, "", "", "", "", "LIST", [], "")
  }

  /** `Math.round`: the nearest integer, halves rounded up. */
  function Round(x: real): (r: int)
    ensures r as real - 0.5 <= x < r as real + 0.5
  {
    (x + 0.5).Floor
  }

  /** `Math.min(Math.max(1, Math.round(size)), 9999)`, or `None` for `NaN`. */
  function ClampedSize(size: JsNumber): (r: Option<int>)
    ensures r.Some? <==> !size.NaN?
    ensures r.Some? ==> 1 <= r.value <= 9999
    ensures size.Finite? && 1 <= Round(size.value) <= 9999 ==> r == Some(Round(size.value))
    ensures size.Finite? && Round(size.value) < 1 ==> r == Some(1)
    ensures size.Finite? && Round(size.value) > 9999 ==> r == Some(9999)
  {
    match size
    case NaN => None
    case PositiveInfinity => Some(9999)
    case NegativeInfinity => Some(1)
    case Finite(x) =>
      var n := Round(x);
      Some(if n < 1 then 1 else if n > 9999 then 9999 else n)
  }

  /** `validSize.toString()`. */
  function SizeText(size: JsNumber): string {
    match ClampedSize(size)
    case None => "NaN"
    case Some(n) => NatToString(n)
  }

  /** `radius && Number.isInteger(radius)`: a non-zero integer, negative ones included. */
  predicate RadiusSent(radius: JsNumber) {
    radius.Truthy() && radius.IsInteger()
  }

  /** `radius.toString()` for an integer radius. */
  function RadiusText(radius: JsNumber): (r: string)
    ensures radius.Finite? ==> |r| >= 1 && (radius.value < 0.0 <==> r[0] == '-')
  {
    if radius.Finite? then IntToString(radius.value.Floor) else ""
  }

  /** Characters `/[^a-zA-Z\s]/g` leaves in place. */
  predicate LocationChar(c: char) {
    IsLower(c) || IsUpper(c) || IsSpace(c)
  }

  /** `searchlocation.trim().replace(/[^a-zA-Z\s]/g, '')`. */
  function CleanLocation(s: string): (r: string)
    ensures forall i | 0 <= i < |r| :: LocationChar(r[i])
  {
    var r := Filter(Trim(s), LocationChar);
    assert forall i | 0 <= i < |r| :: r[i] in r;
    r
  }

  /** The names of the query parameters the source appends. */
  datatype ParamName =
    | LatLong | Unit | Id | AttractionId | Keyword | Radius | CountryCode | LocalStartDateTime | LocalEndDateTime | Sort | Size | IncludeSpellcheck | StateCode | City
  {
    /** The name as it appears in the query string. The model compares parameters by
      * constructor; this only records the wire name of each of the fourteen. */
    function Text(): string {
      match this
      case LatLong => "latlong"
      case Unit => "unit"
      case Id => "id"
      case AttractionId => "attractionId"
      case Keyword => "keyword"
      case Radius => "radius"
      case CountryCode => "countryCode"
      case LocalStartDateTime => "localStartDateTime"
      case LocalEndDateTime => "localEndDateTime"
      case Sort => "sort"
      case Size => "size"
      case IncludeSpellcheck => "includeSpellcheck"
      case StateCode => "stateCode"
      case City => "city"
    }
  }

  type QueryPair = (ParamName, string)

  /** A `URLSearchParams` object: its entries in the order they were appended. */
  class SearchParams {
    var entries: seq<QueryPair>

    constructor ()
      ensures entries == []
    {
      entries := [];
    }

    /** `params.append(name, value)`: adds a pair at the end, keeping earlier pairs. */
    method Append(name: ParamName, value: string)
      modifies this
      ensures entries == old(entries) + [(name, value)]
    {
      entries := entries + [(name, value)];
    }
  }

  /**
   * The pair `(name, value)` followed by `rest` when `sent` holds, and `rest` alone otherwise:
   * one guarded `append`, followed by the appends after it.
   */
  function Opt(sent: bool, name: ParamName, value: string, rest: seq<QueryPair>): seq<QueryPair> {
    if sent then [(name, value)] + rest else rest
  }

  /** The cleaned search location. */
  function Cleaned(o: SearchOptions): string {
    CleanLocation(o.searchLocation)
  }

  /** The state code the cleaned search location resolves to, if any. */
  function LocationCode(o: SearchOptions): Option<string> {
    StateUtils.IsStateCode(Cleaned(o))
  }

  /** The location, then at most one selector: event ids, else attraction ids, else the keyword. */
  function LocationAndSelector(o: SearchOptions, rest: seq<QueryPair>): seq<QueryPair> {
    Opt(true, LatLong, o.latitude + "," + o.longitude,
    Opt(true, Unit, "km",
    Opt(|o.eventIds| > 0, Id, Join(o.eventIds, ","),
    Opt(|o.eventIds| == 0 && |o.attractionIds| > 0, AttractionId, Join(o.attractionIds, ","),
    Opt(|o.eventIds| == 0 && |o.attractionIds| == 0 && o.keyword != "", Keyword, o.keyword,
    rest)))))
  }

  /** Radius and country, then the given date bounds or, when neither is given, `now` as the start. */
  function Filters(o: SearchOptions, now: string, rest: seq<QueryPair>): seq<QueryPair> {
    Opt(RadiusSent(o.radius), Radius, RadiusText(o.radius),
    Opt(o.countryCode != "", CountryCode, o.countryCode,
    Opt(o.startDate != "", LocalStartDateTime, o.startDate,
    Opt(o.endDate != "", LocalEndDateTime, o.endDate,
    Opt(o.startDate == "" && o.endDate == "", LocalStartDateTime, now,
    rest)))))
  }

  /**
   * Sort, size, the spelling check, and a state code or a city for a search location;
   * `cleaned` is the cleaned search location and `code` the state it resolves to, if any.
   */
  function Presentation(o: SearchOptions, cleaned: string, code: Option<string>, rest: seq<QueryPair>): seq<QueryPair> {
    Opt(o.sort != "", Sort, o.sort,
    Opt(true, Size, SizeText(o.size),
    Opt(o.keyword != "", IncludeSpellcheck, "yes",
    Opt(o.searchLocation != "" && code.Some?, StateCode, code.GetOr(""),
    Opt(o.searchLocation != "" && code.None?, City, cleaned,
    rest)))))
  }

  /**
   * Every pair `getEvents` appends, in append order; `now` is the current time in Chicago
   * as the source formats it.
   */
  function QueryPairs(o: SearchOptions, now: string): seq<QueryPair> {
    LocationAndSelector(o, Filters(o, now, Presentation(o, Cleaned(o), LocationCode(o), [])))
  }

  lemma OptAppend(sent: bool, name: ParamName, value: string, a: seq<QueryPair>, b: seq<QueryPair>)
    ensures Opt(sent, name, value, a + b) == Opt(sent, name, value, a) + b
  {
  }

  lemma LocationAndSelectorAppend(o: SearchOptions, rest: seq<QueryPair>)
    ensures LocationAndSelector(o, rest) == LocationAndSelector(o, []) + rest
  {
    OptAppend(true, LatLong, o.latitude + "," + o.longitude, Opt(true, Unit, "km", Opt(|o.eventIds| > 0, Id, Join(o.eventIds, ","), Opt(|o.eventIds| == 0 && |o.attractionIds| > 0, AttractionId, Join(o.attractionIds, ","), Opt(|o.eventIds| == 0 && |o.attractionIds| == 0 && o.keyword != "", Keyword, o.keyword, [])))), rest);
    OptAppend(true, Unit, "km", Opt(|o.eventIds| > 0, Id, Join(o.eventIds, ","), Opt(|o.eventIds| == 0 && |o.attractionIds| > 0, AttractionId, Join(o.attractionIds, ","), Opt(|o.eventIds| == 0 && |o.attractionIds| == 0 && o.keyword != "", Keyword, o.keyword, []))), rest);
    OptAppend(|o.eventIds| > 0, Id, Join(o.eventIds, ","), Opt(|o.eventIds| == 0 && |o.attractionIds| > 0, AttractionId, Join(o.attractionIds, ","), Opt(|o.eventIds| == 0 && |o.attractionIds| == 0 && o.keyword != "", Keyword, o.keyword, [])), rest);
    OptAppend(|o.eventIds| == 0 && |o.attractionIds| > 0, AttractionId, Join(o.attractionIds, ","), Opt(|o.eventIds| == 0 && |o.attractionIds| == 0 && o.keyword != "", Keyword, o.keyword, []), rest);
    OptAppend(|o.eventIds| == 0 && |o.attractionIds| == 0 && o.keyword != "", Keyword, o.keyword, [], rest);
  }

  lemma FiltersAppend(o: SearchOptions, now: string, rest: seq<QueryPair>)
    ensures Filters(o, now, rest) == Filters(o, now, []) + rest
  {
    OptAppend(RadiusSent(o.radius), Radius, RadiusText(o.radius), Opt(o.countryCode != "", CountryCode, o.countryCode, Opt(o.startDate != "", LocalStartDateTime, o.startDate, Opt(o.endDate != "", LocalEndDateTime, o.endDate, Opt(o.startDate == "" && o.endDate == "", LocalStartDateTime, now, [])))), rest);
    OptAppend(o.countryCode != "", CountryCode, o.countryCode, Opt(o.startDate != "", LocalStartDateTime, o.startDate, Opt(o.endDate != "", LocalEndDateTime, o.endDate, Opt(o.startDate == "" && o.endDate == "", LocalStartDateTime, now, []))), rest);
    OptAppend(o.startDate != "", LocalStartDateTime, o.startDate, Opt(o.endDate != "", LocalEndDateTime, o.endDate, Opt(o.startDate == "" && o.endDate == "", LocalStartDateTime, now, [])), rest);
    OptAppend(o.endDate != "", LocalEndDateTime, o.endDate, Opt(o.startDate == "" && o.endDate == "", LocalStartDateTime, now, []), rest);
    OptAppend(o.startDate == "" && o.endDate == "", LocalStartDateTime, now, [], rest);
  }

  /** The three sections of the query, one after the other. */
  lemma QueryPairsSections(o: SearchOptions, now: string)
    ensures QueryPairs(o, now) == LocationAndSelector(o, []) + Filters(o, now, []) + Presentation(o, Cleaned(o), LocationCode(o), [])
  {
    LocationAndSelectorAppend(o, Filters(o, now, Presentation(o, Cleaned(o), LocationCode(o), [])));
    FiltersAppend(o, now, Presentation(o, Cleaned(o), LocationCode(o), []));
    AppendAssoc(LocationAndSelector(o, []), Filters(o, now, []), Presentation(o, Cleaned(o), LocationCode(o), []));
  }

  /** The appends of the location and the selector. */
  method AppendLocationAndSelector(params: SearchParams, o: SearchOptions)
    modifies params
    ensures params.entries == old(params.entries) + LocationAndSelector(o, [])
  {
    params.Append(LatLong, o.latitude + "," + o.longitude);
    params.Append(Unit, "km");
    if |o.eventIds| > 0 {
      params.Append(Id, Join(o.eventIds, ","));
    } else if |o.attractionIds| > 0 {
      params.Append(AttractionId, Join(o.attractionIds, ","));
    } else if o.keyword != "" {
      params.Append(Keyword, o.keyword);
    }
  }

  /** The appends of the radius, the country and the date bounds. */
  method AppendFilters(params: SearchParams, o: SearchOptions, now: string)
    modifies params
    ensures params.entries == old(params.entries) + Filters(o, now, [])
  {
    if o.radius.Truthy() && o.radius.IsInteger() {
      params.Append(Radius, RadiusText(o.radius));
    }
    if o.countryCode != "" {
      params.Append(CountryCode, o.countryCode);
    }
    if o.startDate != "" {
      params.Append(LocalStartDateTime, o.startDate);
    }
    if o.endDate != "" {
      params.Append(LocalEndDateTime, o.endDate);
    }
    if o.startDate == "" && o.endDate == "" {
      params.Append(LocalStartDateTime, now);
    }
  }

  /** The appends of the sort order, the size, the spelling check and the search location. */
  method AppendPresentation(params: SearchParams, o: SearchOptions)
    modifies params
    ensures params.entries == old(params.entries) + Presentation(o, Cleaned(o), LocationCode(o), [])
  {
    if o.sort != "" {
      params.Append(Sort, o.sort);
    }
    params.Append(Size, SizeText(o.size));
    if o.keyword != "" {
      params.Append(IncludeSpellcheck, "yes");
    }
    assert params.entries == old(params.entries) + SortSizeSpellcheck(o, []);
    AppendSearchLocation(params, o);
    PresentationSplit(o, Cleaned(o), LocationCode(o));
    ghost var location := Opt(o.searchLocation != "" && LocationCode(o).Some?, StateCode, LocationCode(o).GetOr(""),
      Opt(o.searchLocation != "" && LocationCode(o).None?, City, Cleaned(o), []));
    AppendAssoc(old(params.entries), SortSizeSpellcheck(o, []), location);
  }

  /** The pairs of a presentation section before its search location. */
  function SortSizeSpellcheck(o: SearchOptions, rest: seq<QueryPair>): seq<QueryPair> {
    Opt(o.sort != "", Sort, o.sort,
    Opt(true, Size, SizeText(o.size),
    Opt(o.keyword != "", IncludeSpellcheck, "yes",
    rest)))
  }

  lemma PresentationSplit(o: SearchOptions, cleaned: string, code: Option<string>)
    ensures Presentation(o, cleaned, code, []) == SortSizeSpellcheck(o, [])
      + Opt(o.searchLocation != "" && code.Some?, StateCode, code.GetOr(""),
        Opt(o.searchLocation != "" && code.None?, City, cleaned, []))
  {
    var loc := Opt(o.searchLocation != "" && code.Some?, StateCode, code.GetOr(""),
               Opt(o.searchLocation != "" && code.None?, City, cleaned, []));
    OptAppend(o.sort != "", Sort, o.sort, Opt(true, Size, SizeText(o.size), Opt(o.keyword != "", IncludeSpellcheck, "yes", [])), loc);
    OptAppend(true, Size, SizeText(o.size), Opt(o.keyword != "", IncludeSpellcheck, "yes", []), loc);
    OptAppend(o.keyword != "", IncludeSpellcheck, "yes", [], loc);
  }

  /** The appends of a state code or a city, for a non-empty search location. */
  method AppendSearchLocation(params: SearchParams, o: SearchOptions)
    modifies params
    ensures params.entries == old(params.entries)
      + Opt(o.searchLocation != "" && LocationCode(o).Some?, StateCode, LocationCode(o).GetOr(""),
        Opt(o.searchLocation != "" && LocationCode(o).None?, City, Cleaned(o), []))
  {
    if o.searchLocation != "" {
      var cleaned := Cleaned(o);
      var code := LocationCode(o);
      if code.Some? {
        params.Append(StateCode, code.value);
      } else {
        params.Append(City, cleaned);
      }
    }
  }

  /** The query built step by step as the source does, one `append` per pair. */
  method BuildSearchParams(o: SearchOptions, now: string) returns (params: SearchParams)
    ensures fresh(params)
    ensures params.entries == QueryPairs(o, now)
  {
    params := new SearchParams();
    AppendLocationAndSelector(params, o);
    assert params.entries == LocationAndSelector(o, []);
    AppendFilters(params, o, now);
    AppendPresentation(params, o);
    QueryPairsSections(o, now);
  }

  /** `params.getAll(name)`: the values appended under `name`, in order. */
  function ValuesOf(q: seq<QueryPair>, name: ParamName): seq<string> {
    if |q| == 0 then []
    else (if q[0].0 == name then [q[0].1] else []) + ValuesOf(q[1..], name)
  }

  /** The value a guarded append contributes. */
  function OptValue(sent: bool, value: string): seq<string> {
    if sent then [value] else []
  }

  lemma ValuesOfOpt(sent: bool, n: ParamName, v: string, rest: seq<QueryPair>, name: ParamName)
    ensures ValuesOf(Opt(sent, n, v, rest), name)
      == (if n == name then OptValue(sent, v) else []) + ValuesOf(rest, name)
  {
    if sent {
      assert Opt(sent, n, v, rest)[1..] == rest;
    }
  }

  lemma LocationAndSelectorValues(o: SearchOptions, name: ParamName, rest: seq<QueryPair>)
    ensures ValuesOf(LocationAndSelector(o, rest), name)
      == (if name == LatLong then OptValue(true, o.latitude + "," + o.longitude) else [])
      + ((if name == Unit then OptValue(true, "km") else [])
      + ((if name == Id then OptValue(|o.eventIds| > 0, Join(o.eventIds, ",")) else [])
      + ((if name == AttractionId then OptValue(|o.eventIds| == 0 && |o.attractionIds| > 0, Join(o.attractionIds, ",")) else [])
      + ((if name == Keyword then OptValue(|o.eventIds| == 0 && |o.attractionIds| == 0 && o.keyword != "", o.keyword) else [])
      + (ValuesOf(rest, name))))))
  {
    ValuesOfOpt(true, LatLong, o.latitude + "," + o.longitude, Opt(true, Unit, "km", Opt(|o.eventIds| > 0, Id, Join(o.eventIds, ","), Opt(|o.eventIds| == 0 && |o.attractionIds| > 0, AttractionId, Join(o.attractionIds, ","), Opt(|o.eventIds| == 0 && |o.attractionIds| == 0 && o.keyword != "", Keyword, o.keyword, rest)))), name);
    ValuesOfOpt(true, Unit, "km", Opt(|o.eventIds| > 0, Id, Join(o.eventIds, ","), Opt(|o.eventIds| == 0 && |o.attractionIds| > 0, AttractionId, Join(o.attractionIds, ","), Opt(|o.eventIds| == 0 && |o.attractionIds| == 0 && o.keyword != "", Keyword, o.keyword, rest))), name);
    ValuesOfOpt(|o.eventIds| > 0, Id, Join(o.eventIds, ","), Opt(|o.eventIds| == 0 && |o.attractionIds| > 0, AttractionId, Join(o.attractionIds, ","), Opt(|o.eventIds| == 0 && |o.attractionIds| == 0 && o.keyword != "", Keyword, o.keyword, rest)), name);
    ValuesOfOpt(|o.eventIds| == 0 && |o.attractionIds| > 0, AttractionId, Join(o.attractionIds, ","), Opt(|o.eventIds| == 0 && |o.attractionIds| == 0 && o.keyword != "", Keyword, o.keyword, rest), name);
    ValuesOfOpt(|o.eventIds| == 0 && |o.attractionIds| == 0 && o.keyword != "", Keyword, o.keyword, rest, name);
  }

  lemma FiltersValues(o: SearchOptions, now: string, name: ParamName, rest: seq<QueryPair>)
    ensures ValuesOf(Filters(o, now, rest), name)
      == (if name == Radius then OptValue(RadiusSent(o.radius), RadiusText(o.radius)) else [])
      + ((if name == CountryCode then OptValue(o.countryCode != "", o.countryCode) else [])
      + ((if name == LocalStartDateTime then OptValue(o.startDate != "", o.startDate) else [])
      + ((if name == LocalEndDateTime then OptValue(o.endDate != "", o.endDate) else [])
      + ((if name == LocalStartDateTime then OptValue(o.startDate == "" && o.endDate == "", now) else [])
      + (ValuesOf(rest, name))))))
  {
    ValuesOfOpt(RadiusSent(o.radius), Radius, RadiusText(o.radius), Opt(o.countryCode != "", CountryCode, o.countryCode, Opt(o.startDate != "", LocalStartDateTime, o.startDate, Opt(o.endDate != "", LocalEndDateTime, o.endDate, Opt(o.startDate == "" && o.endDate == "", LocalStartDateTime, now, rest)))), name);
    ValuesOfOpt(o.countryCode != "", CountryCode, o.countryCode, Opt(o.startDate != "", LocalStartDateTime, o.startDate, Opt(o.endDate != "", LocalEndDateTime, o.endDate, Opt(o.startDate == "" && o.endDate == "", LocalStartDateTime, now, rest))), name);
    ValuesOfOpt(o.startDate != "", LocalStartDateTime, o.startDate, Opt(o.endDate != "", LocalEndDateTime, o.endDate, Opt(o.startDate == "" && o.endDate == "", LocalStartDateTime, now, rest)), name);
    ValuesOfOpt(o.endDate != "", LocalEndDateTime, o.endDate, Opt(o.startDate == "" && o.endDate == "", LocalStartDateTime, now, rest), name);
    ValuesOfOpt(o.startDate == "" && o.endDate == "", LocalStartDateTime, now, rest, name);
  }

  lemma PresentationValues(o: SearchOptions, cleaned: string, code: Option<string>, name: ParamName, rest: seq<QueryPair>)
    ensures ValuesOf(Presentation(o, cleaned, code, rest), name)
      == (if name == Sort then OptValue(o.sort != "", o.sort) else [])
      + ((if name == Size then OptValue(true, SizeText(o.size)) else [])
      + ((if name == IncludeSpellcheck then OptValue(o.keyword != "", "yes") else [])
      + ((if name == StateCode then OptValue(o.searchLocation != "" && code.Some?, code.GetOr("")) else [])
      + ((if name == City then OptValue(o.searchLocation != "" && code.None?, cleaned) else [])
      + ValuesOf(rest, name)))))
  {
    ValuesOfOpt(o.sort != "", Sort, o.sort, Opt(true, Size, SizeText(o.size), Opt(o.keyword != "", IncludeSpellcheck, "yes", Opt(o.searchLocation != "" && code.Some?, StateCode, code.GetOr(""), Opt(o.searchLocation != "" && code.None?, City, cleaned, rest)))), name);
    ValuesOfOpt(true, Size, SizeText(o.size), Opt(o.keyword != "", IncludeSpellcheck, "yes", Opt(o.searchLocation != "" && code.Some?, StateCode, code.GetOr(""), Opt(o.searchLocation != "" && code.None?, City, cleaned, rest))), name);
    ValuesOfOpt(o.keyword != "", IncludeSpellcheck, "yes", Opt(o.searchLocation != "" && code.Some?, StateCode, code.GetOr(""), Opt(o.searchLocation != "" && code.None?, City, cleaned, rest)), name);
    ValuesOfOpt(o.searchLocation != "" && code.Some?, StateCode, code.GetOr(""), Opt(o.searchLocation != "" && code.None?, City, cleaned, rest), name);
    ValuesOfOpt(o.searchLocation != "" && code.None?, City, cleaned, rest, name);
  }

  /** The values under one name: each guarded append in order, section after section. */
  lemma QueryValues(o: SearchOptions, now: string, name: ParamName)
    ensures ValuesOf(QueryPairs(o, now), name)
      == (if name == LatLong then OptValue(true, o.latitude + "," + o.longitude) else [])
      + ((if name == Unit then OptValue(true, "km") else [])
      + ((if name == Id then OptValue(|o.eventIds| > 0, Join(o.eventIds, ",")) else [])
      + ((if name == AttractionId then OptValue(|o.eventIds| == 0 && |o.attractionIds| > 0, Join(o.attractionIds, ",")) else [])
      + ((if name == Keyword then OptValue(|o.eventIds| == 0 && |o.attractionIds| == 0 && o.keyword != "", o.keyword) else [])
      + ((if name == Radius then OptValue(RadiusSent(o.radius), RadiusText(o.radius)) else [])
      + ((if name == CountryCode then OptValue(o.countryCode != "", o.countryCode) else [])
      + ((if name == LocalStartDateTime then OptValue(o.startDate != "", o.startDate) else [])
      + ((if name == LocalEndDateTime then OptValue(o.endDate != "", o.endDate) else [])
      + ((if name == LocalStartDateTime then OptValue(o.startDate == "" && o.endDate == "", now) else [])
      + ((if name == Sort then OptValue(o.sort != "", o.sort) else [])
      + ((if name == Size then OptValue(true, SizeText(o.size)) else [])
      + ((if name == IncludeSpellcheck then OptValue(o.keyword != "", "yes") else [])
      + ((if name == StateCode then OptValue(o.searchLocation != "" && LocationCode(o).Some?, LocationCode(o).GetOr("")) else [])
      + ((if name == City then OptValue(o.searchLocation != "" && LocationCode(o).None?, Cleaned(o)) else [])
      + ValuesOf([], name)))))))))))))))
  {
    LocationAndSelectorValues(o, name, Filters(o, now, Presentation(o, Cleaned(o), LocationCode(o), [])));
    FiltersValues(o, now, name, Presentation(o, Cleaned(o), LocationCode(o), []));
    PresentationValues(o, Cleaned(o), LocationCode(o), name, []);
  }

  /**
   * At most one selector is sent, with priority `id` > `attractionId` > `keyword`; id lists
   * are comma-joined, and nothing is selected when all three are empty.
   */
  lemma SelectorPriority(o: SearchOptions, now: string)
    ensures ValuesOf(QueryPairs(o, now), Id)
      == if |o.eventIds| > 0 then [Join(o.eventIds, ",")] else []
    ensures ValuesOf(QueryPairs(o, now), AttractionId)
      == if |o.eventIds| == 0 && |o.attractionIds| > 0 then [Join(o.attractionIds, ",")] else []
    ensures ValuesOf(QueryPairs(o, now), Keyword)
      == if |o.eventIds| == 0 && |o.attractionIds| == 0 && o.keyword != "" then [o.keyword] else []
  {
    QueryValues(o, now, Id);
    QueryValues(o, now, AttractionId);
    QueryValues(o, now, Keyword);
  }

  /** `size` is always sent once; for any value but `NaN` it reads back as a number in [1, 9999]. */
  lemma SizeRule(o: SearchOptions, now: string)
    ensures ValuesOf(QueryPairs(o, now), Size) == [SizeText(o.size)]
    ensures !o.size.NaN? ==> forall i | 0 <= i < |SizeText(o.size)| :: IsDigit(SizeText(o.size)[i])
    ensures !o.size.NaN? ==> 1 <= DigitsValue(SizeText(o.size)) <= 9999
    ensures o.size.NaN? ==> SizeText(o.size) == "NaN"
  {
    QueryValues(o, now, Size);
    if !o.size.NaN? {
      DigitsValueOfNatToString(ClampedSize(o.size).value);
    }
  }

  /** `radius` is sent, as its decimal digits, exactly when it is a non-zero integer. */
  lemma RadiusRule(o: SearchOptions, now: string)
    ensures ValuesOf(QueryPairs(o, now), Radius)
      == if RadiusSent(o.radius) then [IntToString(o.radius.value.Floor)] else []
  {
    QueryValues(o, now, Radius);
  }

  /** `countryCode` is sent, as given, exactly when it is not empty. */
  lemma CountryRule(o: SearchOptions, now: string)
    ensures ValuesOf(QueryPairs(o, now), CountryCode) == if o.countryCode != "" then [o.countryCode] else []
  {
    QueryValues(o, now, CountryCode);
  }

  /**
   * Each given bound is sent as it is; the current time becomes the start only when neither
   * bound is given, so an end-only search has no start bound.
   */
  lemma DateRule(o: SearchOptions, now: string)
    ensures ValuesOf(QueryPairs(o, now), LocalStartDateTime)
      == if o.startDate != "" then [o.startDate] else if o.endDate == "" then [now] else []
    ensures ValuesOf(QueryPairs(o, now), LocalEndDateTime)
      == if o.endDate != "" then [o.endDate] else []
  {
    StartDateValues(o, now);
    EndDateValues(o, now);
  }

  lemma StartDateValues(o: SearchOptions, now: string)
    ensures ValuesOf(QueryPairs(o, now), LocalStartDateTime)
      == if o.startDate != "" then [o.startDate] else if o.endDate == "" then [now] else []
  {
    QueryValues(o, now, LocalStartDateTime);
  }

  lemma EndDateValues(o: SearchOptions, now: string)
    ensures ValuesOf(QueryPairs(o, now), LocalEndDateTime) == if o.endDate != "" then [o.endDate] else []
  {
    QueryValues(o, now, LocalEndDateTime);
  }

  /** The spelling check is requested exactly when there is a keyword, selector or not. */
  lemma SpellcheckRule(o: SearchOptions, now: string)
    ensures ValuesOf(QueryPairs(o, now), IncludeSpellcheck)
      == if o.keyword != "" then ["yes"] else []
  {
    QueryValues(o, now, IncludeSpellcheck);
  }

  /**
   * A non-empty search location sends exactly one of `stateCode` (when the cleaned text
   * resolves to a state) and `city` (the cleaned text otherwise, even when it is empty).
   */
  lemma SearchLocationRule(o: SearchOptions, now: string)
    ensures o.searchLocation == "" ==>
      ValuesOf(QueryPairs(o, now), StateCode) == [] && ValuesOf(QueryPairs(o, now), City) == []
    ensures o.searchLocation != "" ==>
      |ValuesOf(QueryPairs(o, now), StateCode)| + |ValuesOf(QueryPairs(o, now), City)| == 1
    ensures o.searchLocation != "" ==>
      match StateUtils.IsStateCode(CleanLocation(o.searchLocation))
      case Some(code) => ValuesOf(QueryPairs(o, now), StateCode) == [code]
      case None => ValuesOf(QueryPairs(o, now), City) == [CleanLocation(o.searchLocation)]
  {
    QueryValues(o, now, StateCode);
    QueryValues(o, now, City);
  }

  /**
   * The query uses the corrected lookup: a location that cleans to "constructor" is sent as
   * a city, where the lookup as written finds the inherited member and would send it as the
   * state code.
   */
  lemma InheritedLocationSentAsCity(o: SearchOptions, now: string)
    requires o.searchLocation != "" && StateUtils.Canonical(Cleaned(o)) == StateUtils.InheritedMember
    ensures StateUtils.IsStateCodeAsWritten(Cleaned(o)) == Some(StateUtils.Inherited(StateUtils.InheritedMember))
    ensures ValuesOf(QueryPairs(o, now), StateCode) == [] && ValuesOf(QueryPairs(o, now), City) == [Cleaned(o)]
  {
    StateUtils.AsWrittenFindsConstructor(Cleaned(o));
    SearchLocationRule(o, now);
  }

  /**
   * No parameter is sent twice: each name has at most one value in the query, and the
   * location, the unit and the size are always there.
   */
  lemma EachNameAtMostOnce(o: SearchOptions, now: string, name: ParamName)
    ensures |ValuesOf(QueryPairs(o, now), name)| <= 1
    ensures name == LatLong || name == Unit || name == Size ==> |ValuesOf(QueryPairs(o, now), name)| == 1
  {
    QueryValues(o, now, name);
  }

  /**
   * A call without options searches around the default coordinates from now on, with no
   * selector, and sends the size of the missing `size` as "NaN".
   */
  lemma DefaultQuery(now: string)
    ensures ValuesOf(QueryPairs(DefaultOptions(), now), LatLong) == ["40.1164,-88.2434"]
    ensures ValuesOf(QueryPairs(DefaultOptions(), now), LocalStartDateTime) == [now]
    ensures ValuesOf(QueryPairs(DefaultOptions(), now), Size) == ["NaN"]
    ensures ValuesOf(QueryPairs(DefaultOptions(), now), Id) == []
      && ValuesOf(QueryPairs(DefaultOptions(), now), AttractionId) == []
      && ValuesOf(QueryPairs(DefaultOptions(), now), Keyword) == []
  {
    var o := DefaultOptions();
    assert o.latitude + "," + o.longitude == "40.1164,-88.2434";
    QueryValues(o, now, LatLong);
    StartDateValues(o, now);
    SizeRule(o, now);
    SelectorPriority(o, now);
  }
}
