/**
 * The normalizer of `getEvents`: each Ticketmaster event becomes a flat record of display
 * fields, and LIST mode keeps only the fields a list row shows.
 */
module EventNormalizer {
  import opened Wrappers
  import opened Seqs
  import opened Text
  import opened JsNumbers
  import opened TicketmasterData
  import opened UriEncoding
  import opened Prices

  // Artist name

  /**
   * The artist of an event: the name of its first attraction when that is non-empty, else
   * the part of the event name before " presents ", else the part before " - ", else "".
   */
  function ArtistName(e: RawEvent): (r: string)
    ensures var a := First(e.attractions);
      a.Some? && Truthy(a.value.name) ==> r == a.value.name.value
    ensures var a := First(e.attractions);
      !(a.Some? && Truthy(a.value.name)) && e.name.Some? && Contains(e.name.value, " presents ") ==>
        r + " presents " <= e.name.value && IndexOf(e.name.value, " presents ") == Some(|r|)
    ensures var a := First(e.attractions);
      !(a.Some? && Truthy(a.value.name)) && e.name.Some? && !Contains(e.name.value, " presents ")
        && Contains(e.name.value, " - ") ==>
        r + " - " <= e.name.value && IndexOf(e.name.value, " - ") == Some(|r|)
    ensures var a := First(e.attractions);
      !(a.Some? && Truthy(a.value.name)) &&
      (e.name.None? || (!Contains(e.name.value, " presents ") && !Contains(e.name.value, " - "))) ==>
        r == ""
  {
    var a := First(e.attractions);
    if a.Some? && Truthy(a.value.name) then a.value.name.value
    else if e.name.Some? && Contains(e.name.value, " presents ") then Before(e.name.value, " presents ")
    else if e.name.Some? && Contains(e.name.value, " - ") then Before(e.name.value, " - ")
    else ""
  }

  /**
   * An event without a named attraction and with the title "X presents Y" is credited to X,
   * when the first " presents " of the title is the one after X.
   */
  lemma ArtistFromPresentsTitle(e: RawEvent, presenter: string, show: string)
    requires |e.attractions| == 0 || !Truthy(e.attractions[0].name)
    requires e.name == Some(presenter + " presents " + show)
    requires IndexOf(presenter + " presents ", " presents ") == Some(|presenter|)
    ensures ArtistName(e) == presenter
  {
    var title := presenter + " presents " + show;
    assert OccursAt(title, " presents ", |presenter|) by {
      assert title[|presenter|..|presenter| + |" presents "|] == " presents ";
    }
    BeforeConcatFirst(presenter, " presents ", show);
  }

  /**
   * An event without a named attraction and with the title "X - Y" that does not say
   * " presents " is credited to X, when the first " - " of the title is the one after X.
   */
  lemma ArtistFromDashTitle(e: RawEvent, artist: string, rest: string)
    requires |e.attractions| == 0 || !Truthy(e.attractions[0].name)
    requires e.name == Some(artist + " - " + rest) && !Contains(artist + " - " + rest, " presents ")
    requires IndexOf(artist + " - ", " - ") == Some(|artist|)
    ensures ArtistName(e) == artist
  {
    var title := artist + " - " + rest;
    assert OccursAt(title, " - ", |artist|) by {
      assert title[|artist|..|artist| + 3] == " - ";
    }
    BeforeConcatFirst(artist, " - ", rest);
  }

  // Images

  /** `img.ratio === ratio && img.width === width`. */
  predicate ImageMatches(img: RawImage, ratio: string, width: int) {
    img.ratio == Some(ratio) && img.width == Some(width)
  }

  /**
   * `images?.find(img => img.ratio === ratio && img.width === width)?.url || ''`: the url of
   * the first image of that ratio and width, or "" when there is none.
   */
  function ImageUrl(images: seq<RawImage>, ratio: string, width: int): (r: string)
    ensures r != "" ==> exists i | 0 <= i < |images| ::
      ImageMatches(images[i], ratio, width) && images[i].url == Some(r)
      && forall j | 0 <= j < i :: !ImageMatches(images[j], ratio, width)
    ensures (forall i | 0 <= i < |images| :: !ImageMatches(images[i], ratio, width)) ==> r == ""
    ensures forall i | 0 <= i < |images| && ImageMatches(images[i], ratio, width)
      && (forall j | 0 <= j < i :: !ImageMatches(images[j], ratio, width)) :: r == OrEmpty(images[i].url)
  {
    match FindFirst(images, (img: RawImage) => ImageMatches(img, ratio, width))
    case Some(i) => OrEmpty(images[i].url)
    case None => ""
  }

  /** Images after the first match do not matter. */
  lemma ImageUrlFirstMatch(images: seq<RawImage>, more: seq<RawImage>, ratio: string, width: int)
    requires exists i | 0 <= i < |images| :: ImageMatches(images[i], ratio, width)
    ensures ImageUrl(images + more, ratio, width) == ImageUrl(images, ratio, width)
  {
    FindFirstAppend(images, more, (img: RawImage) => ImageMatches(img, ratio, width));
  }

  // Venue

  const GoogleSearch := "https://www.google.com/search?q="

  /**
   * The venue link: "" when the first venue has no name, otherwise its url, or a search for
   * its name when it has none.
   */
  function VenueUrl(venue: Option<RawVenue>): (r: string)
    ensures r == "" <==> !(venue.Some? && Truthy(venue.value.name))
    ensures venue.Some? && Truthy(venue.value.name) && Truthy(venue.value.url) ==> r == venue.value.url.value
    ensures venue.Some? && Truthy(venue.value.name) && !Truthy(venue.value.url) ==>
      GoogleSearch <= r && r[|GoogleSearch|..] == EncodeUriComponent(venue.value.name.value)
  {
    if venue.None? || !Truthy(venue.value.name) then ""
    else if Truthy(venue.value.url) then venue.value.url.value
    else GoogleSearch + EncodeUriComponent(venue.value.name.value)
  }

  /**
   * A search link carries the venue name as one query value: nothing after `q=` can end it
   * or start another parameter or a fragment.
   */
  lemma SearchLinkSingleValue(venue: RawVenue)
    requires Truthy(venue.name) && !Truthy(venue.url)
    ensures var q := VenueUrl(Some(venue))[|GoogleSearch|..];
      forall i | 0 <= i < |q| :: q[i] != '&' && q[i] != '#' && q[i] != '=' && q[i] != ' ' && q[i] != '+'
  {
  }

  /** A venue name made of unreserved characters appears in the search link as it is. */
  lemma SearchLinkPlainName(venue: RawVenue)
    requires Truthy(venue.name) && !Truthy(venue.url)
    requires forall i | 0 <= i < |venue.name.value| :: Unreserved(venue.name.value[i])
    ensures VenueUrl(Some(venue)) == GoogleSearch + venue.name.value
  {
    EncodeUnreserved(venue.name.value);
  }

  // Background image

  /** The ten stock concert photographs a venue background is chosen from. */
  const VirtualVenueImages: seq<string> := [
    "https://images.unsplash.com/photo-1516450360452-9312f5e86fc7?w=1200&auto=format&fit=crop",
    "https://images.unsplash.com/photo-1514525253161-7a46d19cd819?w=1200&auto=format&fit=crop",
    "https://images.unsplash.com/photo-1501281668745-f7f57925c3b4?w=1200&auto=format&fit=crop",
    "https://images.unsplash.com/photo-1540039155733-5bb30b53aa14?w=1200&auto=format&fit=crop",
    "https://images.unsplash.com/photo-1468359601543-843bfaef291a?w=1200&auto=format&fit=crop",
    "https://images.unsplash.com/photo-1492684223066-81342ee5ff30?w=1200&auto=format&fit=crop",
    "https://images.unsplash.com/photo-1497911270199-1c552ee64aa4?w=1200&auto=format&fit=crop",
    "https://images.unsplash.com/photo-1507901747481-84a4f64fda6d?w=1200&auto=format&fit=crop",
    "https://images.unsplash.com/photo-1521334726092-b509a19597c6?w=1200&auto=format&fit=crop",
    "https://images.unsplash.com/photo-1481162854517-d9e353af153d?w=1200&auto=format&fit=crop"
  ]

  /**
   * The last UTF-16 code unit of a character, which is what `slice(-1).charCodeAt(0)` reads:
   * the character itself below U+10000, the low surrogate of its pair above.
   */
  function LastCodeUnit(c: char): (u: nat)
    ensures u < 0x10000
    ensures c as int < 0x10000 ==> u == c as int
    ensures c as int >= 0x10000 ==> 0xDC00 <= u < 0xE000
  {
    var cp := c as int;
    if cp < 0x10000 then cp else 0xDC00 + (cp - 0x10000) % 0x400
  }

  /**
   * `getVirtualVenueImage(id)` for a present id: the image at the last code unit modulo ten,
   * or `undefined` for the empty id, whose last code unit is `NaN`.
   */
  function VirtualVenueImage(id: string): (r: Json)
    ensures id == "" <==> r.JUndefined?
    ensures r.JString? ==> r.text in VirtualVenueImages
  {
    if id == "" then JUndefined else JString(VirtualVenueImages[LastCodeUnit(id[|id| - 1]) % 10])
  }

  /** Only the last character of the id chooses the image. */
  lemma VirtualVenueImageLastChar(a: string, b: string)
    requires |a| > 0 && |b| > 0 && a[|a| - 1] == b[|b| - 1]
    ensures VirtualVenueImage(a) == VirtualVenueImage(b)
  {
  }

  /** An id ending in the digit `d` gets image `(d + 8) % 10`, since '0' is code 48. */
  lemma VirtualVenueImageOfDigit(id: string, d: nat)
    requires |id| > 0 && d < 10 && id[|id| - 1] == DigitChar(d)
    ensures VirtualVenueImage(id) == JString(VirtualVenueImages[(d + 8) % 10])
  {
    assert LastCodeUnit(id[|id| - 1]) == (d + 8) + 40;
    assert ((d + 8) + 40) % 10 == (d + 8) % 10;
  }

  // Information paragraphs

  /** `text?.trim()` is truthy. */
  predicate NonBlank(text: Option<string>) {
    text.Some? && Trim(text.value) != ""
  }

  /** `line.trim()` is truthy. */
  predicate NonBlankLine(line: string) {
    Trim(line) != ""
  }

  /** `text.replace(/\r\n/g, '\n').split('\n').filter(line => line.trim())`. */
  function Lines(text: string): (r: seq<string>)
    ensures forall i | 0 <= i < |r| :: NonBlankLine(r[i]) && '\n' !in r[i]
    ensures forall i | 0 <= i < |r| :: r[i] in Split(NormalizeNewlines(text), '\n')
    ensures forall line | line in Split(NormalizeNewlines(text), '\n') && NonBlankLine(line) :: line in r
  {
    var pieces := Split(NormalizeNewlines(text), '\n');
    var r := Filter(pieces, NonBlankLine);
    assert forall i | 0 <= i < |r| :: r[i] in r;
    r
  }

  /** A character that is not white space lies in a non-blank piece of the split text. */
  lemma PieceWith(text: string, c: char) returns (piece: string)
    requires c in text && !IsSpace(c)
    ensures piece in Split(NormalizeNewlines(text), '\n') && NonBlankLine(piece) && c in piece
  {
    NormalizeNewlinesKeeps(text, c);
    var pieces := Split(NormalizeNewlines(text), '\n');
    SplitKeeps(NormalizeNewlines(text), '\n', c);
    var k :| 0 <= k < |pieces| && c in pieces[k];
    var j :| 0 <= j < |pieces[k]| && pieces[k][j] == c;
    TrimEmpty(pieces[k]);
    piece := pieces[k];
  }

  /** Every character of a text that is not white space lies in one of its lines. */
  lemma LinesCover(text: string, c: char)
    requires c in text && !IsSpace(c)
    ensures exists k :: 0 <= k < |Lines(text)| && c in Lines(text)[k]
  {
    var piece := PieceWith(text, c);
    var lines := Lines(text);
    assert piece in lines;
    var m :| 0 <= m < |lines| && lines[m] == piece;
  }

  /** A text that is not blank keeps at least one line. */
  lemma LinesOfNonBlank(text: string)
    requires Trim(text) != ""
    ensures |Lines(text)| > 0
  {
    TrimEmpty(text);
    var i :| 0 <= i < |text| && !IsSpace(text[i]);
    LinesCover(text, text[i]);
  }

  /** Every text of a list of non-blank texts keeps a line. */
  lemma AllKeepLines(kept: seq<Option<string>>)
    requires forall k | 0 <= k < |kept| :: NonBlank(kept[k])
    ensures forall k | 0 <= k < |kept| :: kept[k].Some? && |Lines(kept[k].value)| > 0
  {
    forall k | 0 <= k < |kept| {
      LinesOfNonBlank(kept[k].value);
    }
  }

  /** The lines of each non-blank text, in order; every one of them keeps a line. */
  function Paragraphs(texts: seq<Option<string>>): (r: seq<seq<string>>)
    ensures |r| == |Filter(texts, NonBlank)|
    ensures forall k | 0 <= k < |r| ::
      Filter(texts, NonBlank)[k].Some? && r[k] == Lines(Filter(texts, NonBlank)[k].value)
    ensures forall k | 0 <= k < |r| :: |r[k]| > 0
  {
    var kept := Filter(texts, NonBlank);
    assert forall k | 0 <= k < |kept| :: kept[k] in kept;
    AllKeepLines(kept);
    seq(|kept|, k requires 0 <= k < |kept| => Lines(kept[k].value))
  }

  /** The seven optional texts, in the order the source lists them. */
  function InfoTexts(e: RawEvent): seq<Option<string>> {
    var v := First(e.venues);
    [e.info, e.pleaseNote, e.accessibilityInfo, e.ticketLimitInfo, e.additionalInfo,
     if v.Some? then v.value.generalRule else None,
     if v.Some? then v.value.accessibleSeatingDetail else None]
  }

  /** A list of lines as a JSON array of strings. */
  function LinesJson(lines: seq<string>): seq<Json> {
    seq(|lines|, n requires 0 <= n < |lines| => JString(lines[n]))
  }

  /** A list of paragraphs as a JSON array of arrays. */
  function ParagraphsJson(ps: seq<seq<string>>): seq<Json> {
    seq(|ps|, k requires 0 <= k < |ps| => JArray(LinesJson(ps[k])))
  }

  /** The `info` field: one paragraph per non-blank text, each a list of non-blank lines. */
  function InfoJson(e: RawEvent): Json {
    JArray(ParagraphsJson(Paragraphs(InfoTexts(e))))
  }

  // The record

  /** `followedEvents.includes(event.id)`. */
  predicate Followed(id: Option<string>, followedEvents: seq<string>) {
    id.Some? && id.value in followedEvents
  }

  /** The keys of a record, in order. */
  function Keys(fields: seq<(string, Json)>): (r: seq<string>)
    ensures |r| == |fields|
    ensures forall i | 0 <= i < |fields| :: r[i] == fields[i].0
  {
    if |fields| == 0 then [] else [fields[0].0] + Keys(fields[1..])
  }

  /** The keys of the DETAIL record, in the order the source writes them. */
  const FullKeys: seq<string> := [
    "id", "followed", "artistId", "artistName", "name", "date", "time", "status", "url",
    "image_ratio16_9_large", "image_ratio16_9", "image_ratio3_2", "image_ratio4_3", "genre",
    "priceRanges", "venue", "venueUrl", "venueImage", "venueBackgroundImage", "city", "state",
    "country", "countryCode", "address", "distance", "location", "info"]

  /** The fields a LIST row keeps. */
  const ListModeFields: seq<string> := [
    "id", "followed", "artistId", "artistName", "name", "genre", "date", "time", "venue",
    "city", "state", "countryCode", "distance", "status", "image_ratio3_2", "priceRanges"]

  /** A text field of the first venue, `|| ''`. */
  function VenueText(v: Option<RawVenue>, field: RawVenue -> Option<string>): string {
    if v.Some? then OrEmpty(field(v.value)) else ""
  }

  /** Pairs each key with the value at the same position. */
  function Zip(keys: seq<string>, values: seq<Json>): (r: seq<(string, Json)>)
    requires |keys| == |values|
    ensures Keys(r) == keys
    ensures forall i | 0 <= i < |r| :: r[i].1 == values[i]
  {
    if |keys| == 0 then [] else [(keys[0], values[0])] + Zip(keys[1..], values[1..])
  }

  /** The DETAIL record of an event whose id is `id`: the values of `FullKeys`, position by position. */
  function Record(e: RawEvent, id: string, followedEvents: seq<string>): seq<(string, Json)> {
    var a := First(e.attractions);
    var v := First(e.venues);
    Zip(FullKeys, [
      JString(id),                                                     // id
      JBool(Followed(e.id, followedEvents)),                           // followed
      JString(if a.Some? then OrEmpty(a.value.id) else ""),            // artistId
      JString(ArtistName(e)),                                          // artistName
      JString(OrEmpty(e.name)),                                        // name
      JString(OrEmpty(e.localDate)),                                   // date
      JString(OrEmpty(e.localTime)),                                   // time
      JString(OrEmpty(e.statusCode)),                                  // status
      JString(OrEmpty(e.url)),                                         // url
      JString(ImageUrl(e.images, "16_9", 1024)),                       // image_ratio16_9_large
      JString(ImageUrl(e.images, "16_9", 640)),                        // image_ratio16_9
      JString(ImageUrl(e.images, "3_2", 305)),                         // image_ratio3_2
      JString(ImageUrl(e.images, "4_3", 305)),                         // image_ratio4_3
      JString(OrEmpty(e.genre)),                                       // genre
      JString(PriceText(e.priceRanges)),                               // priceRanges
      JString(VenueText(v, (x: RawVenue) => x.name)),                  // venue
      JString(VenueUrl(v)),                                            // venueUrl
      JString(VenueText(v, (x: RawVenue) => x.imageUrl)),              // venueImage
      VirtualVenueImage(id),                                           // venueBackgroundImage
      JString(VenueText(v, (x: RawVenue) => x.city)),                  // city
      JString(VenueText(v, (x: RawVenue) => x.stateCode)),             // state
      JString(VenueText(v, (x: RawVenue) => x.country)),               // country
      JString(VenueText(v, (x: RawVenue) => x.countryCode)),           // countryCode
      JString(VenueText(v, (x: RawVenue) => x.address)),               // address
      JNumber(Finite(if v.Some? then v.value.distance.GetOr(0.0) else 0.0)), // distance
      JObject([                                                        // location
        ("latitude", JNumber(if v.Some? then v.value.latitude.OrZero() else Finite(0.0))),
        ("longitude", JNumber(if v.Some? then v.value.longitude.OrZero() else Finite(0.0)))]),
      InfoJson(e)])                                                    // info
  }

  /**
   * The full record of one event, or `None` when building it throws: an event without an id
   * makes `getVirtualVenueImage(undefined)` fail on `undefined.slice`.
   */
  function FullRecord(e: RawEvent, followedEvents: seq<string>): (r: Option<seq<(string, Json)>>)
    ensures r.Some? <==> e.id.Some?
    ensures r.Some? ==> Keys(r.value) == FullKeys
  {
    if e.id.None? then None else Some(Record(e, e.id.value, followedEvents))
  }

  /** `LIST_MODE_FIELDS.includes(key)`. */
  predicate InListMode(field: (string, Json)) {
    field.0 in ListModeFields
  }

  /**
   * What `mode` returns: in LIST mode `Object.fromEntries` of the entries whose key is a
   * LIST field, in record order; in any other mode the whole record.
   */
  function View(record: seq<(string, Json)>, mode: string): seq<(string, Json)> {
    if mode == "LIST" then Filter(record, InListMode) else record
  }

  /** Every LIST field is a field of the full record. */
  lemma ListModeFieldsAreKeys()
    ensures forall k :: k in ListModeFields ==> k in FullKeys
  {
  }

  /**
   * A LIST row of a full record has exactly the LIST fields as keys, each with the value the
   * full record gives it.
   */
  lemma ListViewFields(record: seq<(string, Json)>)
    requires Keys(record) == FullKeys
    ensures forall k :: k in Keys(View(record, "LIST")) <==> k in ListModeFields
    ensures forall f :: f in View(record, "LIST") ==> f in record && f.0 in ListModeFields
  {
    var view := View(record, "LIST");
    ListModeFieldsAreKeys();
    forall k ensures k in Keys(view) <==> k in ListModeFields {
      if k in Keys(view) {
        var i :| 0 <= i < |view| && Keys(view)[i] == k;
        assert view[i] in view;
      }
      if k in ListModeFields {
        assert k in Keys(record);
        var i :| 0 <= i < |record| && Keys(record)[i] == k;
        assert record[i] in view;
        var j :| 0 <= j < |view| && view[j] == record[i];
        assert Keys(view)[j] == k;
      }
    }
  }

  /** Any mode other than LIST returns the full record. */
  lemma DetailViewIsRecord(record: seq<(string, Json)>, mode: string)
    requires mode != "LIST"
    ensures View(record, mode) == record
  {
  }

  /** The response entry for one event, or `None` when normalizing it throws. */
  function Normalize(e: RawEvent, followedEvents: seq<string>, mode: string): (r: Option<Json>)
    ensures r.Some? <==> e.id.Some?
    ensures r.Some? ==> r.value.JObject? && (mode != "LIST" ==> Keys(r.value.fields) == FullKeys)
  {
    match FullRecord(e, followedEvents)
    case Some(record) => Some(JObject(View(record, mode)))
    case None => None
  }
}
