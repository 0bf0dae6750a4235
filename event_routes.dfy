/**
 * The event routes: the favourite toggle, the followed-artist selection of the event feed
 * and the exclusions and cap of the recommended events.
 */
module EventRoutes {
  import opened Wrappers
  import opened Seqs
  import Text
  import opened JsNumbers
  import opened TicketmasterData
  import opened EventQuery
  import opened EventNormalizer
  import opened EventSearch
  import opened ArtistLookup
  import opened Users

  // ---------------------------------------------------------------------------------------
  // Favourite toggle (POST /events/favorite)
  // ---------------------------------------------------------------------------------------

  /** `s.indexOf(x)`: the first position of `x`, or -1. */
  function IndexOf(s: seq<string>, x: string): (r: int)
    ensures -1 <= r < |s|
    ensures r == -1 <==> x !in s
    ensures r >= 0 ==> s[r] == x && forall j | 0 <= j < r :: s[j] != x
  {
    match FindFirst(s, (y: string) => y == x)
    case Some(i) => i
    case None => -1
  }

  /** `s` without the first occurrence of `x`; `s` itself when `x` does not occur. */
  function RemoveFirst(s: seq<string>, x: string): (r: seq<string>)
    ensures x !in s ==> r == s
    ensures x in s ==> |r| == |s| - 1
  {
    if |s| == 0 then []
    else if s[0] == x then s[1..]
    else [s[0]] + RemoveFirst(s[1..], x)
  }

  /** The favourites after a toggle: add when absent if `state`, otherwise drop the first occurrence. */
  function Toggled(events: seq<string>, eventId: string, state: bool): seq<string> {
    if state then (if eventId in events then events else events + [eventId])
    else RemoveFirst(events, eventId)
  }

  /** Splicing out the first occurrence of `x` is removing it. */
  lemma {:induction false} SpliceFirst(s: seq<string>, x: string, i: nat)
    requires i < |s| && s[i] == x && forall j | 0 <= j < i :: s[j] != x
    ensures s[..i] + s[i + 1..] == RemoveFirst(s, x)
  {
    if i > 0 {
      SpliceFirst(s[1..], x, i - 1);
      assert s[..i] + s[i + 1..] == [s[0]] + (s[1..][..i - 1] + s[1..][i..]);
    }
  }

  /** The response a route sends: an HTTP status and a JSON body. */
  datatype Response = Response(status: int, body: Json)

  const NotAuthenticated := Response(401, JObject([("success", JBool(false)), ("message", JString("User not authenticated"))]))

  /** The success reply of a toggle, echoing the requested state. */
  function ToggleReply(state: bool): Response {
    Response(200, JObject([("success", JBool(true)), ("enabled", JBool(state))]))
  }

  /**
   * POST `/events/favorite`: `user` is the authenticated user, `null` when the request is not
   * authenticated; the list is updated in place with `push` or `splice` and saved.
   */
  method ToggleFavorite(user: User?, eventId: string, state: bool) returns (response: Response)
    modifies user
    ensures user == null ==> response == NotAuthenticated
    ensures user != null ==> (response == ToggleReply(state)
      && user.followedEvents == Toggled(old(user.followedEvents), eventId, state)
      && user.followedArtists == old(user.followedArtists) && user.range == old(user.range))
  {
    if user == null {
      return NotAuthenticated;
    }
    var followedEvents := user.followedEvents;
    if state {
      if eventId !in followedEvents {
        followedEvents := followedEvents + [eventId];
      }
    } else {
      var index := IndexOf(followedEvents, eventId);
      if index > -1 {
        SpliceFirst(followedEvents, eventId, index);
        followedEvents := followedEvents[..index] + followedEvents[index + 1..];
      }
    }
    user.followedEvents := followedEvents;
    response := ToggleReply(state);
  }

  /** Favouriting leaves the id in the list, appended only when absent, with no duplicate added. */
  lemma FavoriteAdds(events: seq<string>, eventId: string)
    ensures eventId in Toggled(events, eventId, true)
    ensures eventId in events ==> Toggled(events, eventId, true) == events
    ensures Count(Toggled(events, eventId, true), eventId) == if eventId in events then Count(events, eventId) else 1
    ensures NoDuplicates(events) ==> NoDuplicates(Toggled(events, eventId, true))
  {
    if eventId !in events {
      CountAppend(events, [eventId], eventId);
      CountZero(events, eventId);
    }
  }

  /** Unfavouriting removes exactly one occurrence of the id, when there is one, and nothing else. */
  lemma {:induction false} UnfavoriteRemovesOne(events: seq<string>, eventId: string, other: string)
    requires other != eventId
    ensures Count(Toggled(events, eventId, false), eventId) == if eventId in events then Count(events, eventId) - 1 else 0
    ensures Count(Toggled(events, eventId, false), other) == Count(events, other)
  {
    if |events| > 0 {
      UnfavoriteRemovesOne(events[1..], eventId, other);
      if events[0] != eventId {
        var rest := RemoveFirst(events[1..], eventId);
        assert ([events[0]] + rest)[1..] == rest;
      }
    }
    CountZero(events, eventId);
  }

  /** With no duplicates to begin with, unfavouriting leaves none and no trace of the id. */
  lemma {:induction false} UnfavoriteNoDuplicates(events: seq<string>, eventId: string)
    requires NoDuplicates(events)
    ensures NoDuplicates(Toggled(events, eventId, false)) && eventId !in Toggled(events, eventId, false)
  {
    var r := RemoveFirst(events, eventId);
    if |events| > 0 && events[0] != eventId {
      UnfavoriteNoDuplicates(events[1..], eventId);
      var rest := RemoveFirst(events[1..], eventId);
      RemoveFirstSubset(events[1..], eventId);
      assert r == [events[0]] + rest;
      forall i, j | 0 <= i < j < |r| ensures r[i] != r[j] {
        if i == 0 {
          assert r[j] == rest[j - 1] && rest[j - 1] in events[1..];
        } else {
          assert r[i] == rest[i - 1] && r[j] == rest[j - 1];
        }
      }
    }
  }

  /** Removing an element keeps only elements that were there. */
  lemma {:induction false} RemoveFirstSubset(s: seq<string>, x: string)
    ensures forall y | y in RemoveFirst(s, x) :: y in s
  {
    if |s| > 0 && s[0] != x {
      RemoveFirstSubset(s[1..], x);
    }
  }

  /** Erasing the id after a removal gives what erasing it before gives. */
  lemma {:induction false} EraseRemoveFirst(s: seq<string>, x: string)
    ensures Erase(RemoveFirst(s, x), x) == Erase(s, x)
  {
    if |s| > 0 && s[0] != x {
      EraseRemoveFirst(s[1..], x);
      assert ([s[0]] + RemoveFirst(s[1..], x))[1..] == RemoveFirst(s[1..], x);
    }
  }

  /** In both directions the other ids keep their relative order. */
  lemma ToggleKeepsOthersInOrder(events: seq<string>, eventId: string, state: bool)
    ensures Erase(Toggled(events, eventId, state), eventId) == Erase(events, eventId)
  {
    if state {
      if eventId !in events {
        EraseAppend(events, [eventId], eventId);
        assert Erase([eventId], eventId) == [];
      }
    } else {
      EraseRemoveFirst(events, eventId);
    }
  }

  /** `s + [x]` without the first `x`, when `x` is not in `s`, is `s`. */
  lemma {:induction false} RemoveFirstAppended(s: seq<string>, x: string)
    requires x !in s
    ensures RemoveFirst(s + [x], x) == s
  {
    if |s| > 0 {
      assert (s + [x])[1..] == s[1..] + [x];
      RemoveFirstAppended(s[1..], x);
    }
  }

  /** Favouriting an absent id and unfavouriting it again restores the list. */
  lemma ToggleRoundTrip(events: seq<string>, eventId: string)
    requires eventId !in events
    ensures Toggled(Toggled(events, eventId, true), eventId, false) == events
  {
    RemoveFirstAppended(events, eventId);
  }

  // ---------------------------------------------------------------------------------------
  // Event feed (GET /event-feeds)
  // ---------------------------------------------------------------------------------------

  /** `artist.ticketmaster_id` of a stored followed artist. */
  function TicketmasterId(a: FollowedArtist): Option<string> {
    if a.ticketmaster.Some? then a.ticketmaster.value.ticketmasterId else None
  }

  /** `followed_artists.filter((artist) => artist.ticketmaster_id).map((artist) => artist.ticketmaster_id)`. */
  function FollowedAttractionIds(artists: seq<FollowedArtist>): (r: seq<string>)
    ensures |r| <= |artists|
    ensures forall i | 0 <= i < |r| :: r[i] != ""
  {
    if |artists| == 0 then []
    else
      (if Truthy(TicketmasterId(artists[0])) then [TicketmasterId(artists[0]).value] else [])
      + FollowedAttractionIds(artists[1..])
  }

  /** The ids of a list of artists are those of its parts, in order. */
  lemma {:induction false} FollowedAttractionIdsAppend(a: seq<FollowedArtist>, b: seq<FollowedArtist>)
    ensures FollowedAttractionIds(a + b) == FollowedAttractionIds(a) + FollowedAttractionIds(b)
  {
    if |a| > 0 {
      assert (a + b)[1..] == a[1..] + b;
      FollowedAttractionIdsAppend(a[1..], b);
    } else {
      assert a + b == b;
    }
  }

  /** An id is selected exactly when some followed artist carries it, non-empty. */
  lemma {:induction false} FollowedAttractionIdsMembers(artists: seq<FollowedArtist>, x: string)
    ensures x in FollowedAttractionIds(artists) <==>
      exists j | 0 <= j < |artists| :: x != "" && TicketmasterId(artists[j]) == Some(x)
  {
    if |artists| > 0 {
      FollowedAttractionIdsMembers(artists[1..], x);
      if x in FollowedAttractionIds(artists[1..]) {
        var j :| 0 <= j < |artists[1..]| && x != "" && TicketmasterId(artists[1..][j]) == Some(x);
        assert artists[j + 1] == artists[1..][j];
      }
      if exists j | 0 <= j < |artists| :: x != "" && TicketmasterId(artists[j]) == Some(x) {
        var j :| 0 <= j < |artists| && x != "" && TicketmasterId(artists[j]) == Some(x);
        if j > 0 {
          assert artists[1..][j - 1] == artists[j];
        }
      }
    }
  }

  /**
   * The options of GET `/event-feeds`: the followed artists' ids for a user who follows
   * artists, otherwise any concert in Canada or the United States.
   */
  function FeedOptions(loggedIn: bool, artists: seq<FollowedArtist>, followedEvents: seq<string>,
                       latitude: string, longitude: string, size: JsNumber,
                       startDate: string, endDate: string, searchLocation: string): SearchOptions
  {
    if loggedIn && |artists| > 0 then
      SearchOptions([], FollowedAttractionIds(artists), latitude, longitude, NaN, "", size, "",
                    "date,asc", startDate, endDate, "LIST", followedEvents, searchLocation)
    else
      SearchOptions([], [], latitude, longitude, NaN, "CA,US", size, "",
                    "date,asc", startDate, endDate, "LIST", [], searchLocation)
  }

  /**
   * A user who follows artists gets their ids as the only selector and no country filter;
   * anyone else gets no selector, the CA,US country filter and no followed events.
   */
  lemma FeedSelection(loggedIn: bool, artists: seq<FollowedArtist>, followedEvents: seq<string>,
                      latitude: string, longitude: string, size: JsNumber,
                      startDate: string, endDate: string, searchLocation: string, now: string)
    ensures var q := QueryPairs(FeedOptions(loggedIn, artists, followedEvents, latitude, longitude, size, startDate, endDate, searchLocation), now);
      ValuesOf(q, Id) == [] && ValuesOf(q, Keyword) == []
    ensures var q := QueryPairs(FeedOptions(loggedIn, artists, followedEvents, latitude, longitude, size, startDate, endDate, searchLocation), now);
      var ids := FollowedAttractionIds(artists);
      loggedIn && |artists| > 0 ==>
        ValuesOf(q, AttractionId) == (if |ids| > 0 then [Text.Join(ids, ",")] else []) && ValuesOf(q, CountryCode) == []
    ensures var q := QueryPairs(FeedOptions(loggedIn, artists, followedEvents, latitude, longitude, size, startDate, endDate, searchLocation), now);
      !(loggedIn && |artists| > 0) ==> ValuesOf(q, AttractionId) == [] && ValuesOf(q, CountryCode) == ["CA,US"]
    ensures var o := FeedOptions(loggedIn, artists, followedEvents, latitude, longitude, size, startDate, endDate, searchLocation);
      o.followedEvents == (if loggedIn && |artists| > 0 then followedEvents else []) && o.mode == "LIST"
  {
    var o := FeedOptions(loggedIn, artists, followedEvents, latitude, longitude, size, startDate, endDate, searchLocation);
    SelectorPriority(o, now);
    CountryRule(o, now);
  }

  /**
   * A user whose followed artists have no Ticketmaster id is sent neither a selector nor a
   * country filter: the feed searches every event near the coordinates.
   */
  lemma FeedWithoutIdsIsUnfiltered(artists: seq<FollowedArtist>, followedEvents: seq<string>,
                                   latitude: string, longitude: string, size: JsNumber,
                                   startDate: string, endDate: string, searchLocation: string, now: string)
    requires |artists| > 0 && forall j | 0 <= j < |artists| :: !Truthy(TicketmasterId(artists[j]))
    ensures var q := QueryPairs(FeedOptions(true, artists, followedEvents, latitude, longitude, size, startDate, endDate, searchLocation), now);
      ValuesOf(q, Id) == [] && ValuesOf(q, AttractionId) == [] && ValuesOf(q, Keyword) == [] && ValuesOf(q, CountryCode) == []
  {
    FeedSelection(true, artists, followedEvents, latitude, longitude, size, startDate, endDate, searchLocation, now);
    if |FollowedAttractionIds(artists)| > 0 {
      var x := FollowedAttractionIds(artists)[0];
      FollowedAttractionIdsMembers(artists, x);
    }
  }

  // ---------------------------------------------------------------------------------------
  // Recommended events (GET /recommended-events)
  // ---------------------------------------------------------------------------------------

  /** `req.isAuthenticated ? req.user.range || 250 : 250`. */
  function RecommendedRadius(loggedIn: bool, range: JsNumber): JsNumber {
    if loggedIn && range.Truthy() then range else Finite(250.0)
  }

  /** The options of GET `/recommended-events`: forty events by distance within the radius. */
  function RecommendedOptions(loggedIn: bool, range: JsNumber, followedEvents: seq<string>,
                              latitude: string, longitude: string): SearchOptions
  {
    SearchOptions([], [], latitude, longitude, RecommendedRadius(loggedIn, range), "", Finite(40.0), "",
                  "distance,asc", "", "", "LIST", if loggedIn then followedEvents else [], "")
  }

  /**
   * What the recommended route asks for: the radius, sort and size it sends, its followed
   * events (the user's only when logged in) and the LIST mode.
   */
  lemma RecommendedQuery(loggedIn: bool, range: JsNumber, followedEvents: seq<string>,
                         latitude: string, longitude: string, now: string)
    ensures var o := RecommendedOptions(loggedIn, range, followedEvents, latitude, longitude);
      o.followedEvents == (if loggedIn then followedEvents else []) && o.mode == "LIST"
    ensures var o := RecommendedOptions(loggedIn, range, followedEvents, latitude, longitude);
      !(loggedIn && range.Truthy()) ==> ValuesOf(QueryPairs(o, now), Radius) == [Text.IntToString(250)]
    ensures var o := RecommendedOptions(loggedIn, range, followedEvents, latitude, longitude);
      loggedIn && range.Truthy() && range.IsInteger() ==>
        ValuesOf(QueryPairs(o, now), Radius) == [Text.IntToString(range.value.Floor)]
    ensures var o := RecommendedOptions(loggedIn, range, followedEvents, latitude, longitude);
      loggedIn && range.Truthy() && !range.IsInteger() ==> ValuesOf(QueryPairs(o, now), Radius) == []
    ensures var o := RecommendedOptions(loggedIn, range, followedEvents, latitude, longitude);
      ValuesOf(QueryPairs(o, now), Sort) == ["distance,asc"] && ValuesOf(QueryPairs(o, now), Size) == [SizeText(Finite(40.0))]
  {
    var o := RecommendedOptions(loggedIn, range, followedEvents, latitude, longitude);
    RadiusRule(o, now);
    QueryValues(o, now, Sort);
    SizeRule(o, now);
    assert (250.0).Floor == 250;
  }

  /** `fields[key]` of a JSON object: the value under `key`, if the object has that key. */
  function Lookup(fields: seq<(string, Json)>, key: string): (r: Option<Json>)
    ensures r.None? <==> key !in Keys(fields)
    ensures r.Some? ==> exists i | 0 <= i < |fields| :: fields[i] == (key, r.value)
  {
    match FindFirst(fields, (f: (string, Json)) => f.0 == key)
    case Some(i) => Some(fields[i].1)
    case None => None
  }

  /** `value.key`: the property of an object, `undefined` for a missing key or a non-object. */
  function Property(value: Json, key: string): Json {
    if value.JObject? then Lookup(value.fields, key).GetOr(JUndefined) else JUndefined
  }

  /** `ids.includes(value)`: `value` is a string among `ids`. */
  predicate IncludesId(ids: seq<string>, value: Json) {
    value.JString? && value.text in ids
  }

  /** `event.attractions?.map((attraction) => attraction.id) || []`. */
  function AttractionIdsOf(event: Json): seq<Json> {
    match Property(event, "attractions")
    case JArray(items) => seq(|items|, i requires 0 <= i < |items| => Property(items[i], "id"))
    case _ => []
  }

  /** `!eventArtistIds.some((id) => followedArtistIds.includes(id))`. */
  predicate KeptByAttractionsAsWritten(event: Json, followedArtistIds: seq<string>) {
    forall id | id in AttractionIdsOf(event) :: !IncludesId(followedArtistIds, id)
  }

  /** The followed-artist exclusion as written: it reads the event's `attractions`. */
  function ExcludeByAttractionsAsWritten(events: seq<Json>, followedArtistIds: seq<string>): seq<Json> {
    Filter(events, e => KeptByAttractionsAsWritten(e, followedArtistIds))
  }

  /** Neither the full record nor a LIST row has an `attractions` field. */
  lemma AttractionsIsNoField()
    ensures "attractions" !in FullKeys && "attractions" !in ListModeFields
  {
  }

  /** A normalized event has no `attractions` key, in either mode. */
  lemma NormalizedHasNoAttractions(e: RawEvent, followedEvents: seq<string>, mode: string)
    requires Normalize(e, followedEvents, mode).Some?
    ensures "attractions" !in Keys(Normalize(e, followedEvents, mode).value.fields)
  {
    AttractionsIsNoField();
    var record := FullRecord(e, followedEvents).value;
    assert Normalize(e, followedEvents, mode).value.fields == View(record, mode);
    if mode == "LIST" {
      ListViewFields(record);
    }
  }

  /** The exclusion as written keeps every event that, like a normalized one, has no `attractions`. */
  lemma AsWrittenRemovesNothing(events: seq<Json>, followedArtistIds: seq<string>)
    requires forall i | 0 <= i < |events| :: events[i].JObject? && "attractions" !in Keys(events[i].fields)
    ensures ExcludeByAttractionsAsWritten(events, followedArtistIds) == events
  {
    FilterAll(events, e => KeptByAttractionsAsWritten(e, followedArtistIds));
  }

  /** An event of a followed artist, with the LIST `artistId` field, survives the exclusion as written. */
  lemma AsWrittenKeepsFollowedArtist()
    ensures var e := JObject([("id", JString("E1")), ("artistId", JString("K1"))]);
      ExcludeByAttractionsAsWritten([e], ["K1"]) == [e] && ExcludeByProperty([e], ["K1"], "artistId") == []
  {
    var e := JObject([("id", JString("E1")), ("artistId", JString("K1"))]);
    assert Keys(e.fields) == ["id", "artistId"];
    AsWrittenRemovesNothing([e], ["K1"]);
    assert Property(e, "artistId") == JString("K1") by {
      assert e.fields[1] == ("artistId", JString("K1"));
      assert e.fields[0].0 != "artistId";
    }
    FilterNone([e], e => !IncludesId(["K1"], Property(e, "artistId")));
  }

  /**
   * `events.filter((event) => !ids.includes(event[key]))`: drops the events whose `key`
   * property is one of `ids`. With `id` it is the favourite-event exclusion; with `artistId`
   * it is the followed-artist exclusion as intended.
   */
  function ExcludeByProperty(events: seq<Json>, ids: seq<string>, key: string): (r: seq<Json>)
    ensures forall e :: e in r <==> e in events && !IncludesId(ids, Property(e, key))
  {
    Filter(events, e => !IncludesId(ids, Property(e, key)))
  }

  /** The events left after both exclusions, which apply to a logged-in user only. */
  function RecommendedKept(loggedIn: bool, artists: seq<FollowedArtist>, followedEvents: seq<string>,
                           events: seq<Json>): seq<Json>
  {
    var afterArtists := if loggedIn && |artists| > 0 then ExcludeByProperty(events, FollowedAttractionIds(artists), "artistId") else events;
    if loggedIn && |followedEvents| > 0 then ExcludeByProperty(afterArtists, followedEvents, "id") else afterArtists
  }

  /**
   * The recommendations of a logged-in user hold neither a favourite event nor an event of a
   * followed artist, and only events of the search.
   */
  lemma RecommendedExclusions(loggedIn: bool, artists: seq<FollowedArtist>, followedEvents: seq<string>, events: seq<Json>)
    ensures forall e | e in RecommendedKept(loggedIn, artists, followedEvents, events) :: e in events
    ensures loggedIn ==> forall e | e in RecommendedKept(loggedIn, artists, followedEvents, events) ::
      (!IncludesId(followedEvents, Property(e, "id"))
      && !IncludesId(FollowedAttractionIds(artists), Property(e, "artistId")))
  {
  }

  /** `list.slice(0, 8)`'s length. */
  function AtMostEight(n: nat): (r: nat)
    ensures r <= 8 && r <= n
    ensures r == 8 || r == n
  {
    if n < 8 then n else 8
  }

  /**
   * A prefix of a reordering of `kept` holds only elements of `kept`, each no more often
   * than `kept` does.
   */
  lemma PrefixOfPermutation(kept: seq<Json>, shuffled: seq<Json>, n: nat)
    requires multiset(shuffled) == multiset(kept) && n <= |shuffled|
    ensures |shuffled| == |kept|
    ensures multiset(shuffled[..n]) <= multiset(kept)
    ensures forall e | e in shuffled[..n] :: e in kept
  {
    assert |shuffled| == |multiset(shuffled)| == |kept|;
    assert shuffled == shuffled[..n] + shuffled[n..];
    forall e | e in shuffled[..n] ensures e in kept {
      assert e in multiset(shuffled);
    }
  }

  /** What the first eight of a reordering of the kept events satisfy. */
  lemma ShownEvents(loggedIn: bool, artists: seq<FollowedArtist>, followedEvents: seq<string>,
                    events: seq<Json>, shuffled: seq<Json>)
    requires multiset(shuffled) == multiset(RecommendedKept(loggedIn, artists, followedEvents, events))
    ensures var kept := RecommendedKept(loggedIn, artists, followedEvents, events);
      var shown := shuffled[..AtMostEight(|shuffled|)];
      multiset(shown) <= multiset(kept) && |shown| == AtMostEight(|kept|)
      && (forall e | e in shown :: e in events)
      && (loggedIn ==> forall e | e in shown ::
        (!IncludesId(followedEvents, Property(e, "id"))
        && !IncludesId(FollowedAttractionIds(artists), Property(e, "artistId"))))
  {
    var kept := RecommendedKept(loggedIn, artists, followedEvents, events);
    RecommendedExclusions(loggedIn, artists, followedEvents, events);
    PrefixOfPermutation(kept, shuffled, AtMostEight(|shuffled|));
  }

  /**
   * The end of GET `/recommended-events`, applied to the events of the search (made with
   * `RecommendedOptions`): the exclusions for a logged-in user with the user's followed
   * artists and events, then the shuffle (`permute`, any reordering) and the first eight.
   */
  method SelectRecommended(loggedIn: bool, artists: seq<FollowedArtist>, followedEvents: seq<string>,
                           events: seq<Json>, permute: seq<Json> -> seq<Json>)
    returns (shown: seq<Json>)
    requires forall s :: multiset(permute(s)) == multiset(s)
    ensures var kept := RecommendedKept(loggedIn, artists, followedEvents, events);
      multiset(shown) <= multiset(kept) && |shown| == AtMostEight(|kept|)
    ensures |shown| <= 8
    ensures forall e | e in shown :: e in events
    ensures loggedIn ==> forall e | e in shown ::
      (!IncludesId(followedEvents, Property(e, "id"))
      && !IncludesId(FollowedAttractionIds(artists), Property(e, "artistId")))
  {
    var kept := RecommendedKept(loggedIn, artists, followedEvents, events);
    var shuffled := permute(kept);
    ShownEvents(loggedIn, artists, followedEvents, events, shuffled);
    shown := shuffled[..AtMostEight(|shuffled|)];
  }
}
