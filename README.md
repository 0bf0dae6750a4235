# Concert-Finder backend core, modelled in Dafny

This project models the event search engine of the Concert-Finder backend and the routes that use
it.

**Search (`getEvents`):**
- It builds the Ticketmaster Discovery query from the search options. At most one selector is sent, with priority event ids, then attraction ids, then keyword. It also sends the radius, the date bounds, the size clamp, the spelling check and a state code or city.
- It sends the query to the provider.
- It drops the events whose local date is outside the requested days.
- When nothing is left and a spelling suggestion came back, it answers with the suggestion.
- Otherwise it normalizes every event into the client record. In LIST mode the record is cut down to the sixteen LIST fields.
- Any failure becomes a result with an `error` text and no events.

**Supporting pieces:**
- `isStateCode` with its fifty-state table.
- The virtual venue background image.
- The artist lookup `getTicketmasterIds`.

**Routes:**
- The event feed's choice of query.
- The favourite toggle on the user's `followed_events`.
- The recommended events: a query by radius, excluding followed artists and followed events, then a random pick of at most eight.
- The Spotify sync callback, which merges the Ticketmaster data onto the followed artists and saves them on the user.

**How the code is modelled:**
- Pure code is written as datatypes, functions and lemmas.
- Code that works step by step is written as methods proved against specification functions:
  - the query builder appends to a `SearchParams` object;
  - the artist lookup loop;
  - the merge loop over the array of followed artists;
  - the toggle and the sync, which update a `User` object;
  - the construction of the state table.
- The network, the clock, `Math.random` and the database are parameters of the methods:
  - the provider reply is a function of the query;
  - the attraction search is a function of the artist name;
  - the current time is a string;
  - the shuffle is any permutation;
  - the user record is passed in, and its fields are assigned.

Modules:
- `Wrappers`, `Seqs`, `Text`, `JsNumbers`: small vocabulary. This covers `Option`, filtering, first match, de-duplication, trimming, ASCII lower case, splitting and joining, and JavaScript numbers with `NaN` and the infinities.
- `UriEncoding`: `encodeURIComponent`.
- `TicketmasterData`: the raw provider records and the JSON values `getEvents` returns.
- `StateUtils`: `backend/utils/stateUtils.js`.
- `EventQuery`: the query builder.
- `DateFilter`: the post-filter on dates.
- `Prices`: the price text.
- `EventNormalizer`: one event to one client record.
- `EventSearch`: `getEvents` end to end.
- `ArtistLookup`: `getTicketmasterIds`.
- `Users`: the user record.
- `EventRoutes`: `backend/routes/event.route.js`.
- `SpotifySync`: `backend/routes/spotify-sync.route.js`.

Where the specification of the system and the code disagree, the model follows the code. The two places where the code is wrong (see "## Findings") are modelled both ways, and the rest of the model uses the corrected behaviour. The disagreements:
- An event whose local date cannot be parsed is kept when no date bound is given. The specification says such an event is always dropped.
- A `NaN` size is sent as the text `NaN`. The specification says the size is always in [1, 9999].
- A radius is sent for any non-zero integer, negative ones included. The specification says a positive integer.
- With only an end date, no start bound is sent. The specification says a start bound is always sent.
- An event without an id makes the whole search fail: `getVirtualVenueImage` reads `undefined.slice`. The specification says malformed records never fail the batch.

## Model

| member | source | states |
|---|---|---|
| StateUtils.Canonical | backend/utils/stateUtils.js:78-81 | `trim`, `toLowerCase`, then removal of every character but `a`-`z` and white space; the key holds only such characters (CanonicalIgnoresCase gives its case blindness) |
| StateUtils.IsStateCode | backend/utils/stateUtils.js:77-83 | the table value of the cleaned input, or none where the table has no own key for it; IsStateCodeMeaning states what it finds |
| StateUtils.IsStateCodeAsWritten | backend/utils/stateUtils.js:82 | the plain-object read of the source: an own value, the inherited `constructor`, or none; AsWrittenFindsConstructor and AsWrittenAgreesElsewhere relate it to IsStateCode |
| StateUtils.BuildStateMapping | backend/utils/stateUtils.js:6-66 | the table is the fifty `name: CODE` pairs followed by each code in lower case mapped to itself |
| StateUtils.IsStateCodeMeaning | backend/utils/stateUtils.js:77-83 | a code is found exactly when the cleaned input is a state name or a lower-case code; any result is one of the fifty codes |
| StateUtils.NameResolves | backend/utils/stateUtils.js:7-56 | an input that cleans to a state's name resolves to that state's code |
| StateUtils.EntryValid | backend/utils/stateUtils.js:7-56 | every name is lower-case letters and spaces with a letter at each end, and every code is two upper-case letters |
| StateUtils.NameIsCanonical | backend/utils/stateUtils.js:7-56 | each of the fifty names is its own cleaned form |
| StateUtils.NameAnyCaseResolves | backend/utils/stateUtils.js:68-83 | each of the fifty names, in any letter case ("California", "NEW YORK"), resolves to that state's code |
| StateUtils.CodeResolves | backend/utils/stateUtils.js:64-66 | an input that cleans to a state's code in lower case resolves to that code |
| StateUtils.CanonicalIgnoresCase | backend/utils/stateUtils.js:78-81 | inputs equal up to letter case clean to the same key |
| StateUtils.IsStateCodeIdempotent | backend/utils/stateUtils.js:77-83 | feeding a returned code back in returns the same code |
| StateUtils.LeadingNonLetterNotFound | backend/utils/stateUtils.js:78-82 | a trimmed input that starts with a non-letter followed by a space resolves to nothing |
| StateUtils.InheritedMemberNotAKey | backend/utils/stateUtils.js:6-66 | "constructor" is not one of the table's own keys |
| StateUtils.ConstructorCleans | backend/utils/stateUtils.js:78-81 | "Constructor" cleans to "constructor" |
| StateUtils.AsWrittenFindsConstructor | backend/utils/stateUtils.js:82 | the lookup as written returns the inherited member for such an input, where the corrected one returns none |
| StateUtils.AsWrittenAgreesElsewhere | backend/utils/stateUtils.js:82 | for every other key the lookup as written and the corrected one agree |
| UriEncoding.EncodeUriComponent | backend/services/ticketmaster.service.js:330 | the encoding is at least as long as the text and holds only unreserved characters, `%` and hex digits |
| UriEncoding.EncodeAppend | backend/services/ticketmaster.service.js:330 | encoding distributes over concatenation |
| UriEncoding.EncodeUnreserved | backend/services/ticketmaster.service.js:330 | text of unreserved characters is left as it is |
| UriEncoding.EncodeGrows | backend/services/ticketmaster.service.js:330 | a reserved character adds at least two characters |
| EventQuery.DefaultOptions | backend/services/ticketmaster.service.js:124-139 | the defaults of the destructuring pattern; DefaultQuery states what they send |
| EventQuery.DefaultQuery | backend/services/ticketmaster.service.js:124-206 | a call without options sends the default coordinates, `now` as the start, no selector and size "NaN" |
| EventQuery.CleanLocation | backend/services/ticketmaster.service.js:215 | `trim` then removal of every character but ASCII letters and white space; the result holds only such characters |
| EventQuery.RadiusSent | backend/services/ticketmaster.service.js:159 | `radius && Number.isInteger(radius)`; RadiusRule states what is sent |
| EventQuery.RadiusText | backend/services/ticketmaster.service.js:160 | the decimal text of an integer radius, with a minus sign exactly for a negative one |
| EventQuery.SizeText | backend/services/ticketmaster.service.js:205-206 | the clamped size in decimal, or "NaN"; SizeRule states its digits and range |
| EventQuery.ClampedSize | backend/services/ticketmaster.service.js:205 | the size is the rounded request clamped to [1, 9999], and it is absent only for `NaN` |
| EventQuery.QueryPairs | backend/services/ticketmaster.service.js:141-224 | every pair the search appends, in append order; BuildSearchParams, QueryValues and the rules below state its content |
| EventQuery.QueryValues | backend/services/ticketmaster.service.js:141-224 | the values under one name are the guarded appends of that name, in source order |
| EventQuery.EachNameAtMostOnce | backend/services/ticketmaster.service.js:141-224 | no parameter is sent twice, and latlong, unit and size are always sent |
| EventQuery.BuildSearchParams | backend/services/ticketmaster.service.js:141-223 | the appended entries, in order, are the query of the options |
| EventQuery.SelectorPriority | backend/services/ticketmaster.service.js:149-157 | at most one selector is sent, with priority id > attractionId > keyword; id lists are comma-joined |
| EventQuery.SizeRule | backend/services/ticketmaster.service.js:204-206 | size is sent once; unless it is `NaN` it is decimal digits whose value is in [1, 9999] |
| EventQuery.RadiusRule | backend/services/ticketmaster.service.js:159-161 | radius is sent, in decimal, exactly when it is a non-zero integer |
| EventQuery.CountryRule | backend/services/ticketmaster.service.js:163-165 | the country code is sent, as given, exactly when it is not empty |
| EventQuery.DateRule | backend/services/ticketmaster.service.js:168-196 | given bounds are sent as they are; `now` becomes the start only when neither bound is given |
| EventQuery.SpellcheckRule | backend/services/ticketmaster.service.js:208-211 | the spelling check is requested exactly when there is a keyword |
| EventQuery.SearchLocationRule | backend/services/ticketmaster.service.js:214-224 | a non-empty location sends exactly one of stateCode (the resolved code) and city (the cleaned text) |
| EventQuery.InheritedLocationSentAsCity | backend/services/ticketmaster.service.js:214-222 | a location that cleans to "constructor" is sent as a city, where the lookup as written finds the inherited member |
| DateFilter.DaysInMonth | backend/services/ticketmaster.service.js:234 | 28 to 31 days, and 29 exactly for February of a leap year |
| DateFilter.Day | backend/services/ticketmaster.service.js:234-236 | the parsed fields as a real calendar day: a real day is itself, a day past the end of its month rolls into the next month |
| DateFilter.RollOverIsNextMonth | backend/services/ticketmaster.service.js:234-236 | a rolled-over day comes after every day of its written month and is one of the first three days of the next |
| DateFilter.DayOf | backend/services/ticketmaster.service.js:234-236 | a real calendar day exactly for a text of the date shape; a text naming a real day gives that day |
| DateFilter.RolledBoundDropsEarlierDay | backend/services/ticketmaster.service.js:235-246 | with the start bound "2024-02-31" (March 2) an event on March 1 is dropped |
| DateFilter.ParseFormat | backend/services/ticketmaster.service.js:234-236 | reading a formatted calendar date gives the date back |
| DateFilter.FormatParse | backend/services/ticketmaster.service.js:234-236 | a date text that reads as a date is the formatting of that date |
| DateFilter.BoundIgnoresTime | backend/services/ticketmaster.service.js:235-241 | a bound with a time of day is the same day as the bound without it |
| DateFilter.KeepEvent | backend/services/ticketmaster.service.js:231-258 | an event is kept exactly when it has a local date and, unless no bound is given, that date is a day within every bound |
| DateFilter.FilterByDate | backend/services/ticketmaster.service.js:231-258 | the kept events are exactly those the test keeps |
| DateFilter.FilterByDateIdempotent | backend/services/ticketmaster.service.js:231-258 | filtering twice with the same bounds equals filtering once |
| DateFilter.UnparsableBoundDropsAll | backend/services/ticketmaster.service.js:235-236 | a bound that is not a date drops every event |
| Prices.FormatCents | backend/services/ticketmaster.service.js:317 | `toFixed(2)` gives a sign exactly for negatives, then digits, a point and two decimals |
| Prices.ParseFormatCents | backend/services/ticketmaster.service.js:317 | reading a rendered amount gives the amount back |
| Prices.FormatCentsInjective | backend/services/ticketmaster.service.js:317 | different amounts render differently |
| Prices.RangeTextInjective | backend/services/ticketmaster.service.js:317 | equal range texts come from equal ranges |
| Prices.Ranges | backend/services/ticketmaster.service.js:317 | one range text per price entry, in order |
| Prices.Listing | backend/services/ticketmaster.service.js:320 | the first entry's currency, a space and the de-duplicated ranges joined by ", "; ListingStart and ListingRepeat state its shape |
| Prices.PriceText | backend/services/ticketmaster.service.js:309-322 | "Price unavailable" or the listing of the complete entries; PriceUnavailableExactly and RepeatedRangeIgnored state when |
| Prices.PriceUnavailableExactly | backend/services/ticketmaster.service.js:309-322 | "Price unavailable" comes out exactly when no entry has both a min and a max |
| Prices.RepeatedRangeIgnored | backend/services/ticketmaster.service.js:316-319 | a range that repeats a listed one leaves the text unchanged |
| EventNormalizer.ArtistName | backend/services/ticketmaster.service.js:282-296 | the first attraction's name, else the event name up to its first " presents ", else up to its first " - ", else "" |
| EventNormalizer.ArtistFromPresentsTitle | backend/services/ticketmaster.service.js:287-288 | for "X presents Y" without an attraction name the artist is X |
| EventNormalizer.ArtistFromDashTitle | backend/services/ticketmaster.service.js:289-290 | for "X - Y" without " presents " and without an attraction name the artist is X |
| EventNormalizer.ImageUrl | backend/services/ticketmaster.service.js:304-307 | the url (or "") of the first image of the ratio and width, and "" when none matches |
| EventNormalizer.ImageUrlFirstMatch | backend/services/ticketmaster.service.js:304-307 | images after the first match do not change the url |
| Seqs.FindFirstAppend | backend/services/ticketmaster.service.js:304-307 | `find` returns the first match: once a list holds a match, appending to it leaves the found index unchanged |
| EventNormalizer.VenueUrl | backend/services/ticketmaster.service.js:326-332 | "" exactly without a venue name; else the venue url, or a search link for the encoded name |
| EventNormalizer.SearchLinkSingleValue | backend/services/ticketmaster.service.js:330 | the search link's query value holds no `&`, `#`, `=`, space or `+` |
| EventNormalizer.SearchLinkPlainName | backend/services/ticketmaster.service.js:330 | a name of unreserved characters appears in the link as it is |
| EventNormalizer.VirtualVenueImage | backend/services/ticketmaster.service.js:43-52 | an empty id has no image; any image is one of the ten virtual venue images |
| EventNormalizer.VirtualVenueImageLastChar | backend/services/ticketmaster.service.js:45-49 | ids ending in the same character get the same image |
| EventNormalizer.VirtualVenueImageOfDigit | backend/services/ticketmaster.service.js:47-51 | an id ending in digit d gets image (d + 8) mod 10 |
| EventNormalizer.Lines | backend/services/ticketmaster.service.js:357-361 | the lines are exactly the non-blank pieces of the text split at line breaks (after CR-LF becomes LF): each line is such a piece, and each such piece is a line |
| EventNormalizer.LinesCover | backend/services/ticketmaster.service.js:357-361 | every character of the text that is not white space lies in one of its lines |
| EventNormalizer.LinesOfNonBlank | backend/services/ticketmaster.service.js:356-361 | a non-blank text gives at least one line |
| EventNormalizer.Paragraphs | backend/services/ticketmaster.service.js:347-362 | one non-empty paragraph per non-blank info text, in order, each being that text's lines |
| EventNormalizer.InfoTexts | backend/services/ticketmaster.service.js:347-355 | the seven info texts in source order; Paragraphs states what is kept of them |
| EventNormalizer.Record | backend/services/ticketmaster.service.js:276-363 | the DETAIL record's fields in source order; FullRecord states its keys |
| EventNormalizer.View | backend/services/ticketmaster.service.js:365-371 | the LIST fields of the record in LIST mode, the whole record otherwise; ListViewFields and DetailViewIsRecord state it |
| EventNormalizer.FullRecord | backend/services/ticketmaster.service.js:276-363 | an event with an id has the record with all the DETAIL fields in order; one without an id has none |
| EventNormalizer.ListViewFields | backend/services/ticketmaster.service.js:19-36 | the LIST view keeps exactly the LIST fields, each with its record value |
| EventNormalizer.DetailViewIsRecord | backend/services/ticketmaster.service.js:365-371 | any mode but LIST returns the whole record |
| EventNormalizer.Normalize | backend/services/ticketmaster.service.js:275-372 | the normalizer succeeds exactly for an event with an id, and its result is an object with the DETAIL fields outside LIST mode |
| EventSearch.NormalizeAll | backend/services/ticketmaster.service.js:275 | every event is normalized in order, and the map fails exactly when one has no id |
| EventSearch.ErrorResult | backend/services/ticketmaster.service.js:378-387 | the failure result has no events, empty spelling fields, and the provider's detail or the generic message |
| EventSearch.Kept | backend/services/ticketmaster.service.js:231-258 | the reply's events the date filter keeps |
| EventSearch.Assemble | backend/services/ticketmaster.service.js:227-387 | the answer to a reply: the error result, the spelling short cut, or the normalized kept events; ErrorExactly, SpellcheckShortCircuit and SuccessEntries state each case |
| EventSearch.GetEvents | backend/services/ticketmaster.service.js:141-388 | the result is what the search makes of the provider's reply to the query of the options |
| EventSearch.ErrorExactly | backend/services/ticketmaster.service.js:273-387 | an error comes out exactly when the call failed or a kept event has no id; it carries nothing else |
| EventSearch.FailureMessage | backend/services/ticketmaster.service.js:379 | a failed call reports the provider's detail, or the generic message |
| EventSearch.SpellcheckShortCircuit | backend/services/ticketmaster.service.js:260-271 | nothing kept and a suggestion at hand give the suggestion alone, without events or error |
| EventSearch.SuccessEntries | backend/services/ticketmaster.service.js:231-276 | a successful result holds exactly one normalized entry per kept event, in order, each within the dates |
| EventSearch.ListModeEntries | backend/services/ticketmaster.service.js:365-368 | in LIST mode every entry has exactly the LIST fields |
| ArtistLookup.GenreText | backend/services/ticketmaster.service.js:79 | "Music \| " followed by the genre, or "General" without one |
| ArtistLookup.Fields | backend/services/ticketmaster.service.js:76-97 | the sixteen Ticketmaster fields of a matched attraction, with `\|\| ''` and `\|\| 0` defaults |
| ArtistLookup.FindAttraction | backend/services/ticketmaster.service.js:71 | `find` from the first attraction; FindAttractionFrom states the result |
| ArtistLookup.MatchArtists | backend/services/ticketmaster.service.js:59-103 | the entries of the matched artists when no search throws, none otherwise; GetTicketmasterIds, CollectOrigin and CollectComplete state it |
| ArtistLookup.FindAttractionFrom | backend/services/ticketmaster.service.js:71 | the first attraction with the same name ignoring case, none when all differ, or a throw at a nameless one before a match |
| ArtistLookup.MatchedInfo | backend/services/ticketmaster.service.js:74-98 | a matched artist's entry carries the artist's own name |
| ArtistLookup.Collect | backend/services/ticketmaster.service.js:59-103 | there are at most as many entries as artists |
| ArtistLookup.GetTicketmasterIds | backend/services/ticketmaster.service.js:59-103 | the loop gives the entries of the matched artists in order, or fails when a search throws |
| ArtistLookup.CollectOrigin | backend/services/ticketmaster.service.js:72-99 | every entry is the entry of some matched artist |
| ArtistLookup.CollectComplete | backend/services/ticketmaster.service.js:72-99 | every matched artist has its entry |
| ArtistLookup.ResultNames | backend/services/ticketmaster.service.js:59-103 | the results are at most as many as the artists and each names a searched artist |
| ArtistLookup.MatchedId | backend/services/ticketmaster.service.js:71-77 | a matched artist's id is that of the first attraction with the same name ignoring case |
| Users.User.constructor | backend/models/user.model.js:11-58 | a new user has range 100 and no followed artists or events |
| SpotifySync.FindByName | backend/routes/spotify-sync.route.js:66 | the first entry with exactly the artist's name, none when no entry has it |
| SpotifySync.Merged | backend/routes/spotify-sync.route.js:65-83 | the Spotify fields stay; the Ticketmaster fields are those of the first entry of the same name, or all absent |
| SpotifySync.MergeAll | backend/routes/spotify-sync.route.js:65-83 | every artist, in order, merged with the lookup's entries |
| SpotifySync.MergeTicketmaster | backend/routes/spotify-sync.route.js:65-83 | the loop leaves each element of the array merged |
| SpotifySync.SyncCallback | backend/routes/spotify-sync.route.js:44-94 | no user redirects with "failed"; a failing fetch or search leaves the user unchanged; otherwise the merged artists are saved and it redirects with "success" |
| SpotifySync.SameNameSameInfo | backend/routes/spotify-sync.route.js:66 | artists of the same name match alike |
| SpotifySync.MergeGetsMatch | backend/routes/spotify-sync.route.js:61-83 | after the sync a followed artist carries its own match's fields, or none when it has none |
| EventRoutes.IndexOf | backend/routes/event.route.js:293 | -1 exactly for an absent id, otherwise the first position of the id |
| EventRoutes.RemoveFirst | backend/routes/event.route.js:293-296 | an absent id changes nothing; a present one shortens the list by one |
| EventRoutes.SpliceFirst | backend/routes/event.route.js:293-296 | splicing at the first position of the id removes its first occurrence |
| EventRoutes.ToggleFavorite | backend/routes/event.route.js:271-309 | without a user the reply is 401; otherwise the list is toggled, nothing else changes, and the reply echoes the state |
| EventRoutes.Toggled | backend/routes/event.route.js:286-297 | the list after the toggle: the id appended when missing, or its first occurrence removed; FavoriteAdds, UnfavoriteRemovesOne and ToggleRoundTrip state it |
| EventRoutes.FavoriteAdds | backend/routes/event.route.js:286-290 | favouriting puts the id in the list once and changes nothing if it was there; no duplicate is created |
| EventRoutes.UnfavoriteRemovesOne | backend/routes/event.route.js:291-297 | unfavouriting removes one occurrence of the id and no other id |
| EventRoutes.UnfavoriteNoDuplicates | backend/routes/event.route.js:291-297 | from a list without duplicates, unfavouriting leaves the id out |
| EventRoutes.RemoveFirstSubset | backend/routes/event.route.js:293-296 | removing adds nothing |
| EventRoutes.EraseRemoveFirst | backend/routes/event.route.js:293-296 | removing the first occurrence leaves the other ids in order |
| EventRoutes.ToggleKeepsOthersInOrder | backend/routes/event.route.js:286-297 | either toggle keeps all other ids in their order |
| EventRoutes.RemoveFirstAppended | backend/routes/event.route.js:288-296 | removing an id just appended gives the list back |
| EventRoutes.ToggleRoundTrip | backend/routes/event.route.js:286-297 | favouriting then unfavouriting a new id gives the list back |
| EventRoutes.FollowedAttractionIds | backend/routes/event.route.js:53-55 | at most one id per artist and no empty id |
| EventRoutes.FollowedAttractionIdsAppend | backend/routes/event.route.js:53-55 | extraction distributes over concatenation |
| EventRoutes.FollowedAttractionIdsMembers | backend/routes/event.route.js:152-154 | an id is extracted exactly when some artist has it as a non-empty id |
| EventRoutes.FeedOptions | backend/routes/event.route.js:51-81 | the options of the two `getEvents` calls of the feed; FeedSelection states the query they give |
| EventRoutes.FeedSelection | backend/routes/event.route.js:51-81 | logged in with artists, the feed selects by their attraction ids and passes the user's followed events; otherwise it searches CA and US and passes no followed events; both in LIST mode |
| EventRoutes.FeedWithoutIdsIsUnfiltered | backend/routes/event.route.js:51-67 | artists without Ticketmaster ids give a query with no selector and no country |
| EventRoutes.RecommendedRadius | backend/routes/event.route.js:138 | `range \|\| 250` for a logged-in user, 250 otherwise |
| EventRoutes.RecommendedOptions | backend/routes/event.route.js:137-148 | the options of the route's `getEvents` call; RecommendedQuery states what they send and carry |
| EventRoutes.RecommendedQuery | backend/routes/event.route.js:136-148 | for the route's own options: the radius is 250 unless a logged-in user has a range, then the range when an integer and none otherwise; sort by distance, size 40; the followed events are the user's only when logged in; mode LIST |
| EventRoutes.Lookup | backend/routes/event.route.js:158-165 | a property is absent exactly when the record has no such key |
| EventRoutes.AttractionsIsNoField | backend/services/ticketmaster.service.js:19-36 | "attractions" is neither a record field nor a LIST field |
| EventRoutes.NormalizedHasNoAttractions | backend/routes/event.route.js:157-158 | no normalized event has an "attractions" field |
| EventRoutes.AttractionIdsOf | backend/routes/event.route.js:158 | the `id` of each element of an `attractions` array, or no ids |
| EventRoutes.ExcludeByAttractionsAsWritten | backend/routes/event.route.js:157-160 | the exclusion as written; AsWrittenRemovesNothing and AsWrittenKeepsFollowedArtist state what it does |
| EventRoutes.AsWrittenRemovesNothing | backend/routes/event.route.js:157-160 | the exclusion as written keeps every normalized event |
| EventRoutes.AsWrittenKeepsFollowedArtist | backend/routes/event.route.js:157-160 | an event by a followed artist survives the exclusion as written and not the corrected one |
| EventRoutes.ExcludeByProperty | backend/routes/event.route.js:163-166 | an event is kept exactly when its `id` (or, for the corrected artist exclusion, its `artistId`) is not among the given ids |
| EventRoutes.RecommendedKept | backend/routes/event.route.js:150-166 | the events left after both exclusions, for a logged-in user only; RecommendedExclusions states it |
| EventRoutes.RecommendedExclusions | backend/routes/event.route.js:150-166 | a logged-in user is shown neither a followed event nor an event by a followed artist |
| EventRoutes.AtMostEight | backend/routes/event.route.js:169 | `slice(0, 8)` keeps eight or all |
| EventRoutes.PrefixOfPermutation | backend/routes/event.route.js:169 | a prefix of a shuffle is a sub-multiset of the shuffled events |
| EventRoutes.ShownEvents | backend/routes/event.route.js:150-169 | the shown events are at most eight of the kept ones, each at most as often |
| EventRoutes.SelectRecommended | backend/routes/event.route.js:150-169 | the shown events come from the search, number min(8, kept), and exclude what the user follows |

## Left out

- The network: the Discovery API, the attraction search and the Spotify calls (`getAccessToken`, `getFollowedArtists`) are parameters. A failed call is `None` or `Failure`.
- The clock: the current time in the fixed time zone is a string given to the query builder.
- `Math.random` in the recommended shuffle: any permutation stands for it.
- Persistence and authentication: `updateOne`, `saveUser` and `findUser` are not modelled; the user is passed in, and a save is an assignment to its fields. A failing save, and the error handler it would reach, are not modelled.
- The base64 decoding of the callback's `state` is not modelled.
- Floating point:
  - Prices are integer cents, so `toFixed(2)` is exact.
  - Size and radius are JavaScript numbers as reals with `NaN` and the infinities. `Math.round` is floor of x + 0.5.
  - A radius of 1e21 or more would print in exponent form; this is not modelled.
  - `distance`, `latitude` and `longitude` are taken as given, with `|| 0` for an absent value.
- The JavaScript `Date` parser: a date bound and a local date are read as `YYYY-MM-DD` texts only, with any day up to 31 rolled over into the next month as V8 does. Other formats that `new Date` accepts count as unparsable. Time zone shifts are not modelled.
- Text: lower-casing is the ASCII mapping; non-ASCII case mapping is not modelled. Trimming and `\s` use the full JavaScript white-space set.
- Non-array values where the source expects an array (for example an `attractions` field that is not a list) would throw in the source; they are not modelled.
- The routes `/followed-events`, `/artists`, the authentication routes, `getCoordinates`, the zip-code data and the frontend are not part of this model.
- SpotifySync.MergeTicketmaster: each array element is replaced by a merged value instead of having sixteen properties assigned, so aliasing of the artist objects is not modelled.
- EventRoutes.SelectRecommended: it takes the events the search returned and applies the corrected artist exclusion (see Findings). The `getEvents` call of the route is modelled by EventRoutes.RecommendedQuery over the options the route builds, not inside the same method.
- EventRoutes.FeedSelection: the event feed route is modelled by the options it passes to `getEvents` and the query they give, not as a method with the search inside.
- EventQuery.SearchLocationRule: the query uses the corrected state lookup (see Findings). A location that cleans to "constructor" is sent as `city`, where the source sends the text of the inherited `Object` function as `stateCode`; EventQuery.InheritedLocationSentAsCity states the difference.
- Prices.CurrencyText: a `null` currency, which prints as "null", is not told apart from a missing one, which prints as "undefined".
- EventRoutes.ToggleFavorite: `eventId` is a string and `state` is a boolean. The source accepts any JSON value and tests truthiness. `followed_events || []` is not modelled, since the schema's default is an empty list.

## Findings

| source | as written | input that shows it | evidently intended | confidence | as-written member | corrected member |
|---|---|---|---|---|---|---|
| backend/utils/stateUtils.js:82 | `STATE_MAPPING[cleaned] \|\| null` looks the key up on a plain object, so inherited members count as entries | `isStateCode("Constructor")` cleans to "constructor" and returns the inherited `Object` function; `getEvents` would then send it as the stateCode | only the fifty names and fifty lower-case codes resolve, anything else gives null | not executed | StateUtils.AsWrittenFindsConstructor | StateUtils.IsStateCodeMeaning |
| backend/routes/event.route.js:157-160 | the followed-artist exclusion reads `event.attractions`, which a normalized event never has, so it removes nothing | a logged-in user following artist K1 and a LIST event `{id: "E1", artistId: "K1"}` among the results: the event is still recommended | drop events whose artist (`artistId`) is a followed artist | not executed | EventRoutes.AsWrittenKeepsFollowedArtist | EventRoutes.RecommendedExclusions |
