/**
 * `getTicketmasterIds`: for each followed artist, one attraction search by name; the first
 * attraction whose name equals the artist's, ignoring case, supplies the artist's Ticketmaster
 * id, links and images, and artists without one are left out of the result.
 */
module ArtistLookup {
  import opened Wrappers
  import opened Text
  import opened TicketmasterData
  import opened EventNormalizer

  /** `externalLinks.<site>[0].url` for each site the source reads. */
  datatype ExternalLinks = ExternalLinks(
    youtube: Option<string>, twitter: Option<string>, itunes: Option<string>, lastfm: Option<string>,
    spotify: Option<string>, wiki: Option<string>, facebook: Option<string>, musicbrainz: Option<string>,
    instagram: Option<string>, homepage: Option<string>)

  /**
   * One entry of `_embedded.attractions` of an attraction search. `genre` is
   * `classifications[0].genre.name`; `upcomingTotal` is `upcomingEvents._total`.
   */
  datatype AttractionRecord = AttractionRecord(
    id: Option<string>,
    name: Option<string>,
    url: Option<string>,
    genre: Option<string>,
    upcomingTotal: Option<int>,
    images: seq<RawImage>,
    links: ExternalLinks)

  /** The sixteen Ticketmaster fields a matched artist carries. */
  datatype TicketmasterFields = TicketmasterFields(
    ticketmasterId: Option<string>,
    ticketmasterUrl: string,
    ticketmasterGenre: string,
    upcomingEvents: int,
    image16x9: string,
    image3x2: string,
    youtubeLink: string,
    twitterLink: string,
    itunesLink: string,
    lastfmLink: string,
    spotifyLink: string,
    wikiLink: string,
    facebookLink: string,
    musicbrainzLink: string,
    instagramLink: string,
    homepageLink: string)

  /** One result of `getTicketmasterIds`: the artist's own name and what the match supplied. */
  datatype ArtistInfo = ArtistInfo(name: string, fields: TicketmasterFields)

  /**
   * A followed artist as Spotify describes it, with the Ticketmaster fields merged onto it;
   * `None` stands for all sixteen of them being `undefined`.
   */
  datatype FollowedArtist = FollowedArtist(
    id: string, name: string, followers: int, image: string, ticketmaster: Option<TicketmasterFields>)

  const GenrePrefix := "Music | "

  /** `'Music | ' + (genre || 'General')`. */
  function GenreText(genre: Option<string>): (r: string)
    ensures |r| > |GenrePrefix| && r[..|GenrePrefix|] == GenrePrefix
    ensures Truthy(genre) ==> r[|GenrePrefix|..] == genre.value
    ensures !Truthy(genre) ==> r[|GenrePrefix|..] == "General"
  {
    GenrePrefix + (if Truthy(genre) then genre.value else "General")
  }

  /** The fields a matching attraction supplies. */
  function Fields(a: AttractionRecord): TicketmasterFields {
    TicketmasterFields(
      a.id,
      OrEmpty(a.url),
      GenreText(a.genre),
      a.upcomingTotal.GetOr(0),
      ImageUrl(a.images, "16_9", 1024),
      ImageUrl(a.images, "3_2", 305),
      OrEmpty(a.links.youtube),
      OrEmpty(a.links.twitter),
      OrEmpty(a.links.itunes),
      OrEmpty(a.links.lastfm),
      OrEmpty(a.links.spotify),
      OrEmpty(a.links.wiki),
      OrEmpty(a.links.facebook),
      OrEmpty(a.links.musicbrainz),
      OrEmpty(a.links.instagram),
      OrEmpty(a.links.homepage))
  }

  /** What the `find` over the attractions comes to. */
  datatype MatchResult = Found(index: nat) | NotFound | Throws

  /** `a.name.toLowerCase() === name.toLowerCase()` for an attraction with a name. */
  predicate SameName(a: AttractionRecord, name: string)
    requires a.name.Some?
  {
    ToLower(a.name.value) == ToLower(name)
  }

  /** Every attraction in `[lo, hi)` has a name, and none is the same name. */
  predicate NoMatchIn(attractions: seq<AttractionRecord>, name: string, lo: nat, hi: nat)
    requires lo <= hi <= |attractions|
  {
    forall j | lo <= j < hi :: attractions[j].name.Some? && !SameName(attractions[j], name)
  }

  /**
   * `attractions.find(...)` from index `i`: stops at the first attraction with the same name
   * ignoring case, and throws on reaching one without a name.
   */
  function FindAttractionFrom(attractions: seq<AttractionRecord>, name: string, i: nat): (r: MatchResult)
    requires i <= |attractions|
    ensures r.Found? ==> (i <= r.index < |attractions| && attractions[r.index].name.Some?
      && SameName(attractions[r.index], name))
    ensures r.Found? ==> NoMatchIn(attractions, name, i, r.index)
    ensures r.NotFound? <==> NoMatchIn(attractions, name, i, |attractions|)
    ensures r.Throws? ==> exists k | i <= k < |attractions| :: attractions[k].name.None? && NoMatchIn(attractions, name, i, k)
    decreases |attractions| - i
  {
    if i == |attractions| then NotFound
    else if attractions[i].name.None? then Throws
    else if SameName(attractions[i], name) then Found(i)
    else FindAttractionFrom(attractions, name, i + 1)
  }

  /** The match for `name` among the attractions of one search. */
  function FindAttraction(attractions: seq<AttractionRecord>, name: string): MatchResult {
    FindAttractionFrom(attractions, name, 0)
  }

  /** The search for an artist fails: the request throws, or the `find` does. */
  predicate Fails(artist: FollowedArtist, lookup: string -> Option<seq<AttractionRecord>>) {
    lookup(artist.name).None? || FindAttraction(lookup(artist.name).value, artist.name).Throws?
  }

  /** The search for an artist finds a matching attraction. */
  predicate Matched(artist: FollowedArtist, lookup: string -> Option<seq<AttractionRecord>>) {
    lookup(artist.name).Some? && FindAttraction(lookup(artist.name).value, artist.name).Found?
  }

  /** The result entry of a matched artist. */
  function MatchedInfo(artist: FollowedArtist, lookup: string -> Option<seq<AttractionRecord>>): (r: ArtistInfo)
    requires Matched(artist, lookup)
    ensures r.name == artist.name
  {
    var attractions := lookup(artist.name).value;
    ArtistInfo(artist.name, Fields(attractions[FindAttraction(attractions, artist.name).index]))
  }

  /** The entries of the matched artists, in the artists' order. */
  function Collect(artists: seq<FollowedArtist>, lookup: string -> Option<seq<AttractionRecord>>): (r: seq<ArtistInfo>)
    ensures |r| <= |artists|
  {
    if |artists| == 0 then []
    else
      var last := artists[|artists| - 1];
      Collect(artists[..|artists| - 1], lookup) + (if Matched(last, lookup) then [MatchedInfo(last, lookup)] else [])
  }

  /**
   * What `getTicketmasterIds(artists)` resolves to: the matched entries, or `None` when it
   * rejects because one of the searches throws.
   */
  function MatchArtists(artists: seq<FollowedArtist>, lookup: string -> Option<seq<AttractionRecord>>): Option<seq<ArtistInfo>> {
    if NoneFail(artists, lookup) then Some(Collect(artists, lookup)) else None
  }

  /** None of the searches for the artists fails. */
  predicate NoneFail(artists: seq<FollowedArtist>, lookup: string -> Option<seq<AttractionRecord>>) {
    forall i | 0 <= i < |artists| :: !Fails(artists[i], lookup)
  }

  /** One more search that does not fail keeps the prefix free of failures. */
  lemma NoneFailStep(artists: seq<FollowedArtist>, lookup: string -> Option<seq<AttractionRecord>>, i: nat)
    requires i < |artists| && NoneFail(artists[..i], lookup) && !Fails(artists[i], lookup)
    ensures NoneFail(artists[..i + 1], lookup)
  {
    var longer := artists[..i + 1];
    forall j | 0 <= j < |longer|
      ensures !Fails(longer[j], lookup)
    {
      if j < i {
        assert longer[j] == artists[..i][j];
      }
    }
  }

  /**
   * The loop of `getTicketmasterIds`: one search per artist through `lookup` (the attraction
   * search by keyword), pushing an entry for each artist that has a match.
   */
  method GetTicketmasterIds(artists: seq<FollowedArtist>, lookup: string -> Option<seq<AttractionRecord>>)
    returns (r: Option<seq<ArtistInfo>>)
    ensures r == MatchArtists(artists, lookup)
  {
    var results: seq<ArtistInfo> := [];
    var i := 0;
    while i < |artists|
      invariant 0 <= i <= |artists|
      invariant results == Collect(artists[..i], lookup)
      invariant NoneFail(artists[..i], lookup)
    {
      var artist := artists[i];
      var data := lookup(artist.name);
      if data.None? {
        assert !NoneFail(artists, lookup) by { assert Fails(artists[i], lookup); }
        return None;
      }
      var found := FindAttraction(data.value, artist.name);
      if found.Throws? {
        assert !NoneFail(artists, lookup) by { assert Fails(artists[i], lookup); }
        return None;
      }
      NoneFailStep(artists, lookup, i);
      assert artists[..i + 1][..i] == artists[..i];
      if found.Found? {
        results := results + [ArtistInfo(artist.name, Fields(data.value[found.index]))];
      }
      i := i + 1;
    }
    assert artists[..i] == artists;
    return Some(results);
  }

  /** Entry `k` of the result is the entry of a matched artist `j`. */
  lemma {:induction false} CollectOrigin(artists: seq<FollowedArtist>, lookup: string -> Option<seq<AttractionRecord>>, k: nat)
    returns (j: nat)
    requires k < |Collect(artists, lookup)|
    ensures j < |artists| && Matched(artists[j], lookup) && Collect(artists, lookup)[k] == MatchedInfo(artists[j], lookup)
  {
    var prefix := artists[..|artists| - 1];
    var last := artists[|artists| - 1];
    var head := Collect(prefix, lookup);
    assert Collect(artists, lookup) == head + (if Matched(last, lookup) then [MatchedInfo(last, lookup)] else []);
    if k < |head| {
      j := CollectOrigin(prefix, lookup, k);
      assert artists[j] == prefix[j];
    } else {
      j := |artists| - 1;
    }
  }

  /** `info` is the entry of one of the matched artists. */
  predicate EntryOfMatched(info: ArtistInfo, artists: seq<FollowedArtist>, lookup: string -> Option<seq<AttractionRecord>>) {
    exists j | 0 <= j < |artists| :: Matched(artists[j], lookup) && info == MatchedInfo(artists[j], lookup)
  }

  /** Every entry comes from a matched artist and is that artist's entry. */
  lemma CollectSound(artists: seq<FollowedArtist>, lookup: string -> Option<seq<AttractionRecord>>)
    ensures forall k | 0 <= k < |Collect(artists, lookup)| :: EntryOfMatched(Collect(artists, lookup)[k], artists, lookup)
  {
    forall k | 0 <= k < |Collect(artists, lookup)|
      ensures EntryOfMatched(Collect(artists, lookup)[k], artists, lookup)
    {
      var j := CollectOrigin(artists, lookup, k);
    }
  }

  /** Every matched artist has its entry. */
  lemma {:induction false} CollectComplete(artists: seq<FollowedArtist>, lookup: string -> Option<seq<AttractionRecord>>)
    ensures forall j | 0 <= j < |artists| && Matched(artists[j], lookup) ::
      MatchedInfo(artists[j], lookup) in Collect(artists, lookup)
  {
    if |artists| > 0 {
      var prefix := artists[..|artists| - 1];
      CollectComplete(prefix, lookup);
      forall j | 0 <= j < |artists| && Matched(artists[j], lookup)
        ensures MatchedInfo(artists[j], lookup) in Collect(artists, lookup)
      {
        if j < |prefix| {
          assert artists[j] == prefix[j];
        }
      }
    }
  }

  /**
   * The result names only artists that were searched: the results are at most as many as
   * the artists, and each carries an artist's own name.
   */
  lemma ResultNames(artists: seq<FollowedArtist>, lookup: string -> Option<seq<AttractionRecord>>)
    requires MatchArtists(artists, lookup).Some?
    ensures var r := MatchArtists(artists, lookup).value;
      |r| <= |artists| && forall k | 0 <= k < |r| :: exists j | 0 <= j < |artists| :: r[k].name == artists[j].name
  {
    CollectSound(artists, lookup);
  }

  /** A matched artist's entry names the id of the first attraction of the same name. */
  lemma MatchedId(artist: FollowedArtist, lookup: string -> Option<seq<AttractionRecord>>)
    requires Matched(artist, lookup)
    ensures var attractions := lookup(artist.name).value;
      exists k | 0 <= k < |attractions| ::
        attractions[k].name.Some? && ToLower(attractions[k].name.value) == ToLower(artist.name)
        && MatchedInfo(artist, lookup).fields.ticketmasterId == attractions[k].id
        && forall j | 0 <= j < k :: attractions[j].name.Some? && ToLower(attractions[j].name.value) != ToLower(artist.name)
  {
    var attractions := lookup(artist.name).value;
    var k := FindAttraction(attractions, artist.name).index;
    assert MatchedInfo(artist, lookup).fields.ticketmasterId == attractions[k].id;
  }
}
