/** The stored user document, as far as the event and sync routes read and write it. */
module Users {
  import opened JsNumbers
  import opened ArtistLookup

  /** A user document; the routes update its lists in place. */
  class User {
    /** `followed_events`: ids of the events the user marked as favourite. */
    var followedEvents: seq<string>
    /** `followed_artists`: the artists of the last Spotify sync. */
    var followedArtists: seq<FollowedArtist>
    /** `range`: the search radius for recommendations, in kilometres. */
    var range: JsNumber

    /** A new document with the schema defaults: no favourites, no artists, a range of 100. */
    constructor ()
      ensures followedEvents == [] && followedArtists == [] && range == Finite(100.0)
    {
      followedEvents := [];
      followedArtists := [];
      range := Finite(100.0);
    }
  }
}
