/**
 * The Spotify sync callback: find the user, fetch the followed artists, look each up on
 * Ticketmaster, merge the matches onto the artists in place and store them on the user.
 */
module SpotifySync {
  import opened Wrappers
  import opened Seqs
  import opened ArtistLookup
  import opened Users

  /** `ticketmasterIds.find((id) => id.name === followed.name)`: exact, case-sensitive. */
  function FindByName(ids: seq<ArtistInfo>, name: string): (r: Option<nat>)
    ensures r.Some? ==> r.value < |ids| && ids[r.value].name == name
    ensures r.Some? ==> forall j | 0 <= j < r.value :: ids[j].name != name
    ensures r.None? <==> forall j | 0 <= j < |ids| :: ids[j].name != name
  {
    FindFirst(ids, (info: ArtistInfo) => info.name == name)
  }

  /**
   * One artist after the `forEach` body: the sixteen fields of the first entry with the same
   * name, or all of them `undefined`; the Spotify fields stay as they were.
   */
  function Merged(a: FollowedArtist, ids: seq<ArtistInfo>): (r: FollowedArtist)
    ensures r.id == a.id && r.name == a.name && r.followers == a.followers && r.image == a.image
    ensures r.ticketmaster.None? <==> forall j | 0 <= j < |ids| :: ids[j].name != a.name
    ensures r.ticketmaster.Some? ==> exists k | 0 <= k < |ids| ::
      (ids[k].name == a.name && r.ticketmaster.value == ids[k].fields
      && forall j | 0 <= j < k :: ids[j].name != a.name)
  {
    match FindByName(ids, a.name)
    case Some(k) => a.(ticketmaster := Some(ids[k].fields))
    case None => a.(ticketmaster := None)
  }

  /** The followed list after the merge: the same artists, in the same order, each merged. */
  function MergeAll(artists: seq<FollowedArtist>, ids: seq<ArtistInfo>): (r: seq<FollowedArtist>)
    ensures |r| == |artists|
    ensures forall i | 0 <= i < |artists| :: r[i] == Merged(artists[i], ids)
  {
    seq(|artists|, i requires 0 <= i < |artists| => Merged(artists[i], ids))
  }

  /** The `forEach` over `followed`: assigns the merged fields onto every element in place. */
  method MergeTicketmaster(followed: array<FollowedArtist>, ids: seq<ArtistInfo>)
    modifies followed
    ensures followed[..] == MergeAll(old(followed[..]), ids)
  {
    var i := 0;
    while i < followed.Length
      invariant 0 <= i <= followed.Length
      invariant forall j | 0 <= j < i :: followed[j] == Merged(old(followed[j]), ids)
      invariant forall j | i <= j < followed.Length :: followed[j] == old(followed[j])
    {
      var match_ := FindByName(ids, followed[i].name);
      var ticketmaster := if match_.Some? then Some(ids[match_.value].fields) else None;
      followed[i] := followed[i].(ticketmaster := ticketmaster);
      i := i + 1;
    }
  }

  /** Where the callback sends the browser, or that it hands the error to the error handler. */
  datatype SyncOutcome = Redirect(url: string) | PassToErrorHandler

  /**
   * GET `/callback` once the email is decoded: `user` is what the lookup by email found
   * (`null` for no user), `fetched` the followed artists (`None` when the token exchange or
   * the fetch fails) and `lookup` the attraction search.
   */
  method SyncCallback(user: User?, frontendUri: string, fetched: Option<seq<FollowedArtist>>,
                      lookup: string -> Option<seq<AttractionRecord>>)
    returns (outcome: SyncOutcome)
    modifies user
    ensures user == null ==> outcome == Redirect(frontendUri + "?sync_spotify=failed")
    ensures user != null && (fetched.None? || MatchArtists(fetched.value, lookup).None?) ==>
      outcome == PassToErrorHandler && unchanged(user)
    ensures user != null && fetched.Some? && MatchArtists(fetched.value, lookup).Some? ==>
      outcome == Redirect(frontendUri + "?sync_spotify=success")
      && user.followedArtists == MergeAll(fetched.value, MatchArtists(fetched.value, lookup).value)
      && user.followedEvents == old(user.followedEvents) && user.range == old(user.range)
  {
    if user == null {
      return Redirect(frontendUri + "?sync_spotify=failed");
    }
    if fetched.None? {
      return PassToErrorHandler;
    }
    var ids := GetTicketmasterIds(fetched.value, lookup);
    if ids.None? {
      return PassToErrorHandler;
    }
    var followed := new FollowedArtist[|fetched.value|](i requires 0 <= i < |fetched.value| => fetched.value[i]);
    assert followed[..] == fetched.value;
    MergeTicketmaster(followed, ids.value);
    user.followedArtists := followed[..];
    outcome := Redirect(frontendUri + "?sync_spotify=success");
  }

  /** The search result depends on the artist's name only. */
  lemma SameNameSameInfo(a: FollowedArtist, b: FollowedArtist, lookup: string -> Option<seq<AttractionRecord>>)
    requires a.name == b.name
    ensures Matched(a, lookup) <==> Matched(b, lookup)
    ensures Matched(a, lookup) ==> MatchedInfo(a, lookup) == MatchedInfo(b, lookup)
  {
  }

  /**
   * After a successful sync every artist the search matched carries that match's fields,
   * its Ticketmaster id among them, and every other artist carries none.
   */
  lemma MergeGetsMatch(artists: seq<FollowedArtist>, lookup: string -> Option<seq<AttractionRecord>>, a: FollowedArtist)
    requires a in artists
    ensures Matched(a, lookup) ==>
      Merged(a, Collect(artists, lookup)).ticketmaster == Some(MatchedInfo(a, lookup).fields)
    ensures !Matched(a, lookup) ==> Merged(a, Collect(artists, lookup)).ticketmaster.None?
  {
    var ids := Collect(artists, lookup);
    CollectSound(artists, lookup);
    CollectComplete(artists, lookup);
    var i :| 0 <= i < |artists| && artists[i] == a;
    match FindByName(ids, a.name)
    case Some(k) => {
      assert EntryOfMatched(ids[k], artists, lookup);
      var j :| 0 <= j < |artists| && Matched(artists[j], lookup) && ids[k] == MatchedInfo(artists[j], lookup);
      SameNameSameInfo(a, artists[j], lookup);
    }
    case None =>
  }
}
