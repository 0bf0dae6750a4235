/**
 * `getEvents` end to end: build the query, ask the provider, drop events outside the dates,
 * answer with a spelling suggestion when nothing is left, otherwise normalize every event;
 * any failure becomes a result with an `error` text and no events.
 */
module EventSearch {
  import opened Wrappers
  import opened Seqs
  import opened TicketmasterData
  import opened EventQuery
  import opened DateFilter
  import opened EventNormalizer

  /**
   * What the Discovery API call gives back: the events and the spelling fields of a reply,
   * or a failure carrying `errors[0].detail` of the error response, if any.
   */
  datatype ProviderReply =
    | Reply(events: seq<RawEvent>, suggestion: Option<string>, original: Option<string>)
    | Failure(detail: Option<string>)

  /** The object `getEvents` resolves to; `error` is present only on the failure path. */
  datatype SearchResult = SearchResult(events: seq<Json>, spellcheck: string, originalKeyword: string, error: Option<string>)

  const UnknownError := "Ticketmaster: Unknown error"

  /** The `catch` branch: no events, empty spelling fields, and the provider's detail or the generic message. */
  function ErrorResult(detail: Option<string>): (r: SearchResult)
    ensures r.events == [] && r.spellcheck == "" && r.originalKeyword == "" && r.error.Some?
    ensures Truthy(detail) ==> r.error == detail
    ensures !Truthy(detail) ==> r.error == Some(UnknownError)
  {
    SearchResult([], "", "", Some(if Truthy(detail) then detail.value else UnknownError))
  }

  /**
   * `events.map(normalize)`: the entries in order, or `None` when one of them throws, which
   * happens exactly when an event has no id.
   */
  function NormalizeAll(events: seq<RawEvent>, followedEvents: seq<string>, mode: string): (r: Option<seq<Json>>)
    ensures r.Some? <==> forall i | 0 <= i < |events| :: events[i].id.Some?
    ensures r.Some? ==> |r.value| == |events|
    ensures r.Some? ==> forall i | 0 <= i < |events| :: Normalize(events[i], followedEvents, mode) == Some(r.value[i])
  {
    MapAll(events, (e: RawEvent) => Normalize(e, followedEvents, mode))
  }

  /** What `getEvents` makes of the provider's reply to the query of `o`. */
  function Assemble(o: SearchOptions, reply: ProviderReply): SearchResult {
    match reply
    case Failure(detail) => ErrorResult(detail)
    case Reply(events, suggestion, original) =>
      var kept := FilterByDate(events, o.startDate, o.endDate);
      var spellcheck := OrEmpty(suggestion);
      var originalKeyword := OrEmpty(original);
      if |kept| == 0 && spellcheck != "" then SearchResult([], spellcheck, originalKeyword, None)
      else
        match NormalizeAll(kept, o.followedEvents, o.mode)
        case None => ErrorResult(None)
        case Some(entries) => SearchResult(entries, spellcheck, originalKeyword, None)
  }

  /**
   * `getEvents(o)`: builds the query one `append` at a time, sends it through `provider`
   * (the Discovery API call) and assembles the answer.
   */
  method GetEvents(o: SearchOptions, now: string, provider: seq<QueryPair> -> ProviderReply) returns (result: SearchResult)
    ensures result == Assemble(o, provider(QueryPairs(o, now)))
  {
    var params := BuildSearchParams(o, now);
    var reply := provider(params.entries);
    result := Assemble(o, reply);
  }

  /** The events the date filter keeps from a reply. */
  function Kept(o: SearchOptions, reply: ProviderReply): seq<RawEvent>
    requires reply.Reply?
  {
    FilterByDate(reply.events, o.startDate, o.endDate)
  }

  /**
   * The result carries an error exactly when the call failed or a kept event has no id; an
   * error result has no events and empty spelling fields.
   */
  lemma ErrorExactly(o: SearchOptions, reply: ProviderReply)
    ensures var r := Assemble(o, reply);
      r.error.Some? <==> reply.Failure? || exists i | 0 <= i < |Kept(o, reply)| :: Kept(o, reply)[i].id.None?
    ensures var r := Assemble(o, reply);
      r.error.Some? ==> r.events == [] && r.spellcheck == "" && r.originalKeyword == ""
  {
    ErrorCarriesNothing(o, reply);
    if reply.Reply? {
      var kept := Kept(o, reply);
      var all := NormalizeAll(kept, o.followedEvents, o.mode);
      assert all.None? <==> exists i | 0 <= i < |kept| :: kept[i].id.None?;
    }
  }

  lemma ErrorCarriesNothing(o: SearchOptions, reply: ProviderReply)
    ensures var r := Assemble(o, reply);
      r.error.Some? ==> r.events == [] && r.spellcheck == "" && r.originalKeyword == ""
  {
  }

  /** A failed call reports the provider's detail text, or the generic message without one. */
  lemma FailureMessage(o: SearchOptions, detail: Option<string>)
    ensures Assemble(o, Failure(detail)).error == Some(if Truthy(detail) then detail.value else UnknownError)
  {
  }

  /**
   * With nothing left after the date filter and a suggestion at hand, the result is the
   * suggestion alone: no events and no error.
   */
  lemma SpellcheckShortCircuit(o: SearchOptions, events: seq<RawEvent>, suggestion: string, original: Option<string>)
    requires suggestion != "" && FilterByDate(events, o.startDate, o.endDate) == []
    ensures var r := Assemble(o, Reply(events, Some(suggestion), original));
      r.events == [] && r.spellcheck == suggestion && r.originalKeyword == OrEmpty(original) && r.error.None?
  {
  }

  /**
   * A successful result holds one normalized entry per kept event, in order, and every kept
   * event passed the date filter.
   */
  lemma SuccessEntries(o: SearchOptions, reply: ProviderReply)
    requires reply.Reply? && Assemble(o, reply).error.None?
    ensures var r := Assemble(o, reply);
      |r.events| == |Kept(o, reply)|
    ensures var r := Assemble(o, reply);
      forall i | 0 <= i < |r.events| ::
        Normalize(Kept(o, reply)[i], o.followedEvents, o.mode) == Some(r.events[i])
    ensures forall e | e in Kept(o, reply) :: e in reply.events && KeepEvent(e.localDate, o.startDate, o.endDate)
  {
  }

  /** In LIST mode every entry of a successful result has exactly the LIST fields. */
  lemma ListModeEntries(o: SearchOptions, reply: ProviderReply)
    requires o.mode == "LIST" && Assemble(o, reply).error.None?
    ensures var r := Assemble(o, reply);
      forall i | 0 <= i < |r.events| :: r.events[i].JObject? &&
        forall k :: k in Keys(r.events[i].fields) <==> k in ListModeFields
  {
    var r := Assemble(o, reply);
    if reply.Reply? && |r.events| > 0 {
      var kept := Kept(o, reply);
      forall i | 0 <= i < |r.events|
        ensures r.events[i].JObject? && forall k :: k in Keys(r.events[i].fields) <==> k in ListModeFields
      {
        var record := FullRecord(kept[i], o.followedEvents);
        ListViewFields(record.value);
      }
    }
  }
}
