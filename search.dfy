/**
 * The catalog search: one search per "artist - song" query, retried on transport errors, and a
 * selection rule that turns a reply into zero or one track ID.
 *
 * The remote service is a stub: `catalog(query, n)` is the reply to the n-th attempt (counting
 * from 0) at searching for `query`. The retry helper is not part of this model; it is stood in
 * for by its usual contract: call the attempt until it reports no error, at most
 * `MaxSearchRetries` times in all. The five-second pause between attempts and the log lines are
 * left out.
 */
module Search {
  import opened Wrappers
  import Sequences

  const MaxSearchRetries: nat := 5

  type TrackID = string

  datatype Track = Track(id: TrackID, explicit: bool)

  /** The track part of a search reply; `tracks == None` when the reply carries no track page at all. */
  datatype SearchResult = SearchResult(tracks: Option<seq<Track>>)

  /** What one search request gives back: a transport or remote error, or a reply. */
  datatype Response = SearchFailed(err: string) | Replied(result: SearchResult)

  type Catalog = (string, nat) -> Response

  /** The selection rule: the first track's ID, unless there is no track or clean-only rejects it. */
  function Select(result: SearchResult, cleanOnly: bool): (r: Option<TrackID>)
    ensures r.Some? ==>
              result.tracks.Some? && |result.tracks.value| > 0 && r.value == result.tracks.value[0].id
    ensures r.Some? && cleanOnly ==> !result.tracks.value[0].explicit
    ensures result.tracks.Some? && |result.tracks.value| > 0 && !(cleanOnly && result.tracks.value[0].explicit)
            ==> r.Some?
  {
    match result.tracks
    case None => None
    case Some(tracks) =>
      if |tracks| > 0 then
        if cleanOnly && tracks[0].explicit then None else Some(tracks[0].id)
      else None
  }

  /** How a bounded series of attempts ended: how many were made, and the reply that stopped it. */
  datatype Resolution = Resolution(attempts: nat, result: Option<SearchResult>)

  /** The attempts from the `n`-th on: stop at the first reply, or when the attempt bound is used up. */
  function Resolve(catalog: Catalog, query: string, n: nat): Resolution
    requires n < MaxSearchRetries
    decreases MaxSearchRetries - n
  {
    match catalog(query, n)
    case Replied(result) => Resolution(n + 1, Some(result))
    case SearchFailed(_) =>
      if n + 1 == MaxSearchRetries then Resolution(n + 1, None) else Resolve(catalog, query, n + 1)
  }

  /** The ID one query contributes to the playlist, if any. */
  function Matched(catalog: Catalog, cleanOnly: bool, query: string): Option<TrackID>
  {
    match Resolve(catalog, query, 0).result
    case None => None
    case Some(result) => Select(result, cleanOnly)
  }

  function Matcher(catalog: Catalog, cleanOnly: bool): string -> Option<TrackID>
  {
    query => Matched(catalog, cleanOnly, query)
  }

  /** The IDs the whole search collects for `queries`. */
  function SearchAll(catalog: Catalog, cleanOnly: bool, queries: seq<string>): seq<TrackID>
  {
    Sequences.FilterMap(queries, Matcher(catalog, cleanOnly))
  }

  /**
   * The body of the closure handed to the retry helper: one search; an error is passed back
   * unchanged, while a reply never is an error and appends at most the selected ID.
   */
  method Attempt(catalog: Catalog, query: string, n: nat, cleanOnly: bool, songIDs: seq<TrackID>)
    returns (songIDs': seq<TrackID>, err: Option<string>)
    ensures catalog(query, n).SearchFailed? ==> err == Some(catalog(query, n).err) && songIDs' == songIDs
    ensures catalog(query, n).Replied? ==>
              err == None && songIDs' == songIDs + OptionToSeq(Select(catalog(query, n).result, cleanOnly))
  {
    var response := catalog(query, n);
    if response.SearchFailed? {
      return songIDs, Some(response.err);
    }
    var results := response.result;
    songIDs' := songIDs;
    if results.tracks.None? {
      return songIDs', None;
    }
    var tracks := results.tracks.value;
    if |tracks| > 0 {
      if cleanOnly && tracks[0].explicit {
        return songIDs', None;
      }
      songIDs' := songIDs' + [tracks[0].id];
    }
    return songIDs', None;
  }

  /**
   * The retry helper applied to `Attempt`: at least one and at most `MaxSearchRetries` attempts,
   * stopping at the first that returns no error; the last error is returned when all fail.
   */
  method RetrySearch(catalog: Catalog, query: string, cleanOnly: bool, songIDs: seq<TrackID>)
    returns (songIDs': seq<TrackID>, attempts: nat, err: Option<string>)
    ensures 1 <= attempts <= MaxSearchRetries
    ensures attempts == Resolve(catalog, query, 0).attempts
    ensures err.None? <==> Resolve(catalog, query, 0).result.Some?
    ensures songIDs' == songIDs + OptionToSeq(Matched(catalog, cleanOnly, query))
  {
    var n := 0;
    while true
      invariant n < MaxSearchRetries
      invariant Resolve(catalog, query, n) == Resolve(catalog, query, 0)
      decreases MaxSearchRetries - n
    {
      var ids, e := Attempt(catalog, query, n, cleanOnly, songIDs);
      if e.None? {
        return ids, n + 1, None;
      }
      if n + 1 == MaxSearchRetries {
        return songIDs, n + 1, e;
      }
      n := n + 1;
    }
  }

  /** The search loop over all queries; the retry helper's own error is discarded, as in the source. */
  method SearchForSpotifyTracks(catalog: Catalog, cleanOnly: bool, artistSongs: seq<string>)
    returns (songIDs: seq<TrackID>, err: Option<string>)
    ensures songIDs == SearchAll(catalog, cleanOnly, artistSongs)
    ensures err == None
  {
    songIDs := [];
    for i := 0 to |artistSongs|
      invariant songIDs == SearchAll(catalog, cleanOnly, artistSongs[..i])
    {
      var searchData := artistSongs[i];
      assert artistSongs[..i + 1] == artistSongs[..i] + [searchData];
      Sequences.FilterMapSnoc(artistSongs[..i], searchData, Matcher(catalog, cleanOnly));
      var attempts, retryErr;
      songIDs, attempts, retryErr := RetrySearch(catalog, searchData, cleanOnly, songIDs);
    }
    assert artistSongs[..|artistSongs|] == artistSongs;
    return songIDs, None;
  }

  /** The attempt series stops at the first reply: every earlier attempt failed, and at most five are made. */
  lemma {:induction false} ResolveStopsAtFirstReply(catalog: Catalog, query: string, n: nat)
    requires n < MaxSearchRetries
    ensures var r := Resolve(catalog, query, n);
      && n < r.attempts <= MaxSearchRetries
      && (forall j :: n <= j < r.attempts - 1 ==> catalog(query, j).SearchFailed?)
      && (r.result.Some? ==> catalog(query, r.attempts - 1) == Replied(r.result.value))
      && (r.result.None? ==> r.attempts == MaxSearchRetries && catalog(query, r.attempts - 1).SearchFailed?)
    decreases MaxSearchRetries - n
  {
    if catalog(query, n).SearchFailed? && n + 1 < MaxSearchRetries {
      ResolveStopsAtFirstReply(catalog, query, n + 1);
    }
  }

  /** Against a catalog that always fails, exactly `MaxSearchRetries` attempts are made and nothing is matched. */
  lemma AlwaysFailingSearchGivesUp(catalog: Catalog, cleanOnly: bool, query: string)
    requires forall n: nat :: n < MaxSearchRetries ==> catalog(query, n).SearchFailed?
    ensures Resolve(catalog, query, 0) == Resolution(MaxSearchRetries, None)
    ensures Matched(catalog, cleanOnly, query) == None
  {
    ResolveStopsAtFirstReply(catalog, query, 0);
  }

  /** With clean-only set, an explicit first track is rejected even when a later track is clean. */
  lemma ExplicitFirstTrackRejected(first: Track, later: seq<Track>)
    requires first.explicit
    ensures Select(SearchResult(Some([first] + later)), true) == None
  {
  }

  /**
   * The collected IDs are exactly those of the matched queries, in query order: the k-th ID is the
   * match of the k-th matched query, and a query contributes if and only if it has a match.
   */
  lemma MatchesInQueryOrder(catalog: Catalog, cleanOnly: bool, queries: seq<string>)
    ensures var used := Sequences.KeptIndices(queries, Matcher(catalog, cleanOnly));
      && |SearchAll(catalog, cleanOnly, queries)| == |used| <= |queries|
      && (forall k :: 0 <= k < |used| ==>
            used[k] < |queries| && Matched(catalog, cleanOnly, queries[used[k]]) == Some(SearchAll(catalog, cleanOnly, queries)[k]))
      && (forall k, l :: 0 <= k < l < |used| ==> used[k] < used[l])
      && (forall i :: 0 <= i < |queries| ==> (i in used <==> Matched(catalog, cleanOnly, queries[i]).Some?))
  {
    Sequences.FilterMapIndices(queries, Matcher(catalog, cleanOnly));
  }

  /** Every collected ID is the first track of the reply that ended some query's attempts. */
  lemma {:induction false} EveryIDIsAFirstTrack(catalog: Catalog, cleanOnly: bool, queries: seq<string>, k: nat)
    requires k < |SearchAll(catalog, cleanOnly, queries)|
    ensures exists i :: 0 <= i < |queries| &&
              var r := Resolve(catalog, queries[i], 0);
              && r.result.Some? && r.result.value.tracks.Some? && |r.result.value.tracks.value| > 0
              && r.result.value.tracks.value[0].id == SearchAll(catalog, cleanOnly, queries)[k]
              && (cleanOnly ==> !r.result.value.tracks.value[0].explicit)
  {
    MatchesInQueryOrder(catalog, cleanOnly, queries);
    var i := Sequences.KeptIndices(queries, Matcher(catalog, cleanOnly))[k];
    assert Matched(catalog, cleanOnly, queries[i]) == Some(SearchAll(catalog, cleanOnly, queries)[k]);
  }
}
