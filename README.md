# iplayer2spotify core, modelled in Dafny

iplayer2spotify turns the track listing of a BBC radio show page into a Spotify playlist.
This model covers the logic of `main.go` between the HTML page and the Spotify client:

- **Parsing the segments.** A page is given as its `segment__track` nodes in document order. Each
  node is the list of texts of its `span` elements. A node with exactly two spans gives one
  `"artist - song"` entry. Every other node is skipped. (`Segments`, over the generic
  filter-and-map of `Sequences`.)
- **Searching the tracks.** Each entry is searched in the catalog, with up to
  `maxSearchRetries` = 5 attempts. One reply contributes the first track's ID. It contributes
  nothing when the reply has no track page, when the track list is empty, or when clean-only is set
  and the first track is explicit. IDs stay in query order. The search as a whole always returns a
  nil error. (`Search`)
- **Creating the playlist, as written.** The code creates the playlist, then replaces its tracks
  with the whole ID list. With more than `maxSongsOnCreate` = 100 IDs it then repeats two steps:
  add the whole remaining suffix, then re-slice that suffix by `[100:]`. Go panics when fewer than
  100 IDs are left at a re-slice. The model makes that panic the outcome `SliceOutOfRange(100, n)`.
  (`Playlist`)
- **Validating the configuration.** Non-empty `--spotify-id` and `--spotify-secret` flags override
  the stored secrets. Then the client ID, the secret key, the show URL and the playlist template are
  checked in that order, and the first empty one is the error. (`Config`)
- **Checking the state on the OAuth callback.** (`Auth`)

The Spotify client is a `RecordingClient` class. It stores each call it receives in its `calls`
field and answers from a script. `CreatePlaylist` is the imperative routine. Its postcondition ties
the client's new state and the routine's outcome to the specification function `Populate`. The
lemmas then state what `Populate` does.

The catalog is a function from a query and an attempt number to a reply. The `retry` helper that
`main.go` calls is not part of this model. It is modelled by its usual contract: call the closure
until it returns nil, at most 5 times in all. I/O, the five-second pause between attempts and the
log lines are left out.

The model follows the code, including where the code evidently misses its intent. The comment at
`main.go:83` promises support for playlists of more than 100 tracks, the constant is named
`maxSongsOnCreate`, and the service accepts at most 100 track IDs per request. All three point to a
replace with the first 100 IDs followed by adds of chunks of at most 100. The code instead sends
the whole list to the replace call and each remaining suffix whole to an add call. That intended
behaviour is modelled separately as `PopulateInChunks` (see Findings).

## Model

| member | source | states |
|---|---|---|
| Segments.ParseSegments | main.go:32-46 | The segment loop returns exactly the entries of the nodes that have two spans, in document order. |
| Segments.Entry | main.go:43 | The `"%s - %s"` rendering is the artist, then `" - "`, then the song, with the lengths adding up. |
| Segments.EntriesInDocumentOrder | main.go:36-44 | A node is used if and only if it has exactly two spans. The k-th entry is the first span's text, `" - "` and the second span's text of the k-th used node, and used nodes appear in increasing position. |
| Segments.EntriesAppend | main.go:36-44 | Parsing two runs of nodes gives the concatenation of their two parses. |
| Segments.NoTwoSpanNodeNoEntries | main.go:38-40 | A page with no two-span node gives an empty list. |
| Search.Select | main.go:125-135 | The chosen ID is the first track's. There is none when the reply has no track page or no track. When clean-only is set, an explicit first track is never chosen, and in every other case an ID is chosen. |
| Search.Attempt | main.go:120-136 | One search whose error is returned unchanged with the IDs untouched. A reply gives a nil error and appends at most the selected ID. |
| Search.RetrySearch | main.go:119-137 | Makes between 1 and 5 attempts and stops at the first reply, with the attempt count fixed by the catalog. The error is nil exactly when some attempt got a reply, and the IDs are extended by that query's match only. |
| Search.SearchForSpotifyTracks | main.go:115-140 | Returns the matches of all queries in order, and the error is always nil. |
| Search.ResolveStopsAtFirstReply | main.go:119 | At most 5 attempts are made and every attempt before the last failed. The series ends on a reply, or on the fifth failure. |
| Search.AlwaysFailingSearchGivesUp | main.go:119-124 | A query whose every search fails is tried exactly 5 times and contributes nothing. |
| Search.ExplicitFirstTrackRejected | main.go:130-133 | With clean-only set, an explicit first track gives no match even when a later track is clean. |
| Search.MatchesInQueryOrder | main.go:117-139 | A query contributes if and only if it has a match. The k-th ID is the match of the k-th contributing query, and contributing queries appear in increasing position. |
| Search.EveryIDIsAFirstTrack | main.go:129-134 | Every collected ID is the first track of the reply that ended some query's attempts. Under clean-only, that track is not explicit. |
| Playlist.RecordingClient.CreatePlaylistForUser | main.go:76 | Records a private-playlist creation call and returns the scripted answer. |
| Playlist.RecordingClient.ReplacePlaylistTracks | main.go:80 | Records the replace call with its track list and returns the scripted answer. |
| Playlist.RecordingClient.AddTracksToPlaylist | main.go:87 | Records the add call with its track list and consumes the next scripted answer. |
| Playlist.CreatePlaylist | main.go:75-94 | The calls recorded by the client, the unused answers and the outcome are exactly those `Populate` gives for the client's script. |
| Playlist.AddRemaining | main.go:84-91 | The loop's recorded calls, the unused answers and the outcome are exactly those `AddLoop` gives. |
| Playlist.RoundsIsCeiling | main.go:86-91 | The number of started hundreds in n IDs is n/100 rounded up. |
| Playlist.AddLoopCalls | main.go:86-90 | The i-th add call receives the remaining IDs without their first 100·i, and there are more than 100·i of them. |
| Playlist.AddLoopAnswers | main.go:87-89 | Each add call consumes one answer, and every answer before the last one used succeeded. The loop fails exactly with the last answer used when that answer is an error. |
| Playlist.AddLoopEnd | main.go:86-91 | At most one call is made per started hundred. The loop ends normally only on a multiple of 100, and a re-slice out of range happens with the remainder left. |
| Playlist.AddLoopWithoutFailures | main.go:86-91 | With no failing answer, the loop makes exactly one call per started hundred. It ends normally on a multiple of 100 and otherwise panics on the remainder. |
| Playlist.CreateFailureStops | main.go:76-79 | A failed creation returns its error straight away, and neither replace nor add follows. |
| Playlist.ReplaceFailureStops | main.go:80-82 | A failed replace returns its error straight away, after the replace call that carried the whole list, and no add follows. |
| Playlist.AddCallAt | main.go:84-90 | Call j ≥ 2 is an add of the IDs from position 100·(j−1) on. |
| Playlist.CallsAfterCreation | main.go:76-90 | Once the playlist exists, the calls are the creation, one replace with the whole unchanged list, and then adds only. The k-th add gets the IDs from 100·k on. |
| Playlist.AtMostOneHundredIDs | main.go:80-84 | With at most 100 IDs the calls are the creation and one replace, and the run ends normally. |
| Playlist.StopsAtFirstAddError | main.go:86-89 | An add error ends the run with that error: the run fails exactly with the answer to the last add when that answer is an error, and every earlier add succeeded. |
| Playlist.DoneOnlyOnMultiplesOfOneHundred | main.go:84-93 | With more than 100 IDs, a normal end implies the count is a multiple of 100. |
| Playlist.AddRoundsWithoutFailures | main.go:84-91 | With more than 100 IDs and no failing add, there are ⌊(n−1)/100⌋ adds. The run then ends normally when n is a multiple of 100 and otherwise panics re-slicing the n mod 100 IDs left. |
| Playlist.TwoHundredFiftyIDs | main.go:80-90 | With 250 IDs the calls are a replace with all 250, an add of the last 150 and an add of the last 50, and then the slice panics. |
| Playlist.Chunks | main.go:83-91 | Every piece of the intended cut has between 1 and 100 IDs. |
| Playlist.ChunksFlatten | main.go:83-91 | Pasting the pieces together gives back the list that was cut. |
| Playlist.AddChunksDeliver | main.go:86-91 | With no failing answer, the intended loop adds each chunk once, in order, and ends normally. |
| Playlist.PopulateInChunksInRange | main.go:80-91 | The corrected population never slices out of range, and no replace or add call carries more than 100 IDs. |
| Playlist.PopulateInChunksDelivers | main.go:75-94 | With no failing call, the corrected population ends normally and hands every ID over exactly once, in order. |
| Playlist.TwoHundredFiftyIDsInChunks | main.go:80-90 | With 250 IDs the corrected population replaces with the first 100, adds the next 100 and then the last 50, and ends normally. |
| Config.FirstFailure | main.go:163-174 | The first check with an empty setting gives the error. There is none exactly when every setting is set. |
| Config.FlagsOverrideSecrets | main.go:157-162 | A non-empty credential flag replaces the stored secret, and an empty one leaves it unchanged. |
| Config.FirstFailingCheckDecides | main.go:163-174 | The error returned is the first failing check in the order client ID, secret key, show URL, template. When nothing fails, the options are returned as parsed. |
| Config.ValidIffAllSet | main.go:157-174 | The run passes this stage if and only if both credentials (from a flag or as stored), the show URL and the playlist template are all non-empty. |
| Auth.CompleteAuth | main.go:59-73 | The client is handed over if and only if the token exchange succeeds and the returned state equals the issued one. A failed exchange is reported first. |
| Auth.OneCharacterOffIsRejected | main.go:65-68 | A state that differs from the issued one in a single character is never accepted. |

## Left out

- HTML parsing (`soup.HTMLParse`, `FindAll`, `Text`) comes from a third-party library. The model starts from the list of span texts of each `segment__track` node.
- `fetchProgramSegments` is left out. Its HTTP request is I/O. The request it builds but never sends has no effect, except that the process ends through `log.Fatal` when the URL does not parse.
- `createPlaylistTitle` is left out. It depends on Go's `text/template` and on the wall clock.
- The OAuth listener, the HTTP server, the channel that hands over the client and the goroutine feeding it are all concurrency and I/O. Only the state comparison in `completeAuth` is modelled, and `log.Fatal` becomes an outcome value.
- Search.RetrySearch: the `retry` helper is not part of this model. It is replaced by the conventional contract described above, without the five-second pause and without logging. The results that rest on that assumed contract are: the attempt bound of `Search.RetrySearch` and `Search.ResolveStopsAtFirstReply`, the exactly five attempts of `Search.AlwaysFailingSearchGivesUp`, and the at most one ID per query that `Search.RetrySearch`, `Search.SearchForSpotifyTracks` and `Search.MatchesInQueryOrder` carry. A `retry` that kept calling after a reply could append a query's ID more than once.
- `stringWithCharset` uses randomness. The issued state is a parameter of `Auth.CompleteAuth`.
- The `main` CLI wiring, environment-variable loading and logging are left out.
- Playlist.CreatePlaylist: the Spotify API's own limit of 100 tracks per request is not enforced by the recording client. Every call the code makes is recorded whatever its size.
- Playlist.CreatePlaylist keeps the code's behaviour and does not use the corrected `PopulateInChunks`, so that it models what the program does.

## Findings

| source | as written | input that shows it | evidently intended | confidence | as-written member | corrected member |
|---|---|---|---|---|---|---|
| main.go:80-91 | The replace call sends the whole list. Each add sends the remaining suffix whole and then re-slices it with `songIDs[100:]`, which is out of range once fewer than 100 IDs are left. | 250 IDs and a client that never fails: replace with all 250, add the last 150, add the last 50, then the slice `[100:]` of 50 IDs panics. Any count above 100 that is not a multiple of 100 panics the same way. | Replace with the first 100 IDs and add the rest in chunks of at most 100, each ID once, ending normally. | not executed | Playlist.TwoHundredFiftyIDs | Playlist.PopulateInChunksDelivers |
