/**
 * Playlist population as the code does it: create the playlist, replace its tracks by the whole
 * ID list, then, for more than `MaxSongsOnCreate` IDs, add the remaining suffix and drop the
 * first `MaxSongsOnCreate` IDs from it, again and again, until nothing is left.
 *
 * The streaming-service client is a recording stub: it logs every call it receives and answers
 * from a script. A Go slice expression `s[100:]` on fewer than 100 elements stops the program
 * with a run-time panic; here that is the outcome `SliceOutOfRange`.
 */
module Playlist {
  import opened Wrappers

  const MaxSongsOnCreate: nat := 100

  type ID = string
  type Error = string

  /** A call the client received. */
  datatype Call =
    | Create(user: string, name: string, public: bool)
    | Replace(user: string, playlist: ID, tracks: seq<ID>)
    | Add(user: string, playlist: ID, tracks: seq<ID>)

  /** How one run of playlist population ends. */
  datatype Outcome = Done | Failed(err: Error) | SliceOutOfRange(low: nat, length: nat)

  /**
   * The client's script: the answer to playlist creation (the new playlist's ID or an error), the
   * answer to the replace call, and the answers still to be given to add calls, in order (an add
   * call beyond the end of the list succeeds).
   */
  datatype Replies = Replies(created: Result<ID, Error>, replaced: Option<Error>, added: seq<Option<Error>>)

  /** The calls one run issues, how it ends, and the add answers left unused afterwards. */
  datatype Trace = Trace(calls: seq<Call>, outcome: Outcome, unused: seq<Option<Error>>)

  /** The answer to the next add call. */
  function Next(added: seq<Option<Error>>): Option<Error>
  {
    if |added| > 0 then added[0] else None
  }

  /** The add answers left after `n` add calls. */
  function Drop(added: seq<Option<Error>>, n: nat): (r: seq<Option<Error>>)
    ensures n <= |added| ==> r == added[n..]
    ensures n >= |added| ==> r == []
  {
    if n <= |added| then added[n..] else []
  }

  /** The answer to the `i`-th add call (counting from 0) under the script `added`. */
  function AnswerAt(added: seq<Option<Error>>, i: nat): Option<Error>
  {
    if i < |added| then added[i] else None
  }

  /** The add loop from a remaining suffix `rest` on, as the code runs it. */
  function AddLoop(user: string, playlist: ID, rest: seq<ID>, added: seq<Option<Error>>): Trace
    decreases |rest|
  {
    if |rest| == 0 then Trace([], Done, added)
    else
      var call := Add(user, playlist, rest);
      var answer := Next(added);
      if answer.Some? then Trace([call], Failed(answer.value), Drop(added, 1))
      else if |rest| < MaxSongsOnCreate then Trace([call], SliceOutOfRange(MaxSongsOnCreate, |rest|), Drop(added, 1))
      else
        var t := AddLoop(user, playlist, rest[MaxSongsOnCreate..], Drop(added, 1));
        Trace([call] + t.calls, t.outcome, t.unused)
  }

  /** The whole population of a playlist named `title` for `user` with `songIDs`. */
  function Populate(user: string, title: string, songIDs: seq<ID>, replies: Replies): Trace
  {
    var create := Create(user, title, false);
    match replies.created
    case Err(e) => Trace([create], Failed(e), replies.added)
    case Ok(playlist) =>
      var replace := Replace(user, playlist, songIDs);
      if replies.replaced.Some? then Trace([create, replace], Failed(replies.replaced.value), replies.added)
      else if |songIDs| > MaxSongsOnCreate then
        var t := AddLoop(user, playlist, songIDs[MaxSongsOnCreate..], replies.added);
        Trace([create, replace] + t.calls, t.outcome, t.unused)
      else Trace([create, replace], Done, replies.added)
  }

  /** A stand-in for the streaming-service client that records what it is asked to do. */
  class RecordingClient {
    const created: Result<ID, Error>
    const replaced: Option<Error>
    var added: seq<Option<Error>>
    var calls: seq<Call>

    constructor (created: Result<ID, Error>, replaced: Option<Error>, added: seq<Option<Error>>)
      ensures this.created == created && this.replaced == replaced && this.added == added
      ensures calls == []
    {
      this.created := created;
      this.replaced := replaced;
      this.added := added;
      calls := [];
    }

    function Script(): Replies
      reads this
    {
      Replies(created, replaced, added)
    }

    method CreatePlaylistForUser(user: string, name: string, public: bool) returns (r: Result<ID, Error>)
      modifies this`calls
      ensures calls == old(calls) + [Create(user, name, public)]
      ensures r == created
    {
      calls := calls + [Create(user, name, public)];
      r := created;
    }

    method ReplacePlaylistTracks(user: string, playlist: ID, tracks: seq<ID>) returns (err: Option<Error>)
      modifies this`calls
      ensures calls == old(calls) + [Replace(user, playlist, tracks)]
      ensures err == replaced
    {
      calls := calls + [Replace(user, playlist, tracks)];
      err := replaced;
    }

    method AddTracksToPlaylist(user: string, playlist: ID, tracks: seq<ID>) returns (err: Option<Error>)
      modifies this`calls, this`added
      ensures calls == old(calls) + [Add(user, playlist, tracks)]
      ensures err == Next(old(added)) && added == Drop(old(added), 1)
    {
      calls := calls + [Add(user, playlist, tracks)];
      err := Next(added);
      added := Drop(added, 1);
    }
  }

  /** The population routine; every call it makes goes to `client`, exactly as `Populate` lists them. */
  method CreatePlaylist(username: string, client: RecordingClient, title: string, songIDs: seq<ID>)
    returns (outcome: Outcome)
    modifies client
    ensures var t := Populate(username, title, songIDs, old(client.Script()));
      && client.calls == old(client.calls) + t.calls
      && client.added == t.unused
      && outcome == t.outcome
  {
    var playlist := client.CreatePlaylistForUser(username, title, false);
    if playlist.Err? {
      return Failed(playlist.error);
    }
    var err := client.ReplacePlaylistTracks(username, playlist.value, songIDs);
    if err.Some? {
      return Failed(err.value);
    }
    // more than `MaxSongsOnCreate` IDs: run the add loop on what follows the first hundred
    if |songIDs| > MaxSongsOnCreate {
      outcome := AddRemaining(username, client, playlist.value, songIDs[MaxSongsOnCreate..]);
      return;
    }
    return Done;
  }

  /** The add loop of `CreatePlaylist`, run on the suffix `remaining` left after the first 100 IDs. */
  method AddRemaining(username: string, client: RecordingClient, playlist: ID, remaining: seq<ID>)
    returns (outcome: Outcome)
    modifies client`calls, client`added
    ensures var t := AddLoop(username, playlist, remaining, old(client.added));
      && client.calls == old(client.calls) + t.calls
      && client.added == t.unused
      && outcome == t.outcome
  {
    ghost var whole := AddLoop(username, playlist, remaining, client.added);
    ghost var head := client.calls;
    var ids := remaining;
    while |ids| > 0
      invariant client.calls + AddLoop(username, playlist, ids, client.added).calls == head + whole.calls
      invariant AddLoop(username, playlist, ids, client.added).outcome == whole.outcome
      invariant AddLoop(username, playlist, ids, client.added).unused == whole.unused
      decreases |ids|
    {
      ghost var before := client.calls;
      ghost var step := AddLoop(username, playlist, ids, client.added);
      var e := client.AddTracksToPlaylist(username, playlist, ids);
      if e.Some? {
        assert step.calls == [Add(username, playlist, ids)];
        return Failed(e.value);
      }
      if |ids| < MaxSongsOnCreate {
        assert step.calls == [Add(username, playlist, ids)];
        return SliceOutOfRange(MaxSongsOnCreate, |ids|);
      }
      ghost var call := Add(username, playlist, ids);
      ids := ids[MaxSongsOnCreate..];
      ghost var next := AddLoop(username, playlist, ids, client.added);
      assert step.calls == [call] + next.calls;
      assert client.calls + next.calls == before + step.calls;
    }
    return Done;
  }

  /** No add answer among the first `n` is an error. */
  ghost predicate NoFailureBefore(added: seq<Option<Error>>, n: nat)
  {
    forall i: nat :: i < n ==> AnswerAt(added, i).None?
  }

  /** The number of started hundreds in `n` IDs. */
  function Rounds(n: nat): nat
  {
    if n == 0 then 0 else if n <= MaxSongsOnCreate then 1 else 1 + Rounds(n - MaxSongsOnCreate)
  }

  lemma {:induction false} RoundsIsCeiling(n: nat)
    ensures Rounds(n) == (n + MaxSongsOnCreate - 1) / MaxSongsOnCreate
    decreases n
  {
    if n > MaxSongsOnCreate {
      RoundsIsCeiling(n - MaxSongsOnCreate);
    }
  }

  lemma HundredLess(n: nat)
    requires n >= MaxSongsOnCreate
    ensures (n - MaxSongsOnCreate + MaxSongsOnCreate - 1) / MaxSongsOnCreate == (n - 1) / MaxSongsOnCreate
    ensures (n - MaxSongsOnCreate) % MaxSongsOnCreate == n % MaxSongsOnCreate
  {
  }

  lemma AnswerAfterDrop(added: seq<Option<Error>>, i: nat)
    ensures AnswerAt(Drop(added, 1), i) == AnswerAt(added, i + 1)
  {
  }

  /** The i-th add call of the loop receives `rest` without its first i hundred IDs. */
  lemma {:induction false} AddLoopCalls(user: string, playlist: ID, rest: seq<ID>, added: seq<Option<Error>>)
    ensures var t := AddLoop(user, playlist, rest, added);
      forall i :: 0 <= i < |t.calls| ==>
        MaxSongsOnCreate * i < |rest| && t.calls[i] == Add(user, playlist, rest[MaxSongsOnCreate * i..])
    decreases |rest|
  {
    var t := AddLoop(user, playlist, rest, added);
    if |rest| > 0 && Next(added).None? && |rest| >= MaxSongsOnCreate {
      var rest' := rest[MaxSongsOnCreate..];
      AddLoopCalls(user, playlist, rest', Drop(added, 1));
      var t' := AddLoop(user, playlist, rest', Drop(added, 1));
      forall i | 0 <= i < |t.calls|
        ensures MaxSongsOnCreate * i < |rest| && t.calls[i] == Add(user, playlist, rest[MaxSongsOnCreate * i..])
      {
        if i > 0 {
          assert t.calls[i] == t'.calls[i - 1];
          assert rest'[MaxSongsOnCreate * (i - 1)..] == rest[MaxSongsOnCreate * i..];
        }
      }
    }
  }

  /**
   * The loop consumes one answer per add call and stops at the first failing answer: every answer
   * before the last one used succeeded, a failure is the last answer used, and a failing last answer
   * is the error the loop returns.
   */
  lemma {:induction false} AddLoopAnswers(user: string, playlist: ID, rest: seq<ID>, added: seq<Option<Error>>)
    ensures var t := AddLoop(user, playlist, rest, added);
      && t.unused == Drop(added, |t.calls|)
      && (forall i: nat :: i + 1 < |t.calls| ==> AnswerAt(added, i).None?)
      && (t.outcome.Failed? ==> |t.calls| > 0 && AnswerAt(added, |t.calls| - 1) == Some(t.outcome.err))
      && (|t.calls| > 0 && AnswerAt(added, |t.calls| - 1).Some? ==>
            t.outcome == Failed(AnswerAt(added, |t.calls| - 1).value))
    decreases |rest|
  {
    var t := AddLoop(user, playlist, rest, added);
    if |rest| > 0 && Next(added).None? && |rest| >= MaxSongsOnCreate {
      var added' := Drop(added, 1);
      AddLoopAnswers(user, playlist, rest[MaxSongsOnCreate..], added');
      var t' := AddLoop(user, playlist, rest[MaxSongsOnCreate..], added');
      assert |t.calls| == 1 + |t'.calls|;
      if |t'.calls| > 0 {
        AnswerAfterDrop(added, |t'.calls| - 1);
      }
      forall i: nat | i + 1 < |t.calls|
        ensures AnswerAt(added, i).None?
      {
        if i > 0 {
          AnswerAfterDrop(added, i - 1);
        }
      }
    }
  }

  /**
   * The loop ends normally only on a multiple of 100 IDs, re-slices out of range only with the
   * remainder left, and makes at most one call per started hundred.
   */
  lemma {:induction false} AddLoopEnd(user: string, playlist: ID, rest: seq<ID>, added: seq<Option<Error>>)
    ensures var t := AddLoop(user, playlist, rest, added);
      && |t.calls| <= Rounds(|rest|)
      && (t.outcome == Done ==> |rest| % MaxSongsOnCreate == 0)
      && (t.outcome.SliceOutOfRange? ==> t.outcome == SliceOutOfRange(MaxSongsOnCreate, |rest| % MaxSongsOnCreate))
    decreases |rest|
  {
    if |rest| > 0 && Next(added).None? && |rest| >= MaxSongsOnCreate {
      AddLoopEnd(user, playlist, rest[MaxSongsOnCreate..], Drop(added, 1));
    }
  }

  /** Without a failing answer, the loop makes one call per started hundred and then ends as the remainder decides. */
  lemma {:induction false} AddLoopWithoutFailures(user: string, playlist: ID, rest: seq<ID>, added: seq<Option<Error>>)
    requires NoFailureBefore(added, Rounds(|rest|))
    ensures var t := AddLoop(user, playlist, rest, added);
      && |t.calls| == Rounds(|rest|)
      && t.outcome == if |rest| % MaxSongsOnCreate == 0 then Done
                      else SliceOutOfRange(MaxSongsOnCreate, |rest| % MaxSongsOnCreate)
    decreases |rest|
  {
    if |rest| > 0 {
      assert AnswerAt(added, 0).None?;
      if |rest| > MaxSongsOnCreate {
        var rest', added' := rest[MaxSongsOnCreate..], Drop(added, 1);
        forall i: nat | i < Rounds(|rest'|)
          ensures AnswerAt(added', i).None?
        {
          AnswerAfterDrop(added, i);
        }
        AddLoopWithoutFailures(user, playlist, rest', added');
      }
    }
  }

  /** A failed creation is returned at once: no replace and no add call follows it. */
  lemma CreateFailureStops(user: string, title: string, songIDs: seq<ID>, replies: Replies)
    requires replies.created.Err?
    ensures Populate(user, title, songIDs, replies)
              == Trace([Create(user, title, false)], Failed(replies.created.error), replies.added)
  {
  }

  /** A failed replace is returned at once: no add call follows it. */
  lemma ReplaceFailureStops(user: string, title: string, songIDs: seq<ID>, replies: Replies)
    requires replies.created.Ok? && replies.replaced.Some?
    ensures Populate(user, title, songIDs, replies)
              == Trace([Create(user, title, false), Replace(user, replies.created.value, songIDs)],
                       Failed(replies.replaced.value), replies.added)
  {
  }

  /** The call at position j >= 2 of a population is the (j-1)-th add, which gets the IDs from 100(j-1) on. */
  lemma AddCallAt(user: string, title: string, songIDs: seq<ID>, replies: Replies, j: int)
    requires replies.created.Ok?
    requires 2 <= j < |Populate(user, title, songIDs, replies).calls|
    ensures MaxSongsOnCreate * (j - 1) < |songIDs|
    ensures Populate(user, title, songIDs, replies).calls[j]
              == Add(user, replies.created.value, songIDs[MaxSongsOnCreate * (j - 1)..])
  {
    var t := Populate(user, title, songIDs, replies);
    var playlist := replies.created.value;
    var rest := songIDs[MaxSongsOnCreate..];
    AddLoopCalls(user, playlist, rest, replies.added);
    var u := AddLoop(user, playlist, rest, replies.added);
    assert t.calls == [Create(user, title, false), Replace(user, playlist, songIDs)] + u.calls;
    assert t.calls[j] == u.calls[j - 2];
    assert rest[MaxSongsOnCreate * (j - 2)..] == songIDs[MaxSongsOnCreate * (j - 1)..];
  }

  /**
   * Once the playlist exists, the calls are: the creation, then one replace with the whole ID
   * list unchanged, then add calls only, the k-th of which receives the IDs from position 100k on.
   */
  lemma CallsAfterCreation(user: string, title: string, songIDs: seq<ID>, replies: Replies)
    requires replies.created.Ok?
    ensures var t := Populate(user, title, songIDs, replies);
      && |t.calls| >= 2
      && t.calls[0] == Create(user, title, false)
      && t.calls[1] == Replace(user, replies.created.value, songIDs)
      && (|t.calls| > 2 ==> MaxSongsOnCreate * (|t.calls| - 2) < |songIDs|)
      && (forall j :: 2 <= j < |t.calls| ==>
            t.calls[j] == Add(user, replies.created.value, songIDs[MaxSongsOnCreate * (j - 1)..]))
  {
    var t := Populate(user, title, songIDs, replies);
    if |t.calls| > 2 {
      AddCallAt(user, title, songIDs, replies, |t.calls| - 1);
    }
    forall j | 2 <= j < |t.calls|
      ensures t.calls[j] == Add(user, replies.created.value, songIDs[MaxSongsOnCreate * (j - 1)..])
    {
      AddCallAt(user, title, songIDs, replies, j);
    }
  }

  /** With at most 100 IDs there is exactly one replace call and no add call. */
  lemma AtMostOneHundredIDs(user: string, title: string, songIDs: seq<ID>, replies: Replies)
    requires replies.created.Ok? && replies.replaced.None? && |songIDs| <= MaxSongsOnCreate
    ensures Populate(user, title, songIDs, replies)
              == Trace([Create(user, title, false), Replace(user, replies.created.value, songIDs)], Done, replies.added)
  {
  }

  /**
   * An add error ends the run with that error: the run fails exactly with the answer to the last
   * add call made when that answer is an error, and every earlier add call succeeded.
   */
  lemma {:induction false} StopsAtFirstAddError(user: string, title: string, songIDs: seq<ID>, replies: Replies)
    requires replies.created.Ok? && replies.replaced.None?
    ensures var t := Populate(user, title, songIDs, replies);
      && (forall i: nat :: i + 3 < |t.calls| ==> AnswerAt(replies.added, i).None?)
      && (t.outcome.Failed? ==> |t.calls| > 2 && AnswerAt(replies.added, |t.calls| - 3) == Some(t.outcome.err))
      && (|t.calls| > 2 && AnswerAt(replies.added, |t.calls| - 3).Some? ==>
            t.outcome == Failed(AnswerAt(replies.added, |t.calls| - 3).value))
  {
    if |songIDs| > MaxSongsOnCreate {
      AddLoopAnswers(user, replies.created.value, songIDs[MaxSongsOnCreate..], replies.added);
    }
  }

  /** With more than 100 IDs the run can end normally only when their number is a multiple of 100. */
  lemma {:induction false} DoneOnlyOnMultiplesOfOneHundred(user: string, title: string, songIDs: seq<ID>, replies: Replies)
    requires |songIDs| > MaxSongsOnCreate
    requires Populate(user, title, songIDs, replies).outcome == Done
    ensures |songIDs| % MaxSongsOnCreate == 0
  {
    AddLoopEnd(user, replies.created.value, songIDs[MaxSongsOnCreate..], replies.added);
  }

  /**
   * With more than 100 IDs and no failing add, the loop makes one add call per started hundred
   * after the first, and then either finishes (a multiple of 100) or re-slices out of range with the
   * remainder left.
   */
  lemma {:induction false} AddRoundsWithoutFailures(user: string, title: string, songIDs: seq<ID>, replies: Replies)
    requires replies.created.Ok? && replies.replaced.None? && |songIDs| > MaxSongsOnCreate
    requires NoFailureBefore(replies.added, (|songIDs| - 1) / MaxSongsOnCreate)
    ensures var t := Populate(user, title, songIDs, replies);
      && |t.calls| == 2 + (|songIDs| - 1) / MaxSongsOnCreate
      && t.outcome == if |songIDs| % MaxSongsOnCreate == 0 then Done
                      else SliceOutOfRange(MaxSongsOnCreate, |songIDs| % MaxSongsOnCreate)
  {
    var rest := songIDs[MaxSongsOnCreate..];
    RoundsIsCeiling(|rest|);
    HundredLess(|songIDs|);
    AddLoopWithoutFailures(user, replies.created.value, rest, replies.added);
  }

  /**
   * 250 IDs and a client that never fails: one replace with all 250 IDs, adds of the last 150 and
   * the last 50, and then the re-slice of the 50 left runs out of range.
   */
  lemma TwoHundredFiftyIDs(user: string, title: string, playlist: ID, songIDs: seq<ID>)
    requires |songIDs| == 250
    ensures Populate(user, title, songIDs, Replies(Ok(playlist), None, []))
              == Trace([Create(user, title, false), Replace(user, playlist, songIDs),
                        Add(user, playlist, songIDs[100..]), Add(user, playlist, songIDs[200..])],
                       SliceOutOfRange(100, 50), [])
  {
    var rest := songIDs[100..];
    assert rest[100..] == songIDs[200..];
    assert AddLoop(user, playlist, rest[100..], []) ==
           Trace([Add(user, playlist, songIDs[200..])], SliceOutOfRange(100, 50), []);
  }

  /** The IDs handed over in the replace and add calls of a trace, in call order. */
  function SentTracks(calls: seq<Call>): seq<ID>
  {
    if calls == [] then []
    else (if calls[0].Create? then [] else calls[0].tracks) + SentTracks(calls[1..])
  }

  /** `s` cut into consecutive pieces of `MaxSongsOnCreate` IDs, the last one possibly shorter. */
  function Chunks(s: seq<ID>): (r: seq<seq<ID>>)
    ensures forall c :: c in r ==> 0 < |c| <= MaxSongsOnCreate
    decreases |s|
  {
    if s == [] then []
    else if |s| <= MaxSongsOnCreate then [s]
    else [s[..MaxSongsOnCreate]] + Chunks(s[MaxSongsOnCreate..])
  }

  /** The add calls of the intended population: one per chunk, stopping at the first error. */
  function AddChunks(user: string, playlist: ID, chunks: seq<seq<ID>>, added: seq<Option<Error>>): Trace
  {
    if chunks == [] then Trace([], Done, added)
    else
      var call := Add(user, playlist, chunks[0]);
      var answer := Next(added);
      if answer.Some? then Trace([call], Failed(answer.value), Drop(added, 1))
      else
        var t := AddChunks(user, playlist, chunks[1..], Drop(added, 1));
        Trace([call] + t.calls, t.outcome, t.unused)
  }

  /**
   * The evidently intended population: the replace call gets the first 100 IDs and each add call
   * the next chunk of at most 100.
   */
  function PopulateInChunks(user: string, title: string, songIDs: seq<ID>, replies: Replies): Trace
  {
    var create := Create(user, title, false);
    match replies.created
    case Err(e) => Trace([create], Failed(e), replies.added)
    case Ok(playlist) =>
      var first := if |songIDs| <= MaxSongsOnCreate then songIDs else songIDs[..MaxSongsOnCreate];
      var replace := Replace(user, playlist, first);
      if replies.replaced.Some? then Trace([create, replace], Failed(replies.replaced.value), replies.added)
      else if |songIDs| > MaxSongsOnCreate then
        var t := AddChunks(user, playlist, Chunks(songIDs[MaxSongsOnCreate..]), replies.added);
        Trace([create, replace] + t.calls, t.outcome, t.unused)
      else Trace([create, replace], Done, replies.added)
  }

  lemma {:induction false} SentTracksAppend(a: seq<Call>, b: seq<Call>)
    ensures SentTracks(a + b) == SentTracks(a) + SentTracks(b)
    decreases |a|
  {
    if a == [] {
      assert a + b == b;
    } else {
      assert (a + b)[0] == a[0];
      assert (a + b)[1..] == a[1..] + b;
      SentTracksAppend(a[1..], b);
    }
  }

  function Flatten(chunks: seq<seq<ID>>): seq<ID>
  {
    if chunks == [] then [] else chunks[0] + Flatten(chunks[1..])
  }

  /** Pasting the chunks back together gives the list that was cut. */
  lemma {:induction false} ChunksFlatten(s: seq<ID>)
    ensures Flatten(Chunks(s)) == s
    decreases |s|
  {
    if |s| > MaxSongsOnCreate {
      ChunksFlatten(s[MaxSongsOnCreate..]);
      assert s == s[..MaxSongsOnCreate] + s[MaxSongsOnCreate..];
    }
  }

  /** Without a failing answer, every chunk is added once, in order, and the run ends normally. */
  lemma {:induction false} AddChunksDeliver(user: string, playlist: ID, chunks: seq<seq<ID>>, added: seq<Option<Error>>)
    requires NoFailureBefore(added, |chunks|)
    ensures var t := AddChunks(user, playlist, chunks, added);
      t.outcome == Done && SentTracks(t.calls) == Flatten(chunks) &&
      |t.calls| == |chunks| && forall j :: 0 <= j < |t.calls| ==> t.calls[j] == Add(user, playlist, chunks[j])
    decreases |chunks|
  {
    if chunks != [] {
      var added' := Drop(added, 1);
      assert AnswerAt(added, 0).None?;
      assert NoFailureBefore(added', |chunks| - 1) by {
        forall i: nat | i < |chunks| - 1
          ensures AnswerAt(added', i).None?
        {
          assert AnswerAt(added', i) == AnswerAt(added, i + 1);
        }
      }
      AddChunksDeliver(user, playlist, chunks[1..], added');
      var t' := AddChunks(user, playlist, chunks[1..], added');
      SentTracksAppend([Add(user, playlist, chunks[0])], t'.calls);
      assert SentTracks([Add(user, playlist, chunks[0])]) == chunks[0];
    }
  }

  /** The intended add loop ends normally or with an add error, never with an out-of-range slice. */
  lemma {:induction false} AddChunksInRange(user: string, playlist: ID, chunks: seq<seq<ID>>, added: seq<Option<Error>>)
    ensures !AddChunks(user, playlist, chunks, added).outcome.SliceOutOfRange?
    decreases |chunks|
  {
    if chunks != [] {
      AddChunksInRange(user, playlist, chunks[1..], Drop(added, 1));
    }
  }

  /** The corrected population never re-slices out of range and sends no call more than 100 IDs. */
  lemma PopulateInChunksInRange(user: string, title: string, songIDs: seq<ID>, replies: Replies)
    ensures var t := PopulateInChunks(user, title, songIDs, replies);
      && !t.outcome.SliceOutOfRange?
      && (forall j :: 1 <= j < |t.calls| ==> !t.calls[j].Create? && |t.calls[j].tracks| <= MaxSongsOnCreate)
  {
    var t := PopulateInChunks(user, title, songIDs, replies);
    if replies.created.Ok? && replies.replaced.None? && |songIDs| > MaxSongsOnCreate {
      var playlist := replies.created.value;
      var chunks := Chunks(songIDs[MaxSongsOnCreate..]);
      var u := AddChunks(user, playlist, chunks, replies.added);
      assert t.calls == [Create(user, title, false), Replace(user, playlist, songIDs[..MaxSongsOnCreate])] + u.calls;
      AddChunksInRange(user, playlist, chunks, replies.added);
      AddChunksBounded(user, playlist, chunks, replies.added);
      forall j | 2 <= j < |t.calls|
        ensures !t.calls[j].Create? && |t.calls[j].tracks| <= MaxSongsOnCreate
      {
        assert t.calls[j] == u.calls[j - 2];
        assert u.calls[j - 2] in u.calls;
      }
    }
  }

  /** The creation sends no ID; the replace call sends its IDs. */
  lemma SentTracksOfHead(user: string, title: string, playlist: ID, first: seq<ID>)
    ensures SentTracks([Create(user, title, false), Replace(user, playlist, first)]) == first
  {
    var head := [Create(user, title, false), Replace(user, playlist, first)];
    assert head[1..][1..] == [];
    assert SentTracks(head[1..]) == first + [];
  }

  /** When no call of the corrected population fails, it hands over every ID exactly once, in order. */
  lemma PopulateInChunksDelivers(user: string, title: string, songIDs: seq<ID>, replies: Replies)
    requires replies.created.Ok? && replies.replaced.None?
    requires NoFailureBefore(replies.added, |Chunks(if |songIDs| <= MaxSongsOnCreate then [] else songIDs[MaxSongsOnCreate..])|)
    ensures PopulateInChunks(user, title, songIDs, replies).outcome == Done
    ensures SentTracks(PopulateInChunks(user, title, songIDs, replies).calls) == songIDs
  {
    var playlist := replies.created.value;
    if |songIDs| > MaxSongsOnCreate {
      var first, rest := songIDs[..MaxSongsOnCreate], songIDs[MaxSongsOnCreate..];
      var u := AddChunks(user, playlist, Chunks(rest), replies.added);
      var head := [Create(user, title, false), Replace(user, playlist, first)];
      assert PopulateInChunks(user, title, songIDs, replies).calls == head + u.calls;
      AddChunksDeliver(user, playlist, Chunks(rest), replies.added);
      SentTracksAppend(head, u.calls);
      SentTracksOfHead(user, title, playlist, first);
      ChunksFlatten(rest);
      assert songIDs == first + rest;
    } else {
      SentTracksOfHead(user, title, playlist, songIDs);
    }
  }

  /** Every add call of the intended loop carries one chunk, hence at most 100 IDs. */
  lemma {:induction false} AddChunksBounded(user: string, playlist: ID, chunks: seq<seq<ID>>, added: seq<Option<Error>>)
    requires forall c :: c in chunks ==> |c| <= MaxSongsOnCreate
    ensures forall call :: call in AddChunks(user, playlist, chunks, added).calls ==>
              call.Add? && |call.tracks| <= MaxSongsOnCreate
    decreases |chunks|
  {
    if chunks != [] {
      assert chunks[0] in chunks;
      AddChunksBounded(user, playlist, chunks[1..], Drop(added, 1));
    }
  }

  /**
   * The corrected population of 250 IDs against a client that never fails: one replace with the
   * first 100 IDs, adds of the next 100 and of the last 50, and a normal end.
   */
  lemma TwoHundredFiftyIDsInChunks(user: string, title: string, playlist: ID, songIDs: seq<ID>)
    requires |songIDs| == 250
    ensures PopulateInChunks(user, title, songIDs, Replies(Ok(playlist), None, []))
              == Trace([Create(user, title, false), Replace(user, playlist, songIDs[..100]),
                        Add(user, playlist, songIDs[100..200]), Add(user, playlist, songIDs[200..])],
                       Done, [])
  {
    var rest := songIDs[100..];
    assert rest[..100] == songIDs[100..200];
    assert rest[100..] == songIDs[200..];
    assert Chunks(rest[100..]) == [songIDs[200..]];
    assert Chunks(rest) == [songIDs[100..200], songIDs[200..]];
    var chunks := Chunks(rest);
    assert chunks[1..][1..] == [];
    assert AddChunks(user, playlist, chunks[1..], []) == Trace([Add(user, playlist, songIDs[200..])], Done, []);
  }
}
