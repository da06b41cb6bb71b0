/**
 * The server script's poll cycle: one run of the radio-to-playlist mirror
 * (`addSong` and the `previousTerm` it keeps between cycles). The metadata
 * fetch, the search requests and the add-to-playlist request are inputs; the
 * timer is the `rearm` answer. The script's random state string is in module
 * RandomString.
 */
module Run {
  import opened Wrappers
  import opened Search
  import SpotifyApi

  // ---------------------------------------------------------------------
  // One poll cycle (addSong)
  // ---------------------------------------------------------------------

  /** The fields of `channelMetadataResponse.metaData.currentEvent` that are read. */
  datatype Event = Event(artistsName: string, songAlbumName: string, songName: string)

  /** A request the cycle sends to the playlist service. */
  datatype Call = SearchRequest(query: string) | AddRequest(track: Track)

  /**
   * How a cycle ends:
   * SameSong – the song name did not change (rejection "Song is the same.");
   * Added – a track was added; NotFound – neither tier had a first item;
   * AddFailed – the add request was rejected; FetchFailed – the metadata
   * request was rejected or the payload had no current event;
   * SearchFailed – the album search was rejected;
   * FallbackFailed – the artist-and-song search was rejected.
   */
  datatype Outcome =
    | SameSong
    | Added(track: Track)
    | NotFound
    | AddFailed
    | FetchFailed
    | SearchFailed
    | FallbackFailed

  /** The term remembered afterwards, the outcome, the requests sent, and the timer delay if re-armed. */
  datatype CycleResult = CycleResult(next: Option<SearchTerm>, outcome: Outcome, calls: seq<Call>, rearm: Option<nat>)

  /** `getCurrentSiriusSongAndAddToSpotify(120 * 1000)`. */
  const RearmDelayMs: nat := 120 * 1000

  function TermOf(e: Event): SearchTerm
  {
    SearchTerm(e.artistsName, e.songAlbumName, e.songName)
  }

  /**
   * `searchTerm.song !== previousTerm.song`; the initial `previousTerm` is
   * `{}`, whose `song` is undefined and differs from every name.
   */
  predicate SongChanged(previous: Option<SearchTerm>, term: SearchTerm)
  {
    previous.None? || previous.value.song != term.song
  }

  /** The tracks handed to add requests, in order. */
  function AddedTracks(calls: seq<Call>): seq<Track>
  {
    if calls == [] then []
    else (if calls[0].AddRequest? then [calls[0].track] else []) + AddedTracks(calls[1..])
  }

  /** The queries of the search requests, in order. */
  function Queries(calls: seq<Call>): seq<string>
  {
    if calls == [] then []
    else (if calls[0].SearchRequest? then [calls[0].query] else []) + Queries(calls[1..])
  }

  /** The add stage: one add request; only a rejected one stops the timer. */
  function AddStage(next: Option<SearchTerm>, searches: seq<Call>, t: Track, add: Track -> bool): CycleResult
  {
    if add(t) then CycleResult(next, Added(t), searches + [AddRequest(t)], Some(RearmDelayMs))
    else CycleResult(next, AddFailed, searches + [AddRequest(t)], None)
  }

  /**
   * One cycle as the promise chain settles it. A missing event makes the
   * second stage dereference an undefined body, which settles in the last
   * rejection handler: no re-arm. A same-song rejection and a rejected album
   * search are caught by the second stage's handler and re-arm. A rejected
   * fallback search or add request reaches the last handler: no re-arm.
   */
  function PollCycle(previous: Option<SearchTerm>, current: Option<Event>,
                     search: string -> SearchReply, add: Track -> bool): (c: CycleResult)
    ensures c.next == previous || (current.Some? && c.next == Some(TermOf(current.value)))
    ensures c.calls == [] <==> c.outcome.SameSong? || c.outcome.FetchFailed?
    ensures c.rearm.Some? ==> c.rearm.value == RearmDelayMs
  {
    match current
    case None => CycleResult(previous, FetchFailed, [], None)
    case Some(e) =>
      var term := TermOf(e);
      if !SongChanged(previous, term) then CycleResult(previous, SameSong, [], Some(RearmDelayMs))
      else
        var q1 := AlbumQuery(term);
        match search(q1)
        case Rejected => CycleResult(Some(term), SearchFailed, [SearchRequest(q1)], Some(RearmDelayMs))
        case Answered(items) =>
          match FirstHit(items)
          case Some(t) => AddStage(Some(term), [SearchRequest(q1)], t, add)
          case None =>
            var q2 := ArtistSongQuery(term);
            match search(q2)
            case Rejected => CycleResult(Some(term), FallbackFailed, [SearchRequest(q1), SearchRequest(q2)], None)
            case Answered(items2) =>
              match FirstHit(items2)
              case Some(t) => AddStage(Some(term), [SearchRequest(q1), SearchRequest(q2)], t, add)
              case None => CycleResult(Some(term), NotFound, [SearchRequest(q1), SearchRequest(q2)], Some(RearmDelayMs))
  }

  /** The module-level state of the script that the poll loop updates. */
  class PollLoop {
    var previousTerm: Option<SearchTerm>

    /** `let previousTerm = {}`. */
    constructor ()
      ensures previousTerm == None
    {
      previousTerm := None;
    }

    /** One run of `addSong`, with every network answer supplied. */
    method AddSong(current: Option<Event>, search: string -> SearchReply, add: Track -> bool)
      returns (outcome: Outcome, calls: seq<Call>, rearm: Option<nat>)
      modifies this
      ensures var c := PollCycle(old(previousTerm), current, search, add);
        previousTerm == c.next && outcome == c.outcome && calls == c.calls && rearm == c.rearm
    {
      calls := [];
      if current.None? {
        return FetchFailed, calls, None;
      }
      var searchTerm := TermOf(current.value);
      if !SongChanged(previousTerm, searchTerm) {
        return SameSong, calls, Some(RearmDelayMs);
      }
      previousTerm := Some(searchTerm);
      var query := AlbumQuery(searchTerm);
      calls := calls + [SearchRequest(query)];
      var reply := search(query);
      if reply.Rejected? {
        return SearchFailed, calls, Some(RearmDelayMs);
      }
      var firstResult := FirstHit(reply.items);
      if firstResult.None? {
        // the fallback reads the term back from the module-level variable
        query := ArtistSongQuery(previousTerm.value);
        calls := calls + [SearchRequest(query)];
        reply := search(query);
        if reply.Rejected? {
          return FallbackFailed, calls, None;
        }
        firstResult := FirstHit(reply.items);
        if firstResult.None? {
          return NotFound, calls, Some(RearmDelayMs);
        }
      }
      var track := firstResult.value;
      calls := calls + [AddRequest(track)];
      if add(track) {
        outcome, rearm := Added(track), Some(RearmDelayMs);
      } else {
        outcome, rearm := AddFailed, None;
      }
    }
  }

  /** A cycle whose song name did not change sends nothing, keeps the term, and re-arms. */
  lemma SameSongSuppressed(previous: Option<SearchTerm>, e: Event, search: string -> SearchReply, add: Track -> bool)
    ensures var c := PollCycle(previous, Some(e), search, add);
      (c.outcome == SameSong <==> !SongChanged(previous, TermOf(e)))
      && (c.outcome == SameSong ==> c.calls == [] && c.next == previous && c.rearm == Some(120000))
  {
  }

  /**
   * A changed song is remembered as exactly its new term, and the first
   * request is the album search for it.
   */
  lemma ChangedSongRecorded(previous: Option<SearchTerm>, e: Event, search: string -> SearchReply, add: Track -> bool)
    requires SongChanged(previous, TermOf(e))
    ensures var c := PollCycle(previous, Some(e), search, add);
      && c.next == Some(SearchTerm(e.artistsName, e.songAlbumName, e.songName))
      && |c.calls| >= 1
      && c.calls[0] == SearchRequest(e.artistsName + " " + e.songAlbumName + " " + e.songName)
  {
  }

  /** A first hit of the album search is added and no fallback search is sent. */
  lemma FirstTierAdded(previous: Option<SearchTerm>, e: Event, search: string -> SearchReply, add: Track -> bool, t: Track)
    requires SongChanged(previous, TermOf(e))
    requires search(AlbumQuery(TermOf(e))).Answered?
    requires FirstHit(search(AlbumQuery(TermOf(e))).items) == Some(t)
    ensures var c := PollCycle(previous, Some(e), search, add);
      && c.calls == [SearchRequest(AlbumQuery(TermOf(e))), AddRequest(t)]
      && c.outcome == (if add(t) then Added(t) else AddFailed)
  {
  }

  /**
   * Without a first hit for the album search, the cycle searches artist and
   * song; a first hit there is added, otherwise nothing is.
   */
  lemma FallbackTierUsed(previous: Option<SearchTerm>, e: Event, search: string -> SearchReply, add: Track -> bool)
    requires SongChanged(previous, TermOf(e))
    requires search(AlbumQuery(TermOf(e))).Answered?
    requires FirstHit(search(AlbumQuery(TermOf(e))).items).None?
    ensures var c := PollCycle(previous, Some(e), search, add);
      var q2 := e.artistsName + " " + e.songName;
      var a2 := search(q2);
      && |c.calls| >= 2 && c.calls[..2] == [SearchRequest(AlbumQuery(TermOf(e))), SearchRequest(q2)]
      && (a2.Answered? && FirstHit(a2.items).Some? ==>
            var h := FirstHit(a2.items).value;
            c.calls[2..] == [AddRequest(h)] && c.outcome == (if add(h) then Added(h) else AddFailed))
      && (a2.Answered? && FirstHit(a2.items).None? ==> c.outcome == NotFound && c.calls[2..] == [])
  {
  }

  /** Calls of a cycle: zero, one or two searches, then at most one add. */
  lemma AtMostOneAdd(previous: Option<SearchTerm>, current: Option<Event>, search: string -> SearchReply, add: Track -> bool)
    ensures var c := PollCycle(previous, current, search, add);
      && |AddedTracks(c.calls)| <= 1
      && |Queries(c.calls)| <= 2
      && (c.outcome.Added? ==> AddedTracks(c.calls) == [c.outcome.track])
      && (c.outcome.NotFound? || c.outcome.SameSong? || c.outcome.FetchFailed? ==> AddedTracks(c.calls) == [])
  {
    if current.Some? {
      CycleTraces(TermOf(current.value), search);
    }
  }

  /** The four traces a cycle for a changed song can leave, read back as queries and added tracks. */
  lemma CycleTraces(term: SearchTerm, search: string -> SearchReply)
    ensures var q1, q2 := AlbumQuery(term), ArtistSongQuery(term);
      var a1, a2 := search(q1), search(q2);
      var t := if a1.Answered? && FirstHit(a1.items).Some? then FirstHit(a1.items).value
               else if a2.Answered? && FirstHit(a2.items).Some? then FirstHit(a2.items).value
               else Track("");
      && AddedTracks([SearchRequest(q1)]) == [] && Queries([SearchRequest(q1)]) == [q1]
      && AddedTracks([SearchRequest(q1), SearchRequest(q2)]) == [] && Queries([SearchRequest(q1), SearchRequest(q2)]) == [q1, q2]
      && AddedTracks([SearchRequest(q1), AddRequest(t)]) == [t] && Queries([SearchRequest(q1), AddRequest(t)]) == [q1]
      && AddedTracks([SearchRequest(q1), SearchRequest(q2), AddRequest(t)]) == [t] && Queries([SearchRequest(q1), SearchRequest(q2), AddRequest(t)]) == [q1, q2]
  {
    var q1, q2 := AlbumQuery(term), ArtistSongQuery(term);
    var a1, a2 := search(q1), search(q2);
    var t := if a1.Answered? && FirstHit(a1.items).Some? then FirstHit(a1.items).value
             else if a2.Answered? && FirstHit(a2.items).Some? then FirstHit(a2.items).value
             else Track("");
    assert [SearchRequest(q1)][1..] == [];
    assert [SearchRequest(q1), SearchRequest(q2)][1..] == [SearchRequest(q2)];
    assert [SearchRequest(q1), AddRequest(t)][1..] == [AddRequest(t)];
    assert [AddRequest(t)][1..] == [];
    assert [SearchRequest(q1), SearchRequest(q2), AddRequest(t)][1..] == [SearchRequest(q2), AddRequest(t)];
    assert [SearchRequest(q2), AddRequest(t)][1..] == [AddRequest(t)];
  }

  /**
   * The timer is re-armed, always with 120000 ms, exactly when the cycle did
   * not end in a rejected fetch, a rejected fallback search or a rejected add.
   */
  lemma RearmRule(previous: Option<SearchTerm>, current: Option<Event>, search: string -> SearchReply, add: Track -> bool)
    ensures var c := PollCycle(previous, current, search, add);
      && (c.rearm.None? <==> c.outcome.FetchFailed? || c.outcome.FallbackFailed? || c.outcome.AddFailed?)
      && (c.rearm.Some? ==> c.rearm.value == 120000)
  {
  }

  /** A rejected fetch or an event-less payload sends nothing, keeps the term and stops the loop. */
  lemma FetchFailureStops(previous: Option<SearchTerm>, search: string -> SearchReply, add: Track -> bool)
    ensures PollCycle(previous, None, search, add) == CycleResult(previous, FetchFailed, [], None)
  {
  }

  /**
   * A song is looked up once: whatever the first cycle with it brings, a
   * following cycle with the same song name sends nothing, so the two cycles
   * together add at most one track.
   */
  lemma NotRetried(previous: Option<SearchTerm>, e1: Event, e2: Event,
                   s1: string -> SearchReply, a1: Track -> bool,
                   s2: string -> SearchReply, a2: Track -> bool)
    requires e2.songName == e1.songName
    ensures var c1 := PollCycle(previous, Some(e1), s1, a1);
      var c2 := PollCycle(c1.next, Some(e2), s2, a2);
      && c2.outcome == SameSong && c2.calls == [] && c2.next == c1.next
      && |AddedTracks(c1.calls + c2.calls)| <= 1
  {
    var c1 := PollCycle(previous, Some(e1), s1, a1);
    AtMostOneAdd(previous, Some(e1), s1, a1);
    assert c1.calls + [] == c1.calls;
  }

  /**
   * When neither search request is rejected, a cycle for a changed song adds
   * exactly the track the client class's two-tier lookup resolves to, after
   * the same queries, and ends NotFound exactly when that lookup rejects.
   */
  lemma CycleMatchesLookup(previous: Option<SearchTerm>, e: Event, search: string -> SearchReply, add: Track -> bool)
    requires SongChanged(previous, TermOf(e))
    requires search(AlbumQuery(TermOf(e))).Answered?
    requires FirstHit(search(AlbumQuery(TermOf(e))).items).None? ==> search(ArtistSongQuery(TermOf(e))).Answered?
    ensures var l := SpotifyApi.FindSong(TermOf(e), search);
      var c := PollCycle(previous, Some(e), search, add);
      && Queries(c.calls) == l.queries
      && (l.result.Success? ==> AddedTracks(c.calls) == [l.result.value]
                                && c.outcome == (if add(l.result.value) then Added(l.result.value) else AddFailed))
      && (l.result.Failure? <==> c.outcome == NotFound)
      && (l.result.Failure? ==> AddedTracks(c.calls) == [])
  {
    CycleTraces(TermOf(e), search);
  }

  /**
   * On rejected search requests the two differ: whatever the answers, the
   * cycle sends the lookup's queries, and the lookup rejects for a failed
   * request exactly when the cycle ends on a rejected search; the script then
   * re-arms after a rejected album search but not after a rejected fallback.
   */
  lemma RejectedSearchesDiffer(previous: Option<SearchTerm>, e: Event, search: string -> SearchReply, add: Track -> bool)
    requires SongChanged(previous, TermOf(e))
    ensures var l := SpotifyApi.FindSong(TermOf(e), search);
      var c := PollCycle(previous, Some(e), search, add);
      && Queries(c.calls) == l.queries
      && (l.result == Failure(SpotifyApi.RequestRejected) <==> c.outcome.SearchFailed? || c.outcome.FallbackFailed?)
      && (c.outcome.SearchFailed? ==> c.rearm == Some(120000))
      && (c.outcome.FallbackFailed? ==> c.rearm.None?)
  {
    CycleTraces(TermOf(e), search);
  }

}
