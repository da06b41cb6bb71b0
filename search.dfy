/**
 * What the two source files share about a catalogue search: the search term,
 * the two query strings of the two-tier lookup, the answer of one search
 * request, and how the first hit is taken out of that answer.
 */
module Search {
  import opened Wrappers

  /** A catalogue track; only its URI is used downstream (it is put into the add-to-playlist URL). */
  datatype Track = Track(uri: string)

  /** The `{artist, album, song}` object built from the broadcast metadata. */
  datatype SearchTerm = SearchTerm(artist: string, album: string, song: string)

  /**
   * The answer to one search request: the request was rejected, or it
   * resolved to a body whose `tracks.items` list is present or absent.
   */
  datatype SearchReply = Rejected | Answered(items: Option<seq<Track>>)

  /** Tier-1 query: artist, album and song separated by single spaces. */
  function AlbumQuery(t: SearchTerm): string
  {
    t.artist + " " + t.album + " " + t.song
  }

  /** Tier-2 query: the tier-1 query without the album. */
  function ArtistSongQuery(t: SearchTerm): string
  {
    t.artist + " " + t.song
  }

  /**
   * `body.tracks && body.tracks.items ? body.tracks.items[0] : null`, read as
   * a truth value: the first item when the list is present and not empty.
   */
  function FirstHit(items: Option<seq<Track>>): (r: Option<Track>)
    ensures r.Some? <==> items.Some? && |items.value| > 0
    ensures r.Some? ==> r.value == items.value[0]
  {
    match items
    case None => None
    case Some(ts) => if |ts| == 0 then None else Some(ts[0])
  }

  /**
   * Taking the album and the space after it out of the tier-1 query leaves
   * exactly the tier-2 query.
   */
  lemma AlbumDroppedInFallback(t: SearchTerm)
    ensures var q1 := AlbumQuery(t);
      var cut := |t.artist| + 1;
      cut + |t.album| + 1 <= |q1|
      && q1[..cut] + q1[cut + |t.album| + 1..] == ArtistSongQuery(t)
      && q1[cut..cut + |t.album|] == t.album
  {
    var q1 := AlbumQuery(t);
    var cut := |t.artist| + 1;
    assert q1 == (t.artist + " ") + (t.album + " ") + t.song;
    assert q1[..cut] == t.artist + " ";
    assert q1[cut + |t.album| + 1..] == t.song;
  }
}
