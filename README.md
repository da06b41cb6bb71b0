# radio-sniffer: the poll-and-mirror decisions, in Dafny

radio-sniffer polls a satellite-radio channel's metadata for the song on air
and adds each newly detected song to a playlist on the streaming service. Most
of the repository is HTTP and OAuth glue. This project models the sequential
decisions inside that glue, with every network answer turned into an input:

- **One poll cycle** of the server script (`addSong` in `run.js`). The cycle
  reads the current event and builds the term `{artist, album, song}`. It
  stops when the song name equals the remembered term's song. Otherwise it
  remembers the new term and searches with the album. When that search has no
  first item, it searches with artist and song only. It adds at most one track
  and then decides whether the 120 s timer is re-armed. `Run.PollCycle` is the
  specification of a cycle. `Run.PollLoop` is a class whose field
  `previousTerm` is the script's module-level variable, and its method
  `AddSong` is proved to follow `Run.PollCycle`. A cycle reports which requests
  it sent (`seq<Call>`), so "no fallback search" and "at most one add" are
  statements about that trace.
- **The two-tier track resolver** of the client class (`findSongOnSpotify` in
  `spotify_api.js`), as the function `SpotifyApi.FindSong`. It returns the
  settled value of the lookup promise and the queries it sent.
- **The playlist-name helpers** of the client class: the prefix filter of
  `getPlaylists`, and the successor name built by `createNewPlaylist` from the
  last space-separated word of the old name.
- **The random state string** of the login route (`generateRandomString`), a
  loop over an oracle of alphabet indices.

The shared vocabulary (track, search term, search answer, the two query
strings, the first hit) is in module `Search`; `Wrappers` holds `Option` and
`Result`.

What the model takes as inputs:

- The metadata request is `Option<Event>`. `None` stands both for a rejected
  request and for a payload without `channelMetadataResponse.metaData.currentEvent`,
  because the script treats them alike.
- A search request is `string -> SearchReply`. The reply is `Rejected`, or
  `Answered(items)` where `items` is `None` when the body has no
  `tracks.items`.
- The add-to-playlist request is `Track -> bool`, true when it resolves.
- The timer is the `rearm` field of the cycle result: `Some(120000)` when the
  script calls `getCurrentSiriusSongAndAddToSpotify(120 * 1000)`, `None` when
  nothing re-arms it.
- `Math.random` becomes `draw: nat -> AlphabetIndex`, the index chosen for
  the k-th character.

How the promise chain settles, as the code is written:

- Not every failure is confined to its cycle. A failed or event-less fetch
  leaves the second stage an undefined body, which it dereferences at
  run.js:142. That error, a rejected fallback search and a rejected add all
  settle in the handler at run.js:165, which only logs, so run.js:163 never
  re-arms the timer and polling stops. A same-song skip and a rejected album
  search are caught by the handler at run.js:156; they, a not-found song and
  a successful add reach run.js:163 and re-arm the timer.
- The timer is re-armed after the cycle settles, not from the start of the
  cycle.
- `findSongOnSpotify` in the client class and the inline fallback in the
  script differ on rejected requests. In the class, any rejected search
  rejects the lookup. In the script, a rejected album search is caught and
  re-arms, while a rejected fallback search stops the loop.
  `Run.CycleMatchesLookup` relates the two when the requests that are sent
  are answered; `Run.RejectedSearchesDiffer` states the difference.

## Model

| member | source | states |
|---|---|---|
| Search.AlbumQuery | spotify_api.js:83 | no contract of its own; the tier-1 query, also run.js:133. `Search.AlbumDroppedInFallback` relates it to the tier-2 query |
| Search.ArtistSongQuery | spotify_api.js:97 | no contract of its own; the tier-2 query, also run.js:147. `Search.AlbumDroppedInFallback` describes it |
| Search.FirstHit | spotify_api.js:92 | the first hit exists exactly when `tracks.items` is present and non-empty, and it is item 0 |
| Search.AlbumDroppedInFallback | spotify_api.js:83-97 | the tier-1 query is artist, album and song joined by single spaces; removing the album and one space gives exactly the tier-2 query |
| SpotifyApi.FindSong | spotify_api.js:81-114 | the lookup sends the album query first and at most the artist-and-song query after it; a resolved track is the first hit of the last answer; it rejects for a failed request exactly when the last request was rejected. `FirstTierWins`, `FallbackTier` and `FindSongSucceedsIffSomeTierHits` give each path |
| SpotifyApi.FirstTierWins | spotify_api.js:89-95 | when the album search has a first item, the lookup resolves to it and sends only the album query |
| SpotifyApi.FirstTierIgnoresFallback | spotify_api.js:89-95 | when the album search has a first item, the lookup is the same whatever the artist-and-song search would answer |
| SpotifyApi.FallbackTier | spotify_api.js:96-110 | with no album hit, the second query is artist and song; the lookup resolves to its first item, or rejects with 'Could not find song on Spotify' |
| SpotifyApi.FindSongSucceedsIffSomeTierHits | spotify_api.js:81-114 | the lookup succeeds exactly when tier 1 or (after a tier-1 miss) tier 2 has a first item, tier 1 first; the album query is always sent first, and a second query is sent exactly after an answered tier-1 miss |
| SpotifyApi.StartsWith | spotify_api.js:134 | no contract of its own; `name.startsWith(prefix)` as a sequence prefix. `Matching` and `GetPlaylists` state the filter built on it |
| SpotifyApi.Matching | spotify_api.js:134 | the filter keeps every playlist whose name starts with the prefix, as often as it occurs, drops every other one, and keeps the input order |
| SpotifyApi.GetPlaylists | spotify_api.js:130-136 | no result (undefined) exactly when the response has no items; otherwise exactly the prefix-matching playlists, in the response's order and multiplicity |
| SpotifyApi.SuccessorName | spotify_api.js:164 | a successor name exists exactly when the last word is a decimal numeral, and it starts with "Sirius Real Jazz ". `SuccessorHasNextOrdinal` and `SuccessorIgnoresEarlierWords` state the rest |
| SpotifyApi.LastWord | spotify_api.js:164 | `split(' ').pop()` is the suffix after the last space: it contains no space, and it is the whole name or is preceded by a space |
| SpotifyApi.ShowDecimal | spotify_api.js:164 | the decimal text of n is all digits, has no leading zero, and parses back to n |
| SpotifyApi.ParseDecimal | spotify_api.js:164 | no contract of its own; `parseInt` on an all-digit word, most significant digit first, leading zeros read as `parseInt` reads them (value unchanged). `ShowDecimal` (round-trip) and `SuccessorOfPaddedNumeral` tie it down |
| SpotifyApi.Ordinal | spotify_api.js:164 | no contract of its own; `parseInt(name.split(' ').pop())` when the last word is a numeral, none otherwise. `SuccessorHasNextOrdinal` and `SuccessorTwice` state how rotation moves it |
| SpotifyApi.LastWordAfterSpace | spotify_api.js:164 | a space-free word after a space is the last word, whatever precedes it |
| SpotifyApi.SuccessorHasNextOrdinal | spotify_api.js:164 | for a name whose last word is the numeral n, the new name starts with "Sirius Real Jazz " and its last word is the numeral n + 1; the text after the prefix is all digits, parses to n + 1 and has no leading zero |
| SpotifyApi.SuccessorIgnoresEarlierWords | spotify_api.js:164 | two names with the same last word get the same successor name, whatever their earlier words |
| SpotifyApi.SuccessorTwice | spotify_api.js:164 | two rotations from ordinal n give "Sirius Real Jazz " followed by n + 2 |
| SpotifyApi.SuccessorOfSeven | spotify_api.js:164 | "Sirius Real Jazz 7" is succeeded by "Sirius Real Jazz 8" |
| SpotifyApi.SuccessorOfPaddedNumeral | spotify_api.js:164 | "Sirius Real Jazz 007" is succeeded by "Sirius Real Jazz 8": the zeros are dropped, as `parseInt` and `+ 1` drop them |
| SpotifyApi.SuccessorOfOtherName | spotify_api.js:164 | "Mix 41" is succeeded by "Sirius Real Jazz 42": only the last word counts |
| SpotifyApi.NoSuccessorWithoutNumeral | spotify_api.js:164 | the name "Sirius Real Jazz", whose last word is not a numeral, has no modelled successor |
| Run.TermOf | run.js:128-129 | no contract of its own; the term built from the event's artist, album and song names. `Run.ChangedSongRecorded` states what is remembered |
| Run.SongChanged | run.js:130 | no contract of its own; the song-name comparison, true for the initial empty term. `Run.SameSongSuppressed` states both directions |
| Run.PollCycle | run.js:123-167 | the remembered term is kept or becomes the new term; nothing is sent exactly on a same-song skip or a failed fetch; a re-arm is always 120000 ms. `AtMostOneAdd`, `RearmRule`, `NotRetried` and the other Run lemmas give each path |
| Run.AddStage | run.js:144-165 | no contract of its own; one add request for the found track, Added with a 120000 ms re-arm when it resolves, AddFailed with no re-arm when it rejects. `FirstTierAdded`, `FallbackTierUsed` and `RearmRule` state it |
| Run.PollLoop.constructor | run.js:18 | the remembered term starts empty, so the first song always counts as changed |
| Run.PollLoop.AddSong | run.js:123-167 | one run of `addSong` updates `previousTerm`, and returns the outcome, the requests sent and the re-arm delay, all as the cycle specification gives them |
| Run.SameSongSuppressed | run.js:130-135 | a cycle is a same-song skip exactly when the song name equals the remembered one; then nothing is sent, the term is kept and the timer re-arms with 120000 ms |
| Run.ChangedSongRecorded | run.js:128-133 | on a changed song the remembered term becomes exactly the new {artist, album, song}, and the first request is the album search "artist album song" |
| Run.FirstTierAdded | run.js:133-144 | a first hit of the album search is added, with no fallback search; the outcome is Added or AddFailed as the add request settles |
| Run.FallbackTierUsed | run.js:146-153 | with no album hit the second request searches "artist song" for the remembered term; its first hit is added, with outcome Added or AddFailed as the add request settles; without one nothing is added and the outcome is NotFound |
| Run.AtMostOneAdd | run.js:142-153 | a cycle sends at most two searches and at most one add; an Added outcome added exactly its track; skip, not-found and fetch failure add nothing |
| Run.RearmRule | run.js:156-165 | the timer is re-armed, always with 120000 ms, exactly when the cycle did not end in a failed fetch, a rejected fallback search or a rejected add |
| Run.FetchFailureStops | run.js:124-165 | a rejected or event-less metadata fetch sends nothing, keeps the remembered term and does not re-arm the timer |
| Run.NotRetried | run.js:129-135 | after any cycle for a song, a following cycle with the same song name is a skip, so the two add at most one track between them |
| Run.CycleMatchesLookup | run.js:142-153 | when the searches that are sent are answered, a cycle for a changed song sends the same queries as the client class's lookup, adds exactly the track it resolves to, and ends NotFound exactly when it rejects |
| Run.RejectedSearchesDiffer | run.js:133-165 | whatever the answers, the cycle sends the class lookup's queries; the lookup rejects for a failed request exactly when the cycle ends on a rejected search; a rejected album search re-arms and a rejected fallback does not |
| RandomString.GenerateRandomString | run.js:204-212 | the string has exactly `length` characters (none when length is negative); the k-th is the alphabet character at the k-th drawn index, so every one is a letter or a digit |
| RandomString.UpperCodes | run.js:206 | positions 0 to 25 of the alphabet hold 'A' to 'Z' |
| RandomString.LowerCodes | run.js:206 | positions 26 to 51 of the alphabet hold 'a' to 'z' |
| RandomString.DigitCodes | run.js:206 | positions 52 to 61 of the alphabet hold '0' to '9' |
| RandomString.AlphabetIsAlphanumerics | run.js:206-209 | the 62 alphabet characters are distinct, and they are exactly the ASCII letters and digits |

## Left out

- The web server: static serving, CORS, cookies, the `/login` and `/callback` routes and their state check (run.js:14-78, run.js:215-218). These are web I/O.
- Token acquisition and refresh, in both files (run.js:169-197, spotify_api.js:6-55), and the wall-clock behaviour of `setTimeout`. Re-arming is only the `rearm` delay value.
- The HTTP requests themselves and the thin request wrappers: the script's `findSongOnSpotify` and `addSongToPlayList`, and the class's `addSongToPlayList`, `getPlaylist` and `getPlaylistTracks` (run.js:80-104, spotify_api.js:58-79, spotify_api.js:145-154). Their answers are the inputs described above.
- The timestamp of the metadata URL, built with `moment()` plus four hours (run.js:107). This is date library behaviour.
- Log lines. The model keeps the outcome each log line reports, not its text.
- A search answer that resolves with no body at all. The script would then throw on `body.tracks` and not re-arm. `Answered` always carries a body.
- Events missing `artists`, `song` or `song.album`. Reading these throws in the script; the model's `Event` always has the three names.
- A rejection of the playlist-list request passes through `getPlaylists` unchanged (spotify_api.js:130). `GetPlaylists` takes only the resolved response.
- SpotifyApi.SuccessorName: gives `None` when the last word is not a non-empty run of decimal digits. There `parseInt` yields NaN for no leading digits, reads a leading sign, a hexadecimal `0x` prefix or a partly numeric word, and JavaScript numbers lose precision beyond 2^53. The model's integers are unbounded.
- RandomString.GenerateRandomString: the oracle replaces `Math.floor(Math.random() * 62)`, so the uniformity of the draw and floating point are not modelled. A non-integer length (the loop would run to the next integer) is not modelled either.
- Interleaved cycles. Each successful `/callback` starts another timer chain (run.js:73), and the fallback query reads the shared `previousTerm` (run.js:147). Two chains can interleave on that variable; the model treats each cycle as atomic.
