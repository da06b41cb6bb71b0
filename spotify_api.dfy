/**
 * The decision logic of the playlist-service client class: the two-tier
 * track resolver, the name-prefix filter over the user's playlists, and the
 * name of the successor playlist. Every request the class sends is an input
 * to these functions.
 */
module SpotifyApi {
  import opened Wrappers
  import opened Search

  // ---------------------------------------------------------------------
  // Two-tier track resolver (findSongOnSpotify)
  // ---------------------------------------------------------------------

  /** Why a lookup rejects: the reason string of the not-found rejection, or a rejected request. */
  datatype LookupError = CouldNotFind(reason: string) | RequestRejected

  const NotFoundReason: string := "Could not find song on Spotify"

  /** The settled value of the lookup promise and the queries it sent, in order. */
  datatype Lookup = Lookup(result: Result<Track, LookupError>, queries: seq<string>)

  /**
   * Search with the album first; only when that answer has no first item,
   * search again without the album. A rejected request rejects the lookup.
   */
  function FindSong(term: SearchTerm, search: string -> SearchReply): (l: Lookup)
    ensures 1 <= |l.queries| <= 2 && l.queries[0] == AlbumQuery(term)
    ensures |l.queries| == 2 ==> l.queries[1] == ArtistSongQuery(term)
    ensures var last := search(l.queries[|l.queries| - 1]);
      && (l.result.Success? ==> last.Answered? && FirstHit(last.items) == Some(l.result.value))
      && (l.result == Failure(RequestRejected) <==> last.Rejected?)
  {
    var q1 := AlbumQuery(term);
    match search(q1)
    case Rejected => Lookup(Failure(RequestRejected), [q1])
    case Answered(items) =>
      match FirstHit(items)
      case Some(t) => Lookup(Success(t), [q1])
      case None =>
        var q2 := ArtistSongQuery(term);
        match search(q2)
        case Rejected => Lookup(Failure(RequestRejected), [q1, q2])
        case Answered(items2) =>
          match FirstHit(items2)
          case Some(t) => Lookup(Success(t), [q1, q2])
          case None => Lookup(Failure(CouldNotFind(NotFoundReason)), [q1, q2])
  }

  /** A first hit with the album resolves the lookup to it, and nothing else is asked. */
  lemma FirstTierWins(term: SearchTerm, search: string -> SearchReply, t: Track)
    requires search(AlbumQuery(term)).Answered?
    requires FirstHit(search(AlbumQuery(term)).items) == Some(t)
    ensures FindSong(term, search) == Lookup(Success(t), [AlbumQuery(term)])
  {
  }

  /**
   * The lookup never consults the tier-2 answer when tier 1 hits: any two
   * search services that agree on the tier-1 query give the same lookup.
   */
  lemma FirstTierIgnoresFallback(term: SearchTerm, s1: string -> SearchReply, s2: string -> SearchReply)
    requires s1(AlbumQuery(term)) == s2(AlbumQuery(term))
    requires s1(AlbumQuery(term)).Answered? && FirstHit(s1(AlbumQuery(term)).items).Some?
    ensures FindSong(term, s1) == FindSong(term, s2)
  {
  }

  /**
   * When the album search answers without a first item, the lookup asks
   * artist-and-song next and settles on that answer's first item; with none
   * it rejects with the not-found reason.
   */
  lemma FallbackTier(term: SearchTerm, search: string -> SearchReply)
    requires search(AlbumQuery(term)).Answered?
    requires FirstHit(search(AlbumQuery(term)).items).None?
    requires search(ArtistSongQuery(term)).Answered?
    ensures var l := FindSong(term, search);
      var hit := FirstHit(search(ArtistSongQuery(term)).items);
      && l.queries == [AlbumQuery(term), ArtistSongQuery(term)]
      && (hit.Some? ==> l.result == Success(hit.value))
      && (hit.None? ==> l.result == Failure(CouldNotFind("Could not find song on Spotify")))
  {
  }

  /**
   * A lookup succeeds exactly when one of the two tiers has a first item, and
   * what it returns is that item, tier 1 taking precedence.
   */
  lemma FindSongSucceedsIffSomeTierHits(term: SearchTerm, search: string -> SearchReply)
    ensures var l := FindSong(term, search);
      var a1 := search(AlbumQuery(term));
      var a2 := search(ArtistSongQuery(term));
      var tier1 := if a1.Answered? then FirstHit(a1.items) else None;
      var tier2 := if a1.Answered? && tier1.None? && a2.Answered? then FirstHit(a2.items) else None;
      && (l.result.Success? <==> tier1.Some? || tier2.Some?)
      && (tier1.Some? ==> l.result == Success(tier1.value))
      && (tier2.Some? ==> l.result == Success(tier2.value))
      && 1 <= |l.queries| <= 2
      && l.queries[0] == AlbumQuery(term)
      && (|l.queries| == 2 <==> a1.Answered? && tier1.None?)
  {
  }

  // ---------------------------------------------------------------------
  // Playlists whose name starts with a given prefix (getPlaylists)
  // ---------------------------------------------------------------------

  datatype Playlist = Playlist(id: string, name: string)

  /** `name.startsWith(prefix)`. */
  predicate StartsWith(name: string, prefix: string)
  {
    prefix <= name
  }

  /** `a` is `b` with some elements left out, the rest in their order. */
  predicate IsSubsequence<T(==)>(a: seq<T>, b: seq<T>)
    decreases |b|
  {
    if a == [] then true
    else if b == [] then false
    else if a[0] == b[0] then IsSubsequence(a[1..], b[1..])
    else IsSubsequence(a, b[1..])
  }

  /** `items.filter(p => p.name.startsWith(prefix))`. */
  function Matching(prefix: string, items: seq<Playlist>): (r: seq<Playlist>)
    ensures forall p :: p in r ==> StartsWith(p.name, prefix)
    ensures forall p: Playlist :: StartsWith(p.name, prefix) ==> multiset(r)[p] == multiset(items)[p]
    ensures forall p: Playlist :: !StartsWith(p.name, prefix) ==> multiset(r)[p] == 0
    ensures IsSubsequence(r, items)
  {
    if items == [] then []
    else
      var rest := Matching(prefix, items[1..]);
      assert items == [items[0]] + items[1..];
      if StartsWith(items[0].name, prefix) then [items[0]] + rest else rest
  }

  /**
   * The playlists of a response whose name starts with `prefix`, every one
   * of them as often as it occurs and in the response's order; nothing
   * (undefined) when the response has no `items`.
   */
  function GetPlaylists(prefix: string, items: Option<seq<Playlist>>): (r: Option<seq<Playlist>>)
    ensures r.Some? <==> items.Some?
    ensures r.Some? ==> IsSubsequence(r.value, items.value)
    ensures r.Some? ==> forall p :: p in r.value <==> p in items.value && StartsWith(p.name, prefix)
    ensures r.Some? ==> forall p: Playlist :: StartsWith(p.name, prefix) ==> multiset(r.value)[p] == multiset(items.value)[p]
  {
    match items
    case None => None
    case Some(ps) => Some(Matching(prefix, ps))
  }

  // ---------------------------------------------------------------------
  // Name of the successor playlist (createNewPlaylist)
  // ---------------------------------------------------------------------

  const SuccessorPrefix: string := "Sirius Real Jazz "

  /**
   * `s.split(' ').pop()`: the part of `s` after its last space, all of `s`
   * when it has none.
   */
  function LastWord(s: string): (r: string)
    ensures |r| <= |s| && r == s[|s| - |r|..]
    ensures ' ' !in r
    ensures |r| == |s| || s[|s| - |r| - 1] == ' '
  {
    if s == [] || s[|s| - 1] == ' ' then []
    else
      var w := LastWord(s[..|s| - 1]);
      assert s[..|s| - 1][|s| - 1 - |w|..] == s[|s| - 1 - |w|..|s| - 1];
      w + [s[|s| - 1]]
  }

  predicate IsDigit(c: char)
  {
    '0' <= c <= '9'
  }

  /** A non-empty run of decimal digits. */
  predicate IsNumeral(w: string)
  {
    |w| > 0 && forall i :: 0 <= i < |w| ==> IsDigit(w[i])
  }

  /** The value of a run of decimal digits, as `parseInt` reads it (leading zeros allowed). */
  function ParseDecimal(w: string): nat
    requires forall i :: 0 <= i < |w| ==> IsDigit(w[i])
  {
    if w == [] then 0
    else
      assert IsDigit(w[|w| - 1]);
      ParseDecimal(w[..|w| - 1]) * 10 + (w[|w| - 1] as int - '0' as int)
  }

  /** How JavaScript writes a non-negative integer when it is concatenated to a string. */
  function ShowDecimal(n: nat): (r: string)
    ensures IsNumeral(r) && ' ' !in r
    ensures ParseDecimal(r) == n
    ensures r[0] == '0' ==> r == "0"
  {
    var d := [(n % 10 + '0' as int) as char];
    if n < 10 then d
    else
      var r := ShowDecimal(n / 10) + d;
      assert r[..|r| - 1] == ShowDecimal(n / 10);
      r
  }

  /**
   * The name `createNewPlaylist(name)` gives the new playlist, for names whose
   * last word is a decimal numeral; None for every other name.
   */
  function SuccessorName(name: string): (r: Option<string>)
    ensures r.Some? <==> IsNumeral(LastWord(name))
    ensures r.Some? ==> StartsWith(r.value, SuccessorPrefix)
  {
    var w := LastWord(name);
    if IsNumeral(w) then Some(SuccessorPrefix + ShowDecimal(ParseDecimal(w) + 1)) else None
  }

  /** The ordinal a name carries in its last word, when that word is a numeral. */
  function Ordinal(name: string): Option<nat>
  {
    var w := LastWord(name);
    if IsNumeral(w) then Some(ParseDecimal(w)) else None
  }

  /** A numeral after the last space is what LastWord finds, whatever comes before. */
  lemma {:induction false} LastWordAfterSpace(front: string, w: string)
    requires ' ' !in w
    ensures LastWord(front + " " + w) == w
  {
    if w != [] {
      var s := front + " " + w;
      assert s[..|s| - 1] == front + " " + w[..|w| - 1];
      LastWordAfterSpace(front, w[..|w| - 1]);
    }
  }

  /**
   * The successor of a name with ordinal n is "Sirius Real Jazz " followed by
   * n + 1 in decimal: it starts with the fixed prefix and carries ordinal n + 1.
   */
  lemma SuccessorHasNextOrdinal(name: string)
    requires Ordinal(name).Some?
    ensures SuccessorName(name).Some?
    ensures StartsWith(SuccessorName(name).value, SuccessorPrefix)
    ensures Ordinal(SuccessorName(name).value) == Some(Ordinal(name).value + 1)
    ensures var rest := SuccessorName(name).value[|SuccessorPrefix|..];
      IsNumeral(rest) && ParseDecimal(rest) == Ordinal(name).value + 1 && (rest[0] == '0' ==> rest == "0")
  {
    var n := Ordinal(name).value;
    var d := ShowDecimal(n + 1);
    var r := SuccessorPrefix + d;
    assert SuccessorName(name) == Some(r);
    assert r[..|SuccessorPrefix|] == SuccessorPrefix;
    var front := SuccessorPrefix[..|SuccessorPrefix| - 1];
    assert r == front + " " + d;
    LastWordAfterSpace(front, d);
    assert Ordinal(r) == Some(ParseDecimal(d));
    assert r[|SuccessorPrefix|..] == d;
  }

  /** All words of the old name but the last are ignored. */
  lemma SuccessorIgnoresEarlierWords(front: string, otherFront: string, w: string)
    requires ' ' !in w
    ensures SuccessorName(front + " " + w) == SuccessorName(otherFront + " " + w)
  {
    LastWordAfterSpace(front, w);
    LastWordAfterSpace(otherFront, w);
  }

  /** Rotating twice from ordinal n gives "Sirius Real Jazz " and n + 2. */
  lemma SuccessorTwice(name: string)
    requires Ordinal(name).Some?
    ensures SuccessorName(name).Some?
    ensures SuccessorName(SuccessorName(name).value) == Some(SuccessorPrefix + ShowDecimal(Ordinal(name).value + 2))
  {
    SuccessorHasNextOrdinal(name);
  }

  /** A playlist named "Sirius Real Jazz 7" is succeeded by "Sirius Real Jazz 8". */
  lemma SuccessorOfSeven()
    ensures SuccessorName("Sirius Real Jazz 7") == Some("Sirius Real Jazz 8")
  {
    LastWordAfterSpace("Sirius Real Jazz", "7");
    assert "Sirius Real Jazz" + " " + "7" == "Sirius Real Jazz 7";
    assert IsNumeral("7");
    assert ParseDecimal("7") == 7;
    assert ShowDecimal(8) == "8";
    assert SuccessorPrefix + "8" == "Sirius Real Jazz 8";
  }

  /** Earlier words are ignored: "Mix 41" is succeeded by "Sirius Real Jazz 42". */
  lemma SuccessorOfOtherName()
    ensures SuccessorName("Mix 41") == Some("Sirius Real Jazz 42")
  {
    LastWordAfterSpace("Mix", "41");
    assert "Mix" + " " + "41" == "Mix 41";
    assert ParseDecimal("41") == 41 by {
      assert "41"[..1] == "4";
    }
    assert IsNumeral("41");
    assert ShowDecimal(42) == "42" by {
      assert ShowDecimal(4) == "4";
    }
    assert SuccessorPrefix + "42" == "Sirius Real Jazz 42";
  }

  /** Leading zeros are read as `parseInt` reads them: "Sirius Real Jazz 007" is succeeded by "Sirius Real Jazz 8". */
  lemma SuccessorOfPaddedNumeral()
    ensures SuccessorName("Sirius Real Jazz 007") == Some("Sirius Real Jazz 8")
  {
    LastWordAfterSpace("Sirius Real Jazz", "007");
    assert "Sirius Real Jazz" + " " + "007" == "Sirius Real Jazz 007";
    assert IsNumeral("007");
    assert ParseDecimal("007") == 7 by {
      assert "007"[..2] == "00";
      assert "00"[..1] == "0";
    }
    assert ShowDecimal(8) == "8";
    assert SuccessorPrefix + "8" == "Sirius Real Jazz 8";
  }

  /** A name whose last word is not a numeral has no modelled successor. */
  lemma NoSuccessorWithoutNumeral()
    ensures SuccessorName("Sirius Real Jazz") == None
  {
    LastWordAfterSpace("Sirius Real", "Jazz");
    assert "Sirius Real" + " " + "Jazz" == "Sirius Real Jazz";
    assert !IsDigit("Jazz"[0]);
  }
}
