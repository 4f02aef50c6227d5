/**
 * SearchResults (objects/search_results.py): the three result sections of a
 * search, and the summary its repr prints.
 */
module SearchResultsObject {
  import opened Options
  import opened Errors
  import opened Json
  import opened Text
  import opened Dispatch
  import opened SongObject
  import opened AlbumObject

  /** An artist keeps the fields the server sent; objects/artist.py is not part of this model. */
  datatype Artist = Artist(fields: map<string, Json>)

  /** `Artist(**i)`: i must be a dict. */
  function ArtistOf(j: Json): (r: Result<Artist>)
    ensures r.Ok? <==> j.JObj?
    ensures r.Ok? ==> r.value.fields == j.fields
  {
    if j.JObj? then Ok(Artist(j.fields)) else Err(Uncaught("TypeError"))
  }

  /** Building an artist from the fields of an artist gives that artist back. */
  lemma ArtistRoundTrip(a: Artist)
    ensures ArtistOf(JObj(a.fields)) == Ok(a)
  {
  }

  datatype SearchResults = SearchResults(artists: seq<Artist>, albums: seq<Album>, songs: seq<Song>)

  /** The value content of a SearchResults: albums seen through their records. */
  datatype Sections = Sections(artists: seq<Artist>, albums: seq<AlbumInfo>, songs: seq<Song>)

  function View(r: SearchResults): Sections
  {
    Sections(r.artists, AlbumInfos(r.albums), r.songs)
  }

  /** The three comprehensions of `__init__` (lines 9-11), evaluated in order, as values. */
  function SectionsOf(artist: Json, album: Json, song: Json): Result<Sections>
  {
    var artistItems :- Items(artist);
    var artists :- MapResult(artistItems, ArtistOf);
    var albumItems :- Items(album);
    var albums :- MapResult(albumItems, AlbumInfoOf);
    var songItems :- Items(song);
    var songs :- MapResult(songItems, SongOf);
    Ok(Sections(artists, albums, songs))
  }

  /**
   * `SearchResults(artist, album, song, query=query)` (lines 8-11). Every album
   * is new, unresolved and holds the given capability. The method cannot reach
   * the network: construction sends no query.
   */
  method NewSearchResults(artist: Json, album: Json, song: Json, query: Dispatcher) returns (r: Result<SearchResults>)
    ensures r.Ok? <==> SectionsOf(artist, album, song).Ok?
    ensures r.Err? ==> r.error == SectionsOf(artist, album, song).error
    ensures r.Ok? ==> View(r.value) == SectionsOf(artist, album, song).value
    ensures r.Ok? ==> forall a :: a in r.value.albums ==> fresh(a) && a.songs == None && a.query == query
  {
    var artistItems :- Items(artist);
    var artists :- MapResult(artistItems, ArtistOf);
    var albumItems :- Items(album);
    var albums :- NewAlbums(albumItems, query);
    var songItems :- Items(song);
    var songs :- MapResult(songItems, SongOf);
    return Ok(SearchResults(artists, albums, songs));
  }

  /** Each section keeps the length and order of its input list. */
  lemma SectionsKeepOrder(artist: seq<Json>, album: seq<Json>, song: seq<Json>)
    requires forall k :: 0 <= k < |artist| ==> ArtistOf(artist[k]).Ok?
    requires forall k :: 0 <= k < |album| ==> AlbumInfoOf(album[k]).Ok?
    requires forall k :: 0 <= k < |song| ==> SongOf(song[k]).Ok?
    ensures var r := SectionsOf(JArr(artist), JArr(album), JArr(song));
      && r.Ok?
      && |r.value.artists| == |artist| && |r.value.albums| == |album| && |r.value.songs| == |song|
      && (forall k :: 0 <= k < |artist| ==> r.value.artists[k] == ArtistOf(artist[k]).value)
      && (forall k :: 0 <= k < |album| ==> r.value.albums[k] == AlbumInfoOf(album[k]).value)
      && (forall k :: 0 <= k < |song| ==> r.value.songs[k] == SongOf(song[k]).value)
  {
  }

  /** An empty dict, which the client puts in place of a missing section, gives an empty section. */
  lemma EmptySectionIsEmpty(artist: Json, album: Json, song: Json)
    requires SectionsOf(artist, album, song).Ok?
    ensures artist == EmptyDict ==> SectionsOf(artist, album, song).value.artists == []
    ensures album == EmptyDict ==> SectionsOf(artist, album, song).value.albums == []
    ensures song == EmptyDict ==> SectionsOf(artist, album, song).value.songs == []
  {
  }

  const ReprHead := "SearchResults(artists=[..."
  const ReprAlbums := "], albums=[..."
  const ReprSongs := "], songs=[..."
  const ReprTail := "])"

  /** `__repr__` (lines 13-14): the three section sizes in a fixed frame. */
  function Repr(r: SearchResults): string
  {
    ReprOf(|r.artists|, |r.albums|, |r.songs|)
  }

  function ReprOf(artists: nat, albums: nat, songs: nat): string
  {
    ReprHead + Decimal(artists) + ReprAlbums + Decimal(albums) + ReprSongs + Decimal(songs) + ReprTail
  }

  /** s with the given prefix removed, if it has it. */
  function After(s: string, prefix: string): Option<string>
  {
    if |prefix| <= |s| && s[..|prefix|] == prefix then Some(s[|prefix|..]) else None
  }

  /** A number, then the given text: the number and what follows the text. */
  function NumberThen(s: string, delimiter: string): Option<(nat, string)>
  {
    var digits := LeadingDigits(s);
    if digits == [] then None
    else
      match After(s[|digits|..], delimiter)
      case None => None
      case Some(rest) => Some((ValueOf(digits, 10), rest))
  }

  /** Reads a repr back into the three sizes it reports. */
  function ParseRepr(s: string): Option<(nat, nat, nat)>
  {
    match After(s, ReprHead)
    case None => None
    case Some(s1) =>
      match NumberThen(s1, ReprAlbums)
      case None => None
      case Some((a, s2)) =>
        match NumberThen(s2, ReprSongs)
        case None => None
        case Some((b, s3)) =>
          match NumberThen(s3, ReprTail)
          case None => None
          case Some((c, s4)) => if s4 == [] then Some((a, b, c)) else None
  }

  lemma AfterPrefix(prefix: string, rest: string)
    ensures After(prefix + rest, prefix) == Some(rest)
  {
    assert (prefix + rest)[..|prefix|] == prefix;
    assert (prefix + rest)[|prefix|..] == rest;
  }

  /** A printed number followed by a delimiter that starts with ']' or ')' reads back. */
  lemma NumberThenDecimal(n: nat, delimiter: string, rest: string)
    requires delimiter != [] && !IsDigit(delimiter[0], 10)
    ensures NumberThen(Decimal(n) + delimiter + rest, delimiter) == Some((n, rest))
  {
    var d := Numeral(n, 10);
    NumeralShape(n, 10);
    NumeralRoundTrip(n, 10);
    var s := d + delimiter + rest;
    assert s == d + (delimiter + rest);
    LeadingDigitsOf(d, delimiter + rest);
    assert s[|d|..] == delimiter + rest;
    AfterPrefix(delimiter, rest);
  }

  /** The repr reports exactly the three section sizes: they can be read back from it. */
  lemma ReprRoundTrip(r: SearchResults)
    ensures ParseRepr(Repr(r)) == Some((|r.artists|, |r.albums|, |r.songs|))
  {
    var a, b, c := |r.artists|, |r.albums|, |r.songs|;
    var s3 := Decimal(c) + ReprTail;
    var s2 := Decimal(b) + ReprSongs + s3;
    var s1 := Decimal(a) + ReprAlbums + s2;
    assert Repr(r) == ReprHead + s1;
    AfterPrefix(ReprHead, s1);
    NumberThenDecimal(a, ReprAlbums, s2);
    NumberThenDecimal(b, ReprSongs, s3);
    NumberThenDecimal(c, ReprTail, []);
    assert Decimal(c) + ReprTail + [] == s3;
  }

  /** Results with different section sizes print differently. */
  lemma ReprDistinguishesSizes(r: SearchResults, q: SearchResults)
    requires Repr(r) == Repr(q)
    ensures |r.artists| == |q.artists| && |r.albums| == |q.albums| && |r.songs| == |q.songs|
  {
    ReprRoundTrip(r);
    ReprRoundTrip(q);
  }
}
