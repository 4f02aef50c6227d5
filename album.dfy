/**
 * The Album object (objects/album.py): a frozen record, the query capability
 * it was built with, and a `songs` field filled on first access.
 */
module AlbumObject {
  import opened Options
  import opened Errors
  import opened Json
  import opened Dispatch
  import opened SongObject

  /** The declared fields of an album. */
  datatype AlbumInfo = AlbumInfo(
    id: Json, parent: Json, isDir: Json, title: Json, album: Json, artist: Json,
    year: Json, genre: Json, coverArt: Json, playCount: Json, created: Json)

  /** The declared fields; none has a default. */
  const AlbumKeys: set<string> := {
    "id", "parent", "isDir", "title", "album", "artist", "year", "genre", "coverArt",
    "playCount", "created"}

  /** An album record as the keyword arguments it was built from. */
  function AlbumFields(a: AlbumInfo): map<string, Json>
  {
    map[
      "id" := a.id, "parent" := a.parent, "isDir" := a.isDir, "title" := a.title,
      "album" := a.album, "artist" := a.artist, "year" := a.year, "genre" := a.genre,
      "coverArt" := a.coverArt, "playCount" := a.playCount, "created" := a.created]
  }

  /** The fields `Album(**i, _query=...)` takes from i: every declared one is required. */
  function AlbumInfoOf(j: Json): (r: Result<AlbumInfo>)
    ensures r.Ok? <==> j.JObj? && AlbumKeys <= j.fields.Keys
    ensures r.Err? ==> r.error == Uncaught("TypeError")
    ensures r.Ok? ==> AlbumFields(r.value) == map k | k in AlbumKeys :: j.fields[k]
  {
    if j.JObj? && AlbumKeys <= j.fields.Keys then
      var m := j.fields;
      Ok(AlbumInfo(
        m["id"], m["parent"], m["isDir"], m["title"], m["album"], m["artist"],
        m["year"], m["genre"], m["coverArt"], m["playCount"], m["created"]))
    else
      Err(Uncaught("TypeError"))
  }

  class Album {
    /** The frozen dataclass fields. */
    const info: AlbumInfo
    /** The `_query` capability. */
    const query: Dispatcher
    /** The memoized `songs`: None until the first successful access. */
    var songs: Option<seq<Song>>

    constructor (info: AlbumInfo, query: Dispatcher)
      ensures this.info == info && this.query == query && songs == None
    {
      this.info := info;
      this.query := query;
      songs := None;
    }

    /** The request the first access to `songs` sends. */
    function SongsUrl(): string
    {
      Url(query, "getMusicDirectory", [("id", info.id)])
    }

    /**
     * The `songs` property (lines 23-29). The first access sends one
     * getMusicDirectory request for the album's id and keeps the listing; later
     * accesses return the kept listing and send nothing. A failing first access
     * keeps nothing, so the next access asks again.
     */
    method Songs() returns (r: Result<seq<Song>>)
      modifies this`songs, query.net
      ensures old(songs).Some? ==>
        r == Ok(old(songs).value) && songs == old(songs) && query.net.log == old(query.net.log)
      ensures old(songs).None? ==>
        && query.net.log == old(query.net.log) + [SongsUrl()]
        && r == DirectorySongs(Processed(query.rt, query.net.reply(|old(query.net.log)|, SongsUrl())))
        && songs == (if r.Ok? then Some(r.value) else None)
    {
      if songs.Some? {
        return Ok(songs.value);
      }
      var response := Fetch(query, "getMusicDirectory", [("id", info.id)]);
      r := DirectorySongs(response);
      if r.Ok? {
        songs := Some(r.value);
      }
    }
  }

  /** The records of a list of albums. */
  function AlbumInfos(albums: seq<Album>): (r: seq<AlbumInfo>)
    ensures |r| == |albums| && forall k :: 0 <= k < |albums| ==> r[k] == albums[k].info
  {
    seq(|albums|, k requires 0 <= k < |albums| => albums[k].info)
  }

  /**
   * `[Album(**i, _query=query) for i in items]`: one new, unresolved album per
   * item, in order, each holding the given capability; the first item that is
   * not a complete album record raises.
   */
  method NewAlbums(items: seq<Json>, query: Dispatcher) returns (r: Result<seq<Album>>)
    ensures r.Ok? <==> MapResult(items, AlbumInfoOf).Ok?
    ensures r.Err? ==> r.error == MapResult(items, AlbumInfoOf).error
    ensures r.Ok? ==> AlbumInfos(r.value) == MapResult(items, AlbumInfoOf).value
    ensures r.Ok? ==> forall a :: a in r.value ==> fresh(a) && a.songs == None && a.query == query
  {
    var albums: seq<Album> := [];
    var i := 0;
    while i < |items|
      invariant 0 <= i <= |items| && |albums| == i
      invariant forall k :: 0 <= k < i ==> AlbumInfoOf(items[k]).Ok? && albums[k].info == AlbumInfoOf(items[k]).value
      invariant forall a :: a in albums ==> fresh(a) && a.songs == None && a.query == query
    {
      var info := AlbumInfoOf(items[i]);
      if info.Err? {
        return Err(info.error);
      }
      var album := new Album(info.value, query);
      albums := albums + [album];
      i := i + 1;
    }
    return Ok(albums);
  }
}
