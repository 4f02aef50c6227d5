/**
 * The Song record (objects/song.py) and the song listing that Album.songs
 * and Playlist.songs both read from a `getMusicDirectory` response.
 */
module SongObject {
  import opened Errors
  import opened Json

  /** A frozen song record; `kind` is the field the server calls `type`. */
  datatype Song = Song(
    id: Json, parent: Json, isDir: Json, title: Json, album: Json, artist: Json,
    track: Json, year: Json, genre: Json, coverArt: Json, size: Json, contentType: Json,
    suffix: Json, duration: Json, bitRate: Json, path: Json, isVideo: Json, playCount: Json,
    discNumber: Json, created: Json, albumId: Json, artistId: Json, kind: Json)

  /** The declared fields; none has a default. */
  const SongKeys: set<string> := {
    "id", "parent", "isDir", "title", "album", "artist", "track", "year", "genre", "coverArt",
    "size", "contentType", "suffix", "duration", "bitRate", "path", "isVideo", "playCount",
    "discNumber", "created", "albumId", "artistId", "type"}

  /** A song as the keyword arguments it was built from. */
  function SongFields(s: Song): map<string, Json>
  {
    map[
      "id" := s.id, "parent" := s.parent, "isDir" := s.isDir, "title" := s.title,
      "album" := s.album, "artist" := s.artist, "track" := s.track, "year" := s.year,
      "genre" := s.genre, "coverArt" := s.coverArt, "size" := s.size,
      "contentType" := s.contentType, "suffix" := s.suffix, "duration" := s.duration,
      "bitRate" := s.bitRate, "path" := s.path, "isVideo" := s.isVideo,
      "playCount" := s.playCount, "discNumber" := s.discNumber, "created" := s.created,
      "albumId" := s.albumId, "artistId" := s.artistId, "type" := s.kind]
  }

  /**
   * `Song(**i)`: i must be a dict holding every declared field; the song keeps
   * exactly the values given for them.
   */
  function SongOf(j: Json): (r: Result<Song>)
    ensures r.Ok? <==> j.JObj? && SongKeys <= j.fields.Keys
    ensures r.Err? ==> r.error == Uncaught("TypeError")
    ensures r.Ok? ==> SongFields(r.value) == map k | k in SongKeys :: j.fields[k]
  {
    if j.JObj? && SongKeys <= j.fields.Keys then
      var m := j.fields;
      Ok(Song(
        m["id"], m["parent"], m["isDir"], m["title"], m["album"], m["artist"],
        m["track"], m["year"], m["genre"], m["coverArt"], m["size"], m["contentType"],
        m["suffix"], m["duration"], m["bitRate"], m["path"], m["isVideo"], m["playCount"],
        m["discNumber"], m["created"], m["albumId"], m["artistId"], m["type"]))
    else
      Err(Uncaught("TypeError"))
  }

  /**
   * The songs of a `getMusicDirectory` response:
   * `[Song(**i) for i in response.get('directory', {}).get('child', [])]`.
   */
  function DirectorySongs(reply: Result<Json>): Result<seq<Song>>
  {
    var response :- reply;
    var items :- ListAt(response, "directory", "child");
    MapResult(items, SongOf)
  }

  /** One song per listed child, in the listed order. */
  lemma DirectorySongsInOrder(response: map<string, Json>, directory: map<string, Json>, children: seq<Json>)
    requires "directory" in response && response["directory"] == JObj(directory)
    requires "child" in directory && directory["child"] == JArr(children)
    requires forall k :: 0 <= k < |children| ==> SongOf(children[k]).Ok?
    ensures var r := DirectorySongs(Ok(JObj(response)));
      && r.Ok? && |r.value| == |children|
      && forall k :: 0 <= k < |children| ==> r.value[k] == SongOf(children[k]).value
  {
  }

  /** A response without `directory`, or a directory without `child`, lists no songs; it is not an error. */
  lemma DirectorySongsMissing(response: map<string, Json>)
    requires "directory" !in response
          || (response["directory"].JObj? && "child" !in response["directory"].fields)
    ensures DirectorySongs(Ok(JObj(response))) == Ok([])
  {
  }

  /** A failed query fails the listing with the same error. */
  lemma DirectorySongsPropagates(e: Error)
    ensures DirectorySongs(Err(e)) == Err(e)
  {
  }
}
