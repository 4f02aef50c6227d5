/**
 * The Playlist object (objects/playlist.py): a frozen record, the query and
 * stream capabilities it was built with, and a `songs` field filled on first
 * access.
 */
module PlaylistObject {
  import opened Options
  import opened Errors
  import opened Json
  import opened Dispatch
  import opened Session
  import opened SongObject

  /** The declared fields of a playlist; `changed` is the one with a default. */
  datatype PlaylistInfo = PlaylistInfo(
    id: Json, name: Json, comment: Json, owner: Json, public: Json, songCount: Json,
    duration: Json, created: Json, coverArt: Json, changed: Json)

  /** The declared fields without a default. */
  const PlaylistKeys: set<string> := {
    "id", "name", "comment", "owner", "public", "songCount", "duration", "created", "coverArt"}

  /** The fields `Playlist(**i, _query=..., _stream=...)` takes from i; `changed` defaults to None. */
  function PlaylistInfoOf(j: Json): (r: Result<PlaylistInfo>)
    ensures r.Ok? <==> j.JObj? && PlaylistKeys <= j.fields.Keys
    ensures r.Err? ==> r.error == Uncaught("TypeError")
    ensures r.Ok? ==>
      var m := j.fields;
      && r.value.id == m["id"] && r.value.name == m["name"] && r.value.comment == m["comment"]
      && r.value.owner == m["owner"] && r.value.public == m["public"]
      && r.value.songCount == m["songCount"] && r.value.duration == m["duration"]
      && r.value.created == m["created"] && r.value.coverArt == m["coverArt"]
      && r.value.changed == (if "changed" in m then m["changed"] else JNull)
  {
    if j.JObj? && PlaylistKeys <= j.fields.Keys then
      var m := j.fields;
      Ok(PlaylistInfo(
        m["id"], m["name"], m["comment"], m["owner"], m["public"], m["songCount"],
        m["duration"], m["created"], m["coverArt"],
        if "changed" in m then m["changed"] else JNull))
    else
      Err(Uncaught("TypeError"))
  }

  class Playlist {
    /** The frozen dataclass fields. */
    const info: PlaylistInfo
    /** The `_query` capability. */
    const query: Dispatcher
    /** The `_stream` capability. */
    const stream: StreamLinker
    /** The memoized `songs`: None until the first successful access. */
    var songs: Option<seq<Song>>

    constructor (info: PlaylistInfo, query: Dispatcher, stream: StreamLinker)
      ensures this.info == info && this.query == query && this.stream == stream && songs == None
    {
      this.info := info;
      this.query := query;
      this.stream := stream;
      songs := None;
    }

    /** The request the first access to `songs` sends. */
    function SongsUrl(): string
    {
      Url(query, "getMusicDirectory", [("id", info.id)])
    }

    /**
     * The `songs` property (lines 25-33). The first access sends one
     * getMusicDirectory request for the playlist's id and keeps the listing;
     * later accesses return the kept listing and send nothing.
     */
    method Songs() returns (r: Result<seq<Song>>)
      modifies this`songs, query.net
      ensures old(songs).Some? ==>
        r == Ok(old(songs).value) && songs == old(songs) && query.net.log == old(query.net.log)
      ensures old(songs).None? ==>
        && query.net.log == old(query.net.log) + [SongsUrl()]
        && r == DirectorySongs(Processed(query.rt, query.net.reply(|old(query.net.log)|, SongsUrl())))
        && songs == (if r.Ok? then Some(r.value) else None)
    {
      if songs.Some? {
        return Ok(songs.value);
      }
      var response := Fetch(query, "getMusicDirectory", [("id", info.id)]);
      r := DirectorySongs(response);
      if r.Ok? {
        songs := Some(r.value);
      }
    }
  }

  /** The records of a list of playlists. */
  function PlaylistInfos(playlists: seq<Playlist>): (r: seq<PlaylistInfo>)
    ensures |r| == |playlists| && forall k :: 0 <= k < |playlists| ==> r[k] == playlists[k].info
  {
    seq(|playlists|, k requires 0 <= k < |playlists| => playlists[k].info)
  }

  /**
   * `[Playlist(**i, _query=query, _stream=stream) for i in items]`: one new,
   * unresolved playlist per item, in order.
   */
  method NewPlaylists(items: seq<Json>, query: Dispatcher, stream: StreamLinker) returns (r: Result<seq<Playlist>>)
    ensures r.Ok? <==> MapResult(items, PlaylistInfoOf).Ok?
    ensures r.Err? ==> r.error == MapResult(items, PlaylistInfoOf).error
    ensures r.Ok? ==> PlaylistInfos(r.value) == MapResult(items, PlaylistInfoOf).value
    ensures r.Ok? ==> forall p :: p in r.value ==>
      fresh(p) && p.songs == None && p.query == query && p.stream == stream
  {
    var playlists: seq<Playlist> := [];
    var i := 0;
    while i < |items|
      invariant 0 <= i <= |items| && |playlists| == i
      invariant forall k :: 0 <= k < i ==>
        PlaylistInfoOf(items[k]).Ok? && playlists[k].info == PlaylistInfoOf(items[k]).value
      invariant forall p :: p in playlists ==>
        fresh(p) && p.songs == None && p.query == query && p.stream == stream
    {
      var info := PlaylistInfoOf(items[i]);
      if info.Err? {
        return Err(info.error);
      }
      var playlist := new Playlist(info.value, query, stream);
      playlists := playlists + [playlist];
      i := i + 1;
    }
    return Ok(playlists);
  }

  /** `changed` is None when the server leaves it out. */
  lemma ChangedDefaultsToNone(m: map<string, Json>)
    requires PlaylistKeys <= m.Keys && "changed" !in m
    ensures PlaylistInfoOf(JObj(m)).Ok? && PlaylistInfoOf(JObj(m)).value.changed == JNull
  {
  }
}
