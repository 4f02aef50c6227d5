/**
 * The client facade: SubsonicClient (subsonic_client.py, lines 53-169), its
 * operations and their caches. What each operation makes of a server reply is
 * a function on values; the methods tie the client's state and the requests it
 * sends to those functions.
 */
module Client {
  import opened Options
  import opened Errors
  import opened Json
  import opened Text
  import opened Transport
  import opened Dispatch
  import opened Session
  import opened SongObject
  import opened PingObject
  import opened AlbumObject
  import opened PlaylistObject
  import opened SearchResultsObject

  /** The keyword defaults of `__init__` (line 54). */
  const DefaultClient := "subsonic-py"
  const DefaultVersion := "1.15.0"
  /** The default `count` of `albums` (line 136). */
  const DefaultAlbumCount := 40

  // ---- ping ----

  /** Lines 71-74: a ConnectionError gives the degraded Ping; any other failure propagates. */
  function PingResult(reply: Result<Json>): Result<PingObject.Ping>
  {
    match reply
    case Err(ConnectionError(_)) => Ok(Degraded)
    case Err(e) => Err(e)
    case Ok(response) => PingOf(response)
  }

  /**
   * The degraded Ping comes back exactly when the query raised ConnectionError:
   * an accepted envelope always has status "ok", so the server can never
   * produce it. Every other error reaches the caller unchanged.
   */
  lemma PingDegradedOnlyOnConnectionError(rt: Runtime, o: Outcome)
    ensures var reply := Processed(rt, o);
      && (PingResult(reply) == Ok(Degraded) <==> reply.Err? && reply.error.ConnectionError?)
      && (reply.Err? && !reply.error.ConnectionError? ==> PingResult(reply) == Err(reply.error))
      && (reply.Ok? ==> PingResult(reply) == PingOf(reply.value))
  {
    var reply := Processed(rt, o);
    if reply.Ok? {
      var response :| CheckStatus(o) == Ok(response);
      EnvelopeOnlyAcceptsOk(rt, response.body.value);
      assert reply.value.fields["status"] == JStr("ok");
      DegradedIsNotOk();
    }
  }

  // ---- search ----

  /** The arguments of `search`, the key of its cache. */
  datatype SearchQuery = SearchQuery(
    text: string,
    artistCount: Option<int>, artistOffset: Option<int>,
    albumCount: Option<int>, albumOffset: Option<int>,
    songCount: Option<int>, songOffset: Option<int>,
    musicFolderId: Option<int>)

  /** An optional integer argument: None is JNull. */
  function OptInt(o: Option<int>): Json
  {
    if o.Some? then JInt(o.value) else JNull
  }

  /** Lines 80-86: the optional arguments of a search by parameter name, in the order the request lists them. */
  function SearchOptions(q: SearchQuery): seq<(string, Option<int>)>
  {
    [ ("artistCount", q.artistCount), ("artistOffset", q.artistOffset),
      ("albumCount", q.albumCount), ("albumOffset", q.albumOffset),
      ("songCount", q.songCount), ("songOffset", q.songOffset),
      ("musicFolderId", q.musicFolderId) ]
  }

  /** Optional arguments as dict entries: None stays in the dict as JNull. */
  function OptionalParams(opts: seq<(string, Option<int>)>): (r: Params)
    ensures |r| == |opts|
    ensures forall k :: 0 <= k < |opts| ==> r[k] == (opts[k].0, OptInt(opts[k].1))
  {
    seq(|opts|, k requires 0 <= k < |opts| => (opts[k].0, OptInt(opts[k].1)))
  }

  /** Lines 78-86: the parameters of the search2 request, in their order. */
  function SearchParams(q: SearchQuery): Params
  {
    [("query", JStr(q.text))] + OptionalParams(SearchOptions(q))
  }

  /** What one optional argument contributes to the request: its entry when given, nothing when None. */
  function Given(opt: (string, Option<int>)): Params
  {
    if opt.1.Some? then [(opt.0, JInt(opt.1.value))] else []
  }

  /** The given optional arguments, in order, as the entries that carry them. */
  function GivenOptions(opts: seq<(string, Option<int>)>): (r: Params)
    ensures forall name, n :: (name, JInt(n)) in r <==> (name, Some(n)) in opts
    ensures forall k :: 0 <= k < |r| ==> r[k].1 != JNull
  {
    if opts == [] then []
    else
      var last := opts[|opts| - 1];
      assert opts == opts[..|opts| - 1] + [last];
      GivenOptions(opts[..|opts| - 1]) + Given(last)
  }

  lemma PresentOptionsStep(head: Params, init: seq<(string, Option<int>)>, last: (string, Option<int>))
    ensures Present(head + OptionalParams(init + [last])) == Present(head + OptionalParams(init)) + Given(last)
  {
    var entry := (last.0, OptInt(last.1));
    assert OptionalParams(init + [last]) == OptionalParams(init) + [entry];
    assert head + OptionalParams(init + [last]) == (head + OptionalParams(init)) + [entry];
    PresentSnoc(head + OptionalParams(init), entry);
  }

  lemma GivenOptionsStep(init: seq<(string, Option<int>)>, last: (string, Option<int>))
    ensures GivenOptions(init + [last]) == GivenOptions(init) + Given(last)
  {
    assert (init + [last])[..|init|] == init;
  }

  /** Whatever precedes them, the optional arguments sent are exactly the given ones, in order. */
  lemma {:induction false} PresentOptions(head: Params, opts: seq<(string, Option<int>)>)
    ensures Present(head + OptionalParams(opts)) == Present(head) + GivenOptions(opts)
  {
    if opts == [] {
      assert head + OptionalParams(opts) == head;
    } else {
      var init, last := opts[..|opts| - 1], opts[|opts| - 1];
      assert opts == init + [last];
      PresentOptions(head, init);
      PresentOptionsStep(head, init, last);
      GivenOptionsStep(init, last);
    }
  }

  /**
   * The search text is always sent first; an optional argument is sent exactly
   * when it is given, in the declared order, and an omitted one never appears.
   */
  lemma SearchSendsGivenArguments(q: SearchQuery)
    ensures Present(SearchParams(q)) == [("query", JStr(q.text))] + GivenOptions(SearchOptions(q))
  {
    PresentOptions([("query", JStr(q.text))], SearchOptions(q));
    assert Present([("query", JStr(q.text))]) == [("query", JStr(q.text))] by {
      assert [("query", JStr(q.text))][..0] == [];
    }
  }

  /** The sections a search result always has. */
  const SectionNames := ["song", "album", "artist"]

  /** Lines 89-91 as a value: every missing section becomes an empty dict; present ones are kept. */
  function Filled(data: map<string, Json>): (r: map<string, Json>)
    ensures r.Keys == data.Keys + {"song", "album", "artist"}
    ensures forall k :: k in data ==> r[k] == data[k]
    ensures forall k :: k in r && k !in data ==> r[k] == EmptyDict
  {
    map k | k in data.Keys + {"song", "album", "artist"} :: if k in data then data[k] else EmptyDict
  }

  /** Filling is idempotent: a filled result has nothing missing, so filling it again changes nothing. */
  lemma FilledIdempotent(data: map<string, Json>)
    ensures Filled(Filled(data)) == Filled(data)
  {
  }

  /** A result that already has all three sections is left as it is. */
  lemma FilledKeepsComplete(data: map<string, Json>)
    requires "song" in data && "album" in data && "artist" in data
    ensures Filled(data) == data
  {
  }

  /** Lines 89-91: the loop that adds each missing section. */
  method FillMissingSections(data: map<string, Json>) returns (r: map<string, Json>)
    ensures r == Filled(data)
  {
    r := data;
    var i := 0;
    while i < |SectionNames|
      invariant 0 <= i <= |SectionNames|
      invariant forall k :: k in r <==> k in data || k in SectionNames[..i]
      invariant forall k :: k in data ==> r[k] == data[k]
      invariant forall k :: k in r && k !in data ==> r[k] == EmptyDict
    {
      var name := SectionNames[i];
      if name !in r {
        r := r[name := EmptyDict];
      }
      assert SectionNames[..i + 1] == SectionNames[..i] + [name];
      i := i + 1;
    }
    assert SectionNames[..i] == SectionNames;
    assert r.Keys == Filled(data).Keys;
  }

  /** Lines 87-96 as a value: what a search makes of the reply to its search2 request. */
  function SearchOf(reply: Result<Json>): Result<Sections>
  {
    var response :- reply;
    var data :- Get(response, "searchResult2", JNull);
    if data.JObj? then
      var sections := Filled(data.fields);
      SectionsOf(sections["artist"], sections["album"], sections["song"])
    else
      Err(Uncaught("TypeError"))
  }

  /** A search result without some section has an empty list there, not an error. */
  lemma MissingSectionIsEmpty(response: map<string, Json>, data: map<string, Json>)
    requires "searchResult2" in response && response["searchResult2"] == JObj(data)
    ensures var r := SearchOf(Ok(JObj(response)));
      && ("artist" !in data && r.Ok? ==> r.value.artists == [])
      && ("album" !in data && r.Ok? ==> r.value.albums == [])
      && ("song" !in data && r.Ok? ==> r.value.songs == [])
  {
    var s := Filled(data);
    if SectionsOf(s["artist"], s["album"], s["song"]).Ok? {
      EmptySectionIsEmpty(s["artist"], s["album"], s["song"]);
    }
  }

  /** A reply without `searchResult2` raises TypeError, from the membership test on None. */
  lemma SearchWithoutResultFails(response: map<string, Json>)
    requires "searchResult2" !in response
    ensures SearchOf(Ok(JObj(response))) == Err(Uncaught("TypeError"))
  {
  }

  // ---- playlists ----

  /** Lines 103-113 as a value: the records of the listed playlists. */
  function PlaylistsOf(reply: Result<Json>): Result<seq<PlaylistInfo>>
  {
    var response :- reply;
    var items :- ListAt(response, "playlists", "playlist");
    MapResult(items, PlaylistInfoOf)
  }

  /** Lines 116-120 as a value: the first playlist with the given name. */
  function FindNamed(ps: seq<PlaylistObject.Playlist>, name: string): (r: Option<PlaylistObject.Playlist>)
    ensures r.None? <==> forall k :: 0 <= k < |ps| ==> ps[k].info.name != JStr(name)
    ensures r.Some? ==>
      exists k :: 0 <= k < |ps| && ps[k] == r.value && r.value.info.name == JStr(name)
        && forall j :: 0 <= j < k ==> ps[j].info.name != JStr(name)
  {
    if ps == [] then None
    else if ps[0].info.name == JStr(name) then Some(ps[0])
    else
      var r := FindNamed(ps[1..], name);
      assert r.Some? ==> exists k :: (0 <= k < |ps| && ps[k] == r.value && r.value.info.name == JStr(name)
        && forall j :: 0 <= j < k ==> ps[j].info.name != JStr(name))
      by {
        if r.Some? {
          var k :| 0 <= k < |ps[1..]| && ps[1..][k] == r.value && r.value.info.name == JStr(name)
            && forall j :: 0 <= j < k ==> ps[1..][j].info.name != JStr(name);
          assert ps[k + 1] == r.value;
          forall j | 0 <= j < k + 1
            ensures ps[j].info.name != JStr(name)
          {
            if j > 0 {
              assert ps[j] == ps[1..][j - 1];
            }
          }
        }
      }
      r
  }

  // ---- license ----

  /** Line 124 as a value: the `license` entry, or "" when there is none. */
  function LicenseOf(reply: Result<Json>): Result<Json>
  {
    var response :- reply;
    Get(response, "license", JStr(""))
  }

  // ---- folders ----

  /** One entry of the folders comprehension: `i['name']` first, then `i['id']`, then the key is hashed. */
  function FolderEntry(item: Json): Result<(Json, Json)>
  {
    match item
    case JObj(m) =>
      if "name" !in m || "id" !in m then Err(Uncaught("KeyError"))
      else if !Hashable(m["name"]) then Err(Uncaught("TypeError"))
      else Ok((m["name"], m["id"]))
    case _ => Err(Uncaught("TypeError"))
  }

  /** Lines 131-133 as a value: the name-to-id map, built in order, so a later entry overwrites. */
  function FoldersOf(items: seq<Json>): (r: Result<map<Json, Json>>)
    ensures r.Ok? <==> forall k :: 0 <= k < |items| ==> FolderEntry(items[k]).Ok?
    ensures r.Ok? ==> r.value.Keys == set k | 0 <= k < |items| :: FolderEntry(items[k]).value.0
  {
    if items == [] then Ok(map[])
    else
      var init, last := items[..|items| - 1], items[|items| - 1];
      var m :- FoldersOf(init);
      var e :- FolderEntry(last);
      assert forall k :: 0 <= k < |init| ==> init[k] == items[k];
      assert (set k | 0 <= k < |items| :: FolderEntry(items[k]).value.0)
          == (set k | 0 <= k < |init| :: FolderEntry(init[k]).value.0) + {e.0} by {
        assert items[|items| - 1] == last;
      }
      Ok(m[e.0 := e.1])
  }

  /** For a name listed more than once, the folders map keeps the id of its last entry. */
  lemma {:induction false} FoldersLastWins(items: seq<Json>, k: nat)
    requires FoldersOf(items).Ok? && k < |items|
    requires forall j :: k < j < |items| ==> FolderEntry(items[j]).value.0 != FolderEntry(items[k]).value.0
    ensures FoldersOf(items).value[FolderEntry(items[k]).value.0] == FolderEntry(items[k]).value.1
  {
    var init, last := items[..|items| - 1], items[|items| - 1];
    if k < |items| - 1 {
      assert forall j :: 0 <= j < |init| ==> init[j] == items[j];
      FoldersLastWins(init, k);
    }
  }

  /** Lines 128-133 as a value: the folders map from the getMusicFolders reply. */
  function FolderListOf(reply: Result<Json>): Result<map<Json, Json>>
  {
    var response :- reply;
    var items :- ListAt(response, "musicFolders", "musicFolder");
    FoldersOf(items)
  }

  // ---- albums ----

  /** Line 137: `folders.get(folder)`; a None id and a missing name both give JNull. */
  function FolderId(folders: map<Json, Json>, folder: string): Json
  {
    if JStr(folder) in folders then folders[JStr(folder)] else JNull
  }

  /** Line 139: the error for a folder the server does not list. */
  function UnknownFolder(folder: string): Error
  {
    ResponseError("Folder \"" + folder + "\" does not exist.")
  }

  /** Lines 141-146: the parameters of the getAlbumList request for a page. */
  function AlbumListParams(page: int, count: int, folderId: Json): Params
  {
    [("type", JStr("alphabeticalByName")), ("size", JInt(count)),
     ("offset", JInt(page * count)), ("musicFolderId", folderId)]
  }

  /** A page of albums asks for `count` albums starting at album `page * count` of the folder. */
  lemma AlbumListRequest(rt: Runtime, page: int, count: int, folderId: Json)
    requires folderId != JNull
    ensures Assignments(rt, AlbumListParams(page, count, folderId)) == [
      "type=" + rt.quotePlus("alphabeticalByName"),
      "size=" + rt.quotePlus(Decimal(count)),
      "offset=" + rt.quotePlus(Decimal(page * count)),
      "musicFolderId=" + rt.quotePlus(Str(rt.repr, folderId))]
  {
    var ps := AlbumListParams(page, count, folderId);
    FourSent(rt, ps);
    assert "type" + "=" == "type=" && "size" + "=" == "size=";
    assert "offset" + "=" == "offset=" && "musicFolderId" + "=" == "musicFolderId=";
  }

  /** Four parameters, none of them None, give four assignments in order. */
  lemma FourSent(rt: Runtime, ps: Params)
    requires |ps| == 4 && forall k :: 0 <= k < 4 ==> ps[k].1 != JNull
    ensures Assignments(rt, ps) == [Assignment(rt, ps[0]), Assignment(rt, ps[1]), Assignment(rt, ps[2]), Assignment(rt, ps[3])]
  {
    PresentAllSent(ps);
  }

  /** Lines 146-155 as a value: the records of the listed albums. */
  function AlbumListOf(reply: Result<Json>): Result<seq<AlbumInfo>>
  {
    var response :- reply;
    var items :- ListAt(response, "albumList", "album");
    MapResult(items, AlbumInfoOf)
  }

  // ---- album ----

  /** Lines 159-169 as a value: the record of the album in a getAlbum reply. */
  function AlbumOf(reply: Result<Json>): Result<AlbumInfo>
  {
    var response :- reply;
    var data :- Get(response, "album", JNull);
    AlbumInfoOf(data)
  }

  /** A reply without an `album` entry raises TypeError (`Album(**None)`). */
  lemma AlbumWithoutRecordFails(response: map<string, Json>)
    requires "album" !in response
    ensures AlbumOf(Ok(JObj(response))) == Err(Uncaught("TypeError"))
  {
  }

  // ---- What the caches hold ----

  /** Every album of every stored search result holds the capability `query`. */
  ghost predicate SearchesCarry(cache: map<SearchQuery, SearchResults>, query: Dispatcher)
  {
    forall q, a :: q in cache && a in cache[q].albums ==> a.query == query
  }

  /** Every stored playlist holds the capabilities `query` and `stream`. */
  ghost predicate PlaylistsCarry(cache: Option<seq<PlaylistObject.Playlist>>, query: Dispatcher, stream: StreamLinker)
  {
    cache.Some? ==> forall p :: p in cache.value ==> p.query == query && p.stream == stream
  }

  /** Every album of every stored page holds the capability `query`. */
  ghost predicate AlbumListsCarry(cache: map<(string, int, int), seq<AlbumObject.Album>>, query: Dispatcher)
  {
    forall key, a :: key in cache && a in cache[key] ==> a.query == query
  }

  /** Every stored album holds the capability `query`. */
  ghost predicate AlbumsCarry(cache: map<string, AlbumObject.Album>, query: Dispatcher)
  {
    forall id :: id in cache ==> cache[id].query == query
  }

  lemma SearchesCarryStore(cache: map<SearchQuery, SearchResults>, q: SearchQuery, r: SearchResults, query: Dispatcher)
    requires SearchesCarry(cache, query)
    requires forall a :: a in r.albums ==> a.query == query
    ensures SearchesCarry(cache[q := r], query)
  {
  }

  lemma AlbumListsCarryStore(cache: map<(string, int, int), seq<AlbumObject.Album>>, key: (string, int, int),
                             albums: seq<AlbumObject.Album>, query: Dispatcher)
    requires AlbumListsCarry(cache, query)
    requires forall a :: a in albums ==> a.query == query
    ensures AlbumListsCarry(cache[key := albums], query)
  {
  }

  lemma AlbumsCarryStore(cache: map<string, AlbumObject.Album>, id: string, album: AlbumObject.Album, query: Dispatcher)
    requires AlbumsCarry(cache, query) && album.query == query
    ensures AlbumsCarry(cache[id := album], query)
  {
  }

  class SubsonicClient {
    const connectionUri: string
    const restParams: string
    const rt: Runtime
    const net: Network

    /** The lru_cache of `search`, keyed by its arguments. */
    var searchCache: map<SearchQuery, SearchResults>
    /** The cached_property `playlists`. */
    var playlistsCache: Option<seq<PlaylistObject.Playlist>>
    /** The cached_property `license`. */
    var licenseCache: Option<Json>
    /** The cached_property `folders`. */
    var foldersCache: Option<map<Json, Json>>
    /** The lru_cache of `albums`, keyed by (folder, page, count). */
    var albumsCache: map<(string, int, int), seq<AlbumObject.Album>>
    /** The lru_cache of `album`, keyed by the album id. */
    var albumCache: map<string, AlbumObject.Album>

    /** `_get_subsonic_query_func(self.connection_uri, self.rest_params)` */
    function QueryFunc(): Dispatcher
    {
      Dispatcher(connectionUri, restParams, net, rt)
    }

    /** `_get_subsonic_stream_link_func(self.connection_uri, self.rest_params)` */
    function StreamFunc(): StreamLinker
    {
      StreamLinker(connectionUri, restParams)
    }

    /** The URL a query of this client sends. */
    function RequestUrl(action: string, ps: Params): string
    {
      Url(QueryFunc(), action, ps)
    }

    /** Every object the client has handed out reaches the server through this client's session. */
    ghost predicate Valid()
      reads this`searchCache, this`playlistsCache, this`albumsCache, this`albumCache
    {
      && SearchesCarry(searchCache, QueryFunc())
      && PlaylistsCarry(playlistsCache, QueryFunc(), StreamFunc())
      && AlbumListsCarry(albumsCache, QueryFunc())
      && AlbumsCarry(albumCache, QueryFunc())
    }

    /**
     * Lines 54-65. `draw` is the value random.randrange(16**32) returned and
     * `md5Hex` stands for the md5 hex digest of a string; neither is computed here.
     */
    constructor (host: string, username: string, password: string,
                 draw: nat, md5Hex: string -> string, rt: Runtime, net: Network,
                 client: string := DefaultClient, version: string := DefaultVersion)
      ensures connectionUri == host && this.rt == rt && this.net == net
      ensures restParams == RestParams(username, Token(md5Hex, password, Salt(draw)), Salt(draw), client, version)
      ensures searchCache == map[] && playlistsCache == None && licenseCache == None
      ensures foldersCache == None && albumsCache == map[] && albumCache == map[]
      ensures Valid()
    {
      var salt := Salt(draw);
      var md5sum := md5Hex(password + salt);
      restParams := RestParams(username, md5sum, salt, client, version);
      connectionUri := host;
      this.rt := rt;
      this.net := net;
      searchCache := map[];
      playlistsCache := None;
      licenseCache := None;
      foldersCache := None;
      albumsCache := map[];
      albumCache := map[];
    }

    /** Lines 67-68: one request through this client's session. */
    method Query(action: string, ps: Params, process: bool) returns (r: Result<Reply>)
      modifies net
      ensures net.log == old(net.log) + [RequestUrl(action, ps)]
      ensures r == Classify(rt, net.reply(|old(net.log)|, RequestUrl(action, ps)), process)
    {
      r := Call(QueryFunc(), action, ps, process);
    }

    /** Lines 70-74: one ping request, degraded to the failed Ping on a connection error. */
    method Ping() returns (r: Result<PingObject.Ping>)
      modifies net
      ensures net.log == old(net.log) + [RequestUrl("ping", [])]
      ensures r == PingResult(Processed(rt, net.reply(|old(net.log)|, RequestUrl("ping", []))))
    {
      var response := Fetch(QueryFunc(), "ping", []);
      if response.Err? {
        if response.error.ConnectionError? {
          return Ok(Degraded);
        }
        return Err(response.error);
      }
      r := PingOf(response.value);
    }

    /**
     * Lines 76-99. Repeated arguments return the stored result and send nothing;
     * otherwise one search2 request is sent, and a result is stored only when the
     * call succeeds.
     */
    method Search(q: SearchQuery) returns (r: Result<SearchResults>)
      requires Valid()
      modifies this`searchCache, net
      ensures Valid()
      ensures q in old(searchCache) ==>
        r == Ok(old(searchCache)[q]) && searchCache == old(searchCache) && net.log == old(net.log)
      ensures q !in old(searchCache) ==>
        var url := RequestUrl("search2", SearchParams(q));
        var expected := SearchOf(Processed(rt, net.reply(|old(net.log)|, url)));
        && net.log == old(net.log) + [url]
        && (r.Ok? <==> expected.Ok?)
        && (r.Err? ==> r.error == expected.error && searchCache == old(searchCache))
        && (r.Ok? ==> View(r.value) == expected.value && searchCache == old(searchCache)[q := r.value])
        && (r.Ok? ==> forall a :: a in r.value.albums ==> fresh(a) && a.songs == None)
    {
      if q in searchCache {
        return Ok(searchCache[q]);
      }
      var response := Fetch(QueryFunc(), "search2", SearchParams(q));
      if response.Err? {
        return Err(response.error);
      }
      var data := Get(response.value, "searchResult2", JNull);
      if data.Err? {
        return Err(data.error);
      }
      if !data.value.JObj? {
        return Err(Uncaught("TypeError"));
      }
      var sections := FillMissingSections(data.value.fields);
      r := NewSearchResults(sections["artist"], sections["album"], sections["song"], QueryFunc());
      if r.Ok? {
        SearchesCarryStore(searchCache, q, r.value, QueryFunc());
        searchCache := searchCache[q := r.value];
      }
    }

    /**
     * Lines 101-113: the first successful access sends one getPlaylists request
     * and keeps the playlists; later accesses send nothing.
     */
    method Playlists() returns (r: Result<seq<PlaylistObject.Playlist>>)
      requires Valid()
      modifies this`playlistsCache, net
      ensures Valid()
      ensures old(playlistsCache).Some? ==>
        r == Ok(old(playlistsCache).value) && playlistsCache == old(playlistsCache) && net.log == old(net.log)
      ensures old(playlistsCache).None? ==>
        var url := RequestUrl("getPlaylists", []);
        var expected := PlaylistsOf(Processed(rt, net.reply(|old(net.log)|, url)));
        && net.log == old(net.log) + [url]
        && (r.Ok? <==> expected.Ok?)
        && (r.Err? ==> r.error == expected.error && playlistsCache == None)
        && (r.Ok? ==> PlaylistInfos(r.value) == expected.value && playlistsCache == Some(r.value))
        && (r.Ok? ==> forall p :: p in r.value ==> fresh(p) && p.songs == None)
    {
      if playlistsCache.Some? {
        return Ok(playlistsCache.value);
      }
      var response := Fetch(QueryFunc(), "getPlaylists", []);
      if response.Err? {
        return Err(response.error);
      }
      var items := ListAt(response.value, "playlists", "playlist");
      if items.Err? {
        return Err(items.error);
      }
      r := NewPlaylists(items.value, QueryFunc(), StreamFunc());
      if r.Ok? {
        playlistsCache := Some(r.value);
      }
    }

    /**
     * Lines 115-120: the first of `playlists` named `name`, or None; loading the
     * playlists behaves as in Playlists.
     */
    method Playlist(name: string) returns (r: Result<Option<PlaylistObject.Playlist>>)
      requires Valid()
      modifies this`playlistsCache, net
      ensures Valid()
      ensures r.Ok? <==> playlistsCache.Some?
      ensures r.Ok? ==> r.value == FindNamed(playlistsCache.value, name)
      ensures old(playlistsCache).Some? ==> playlistsCache == old(playlistsCache) && net.log == old(net.log)
      ensures old(playlistsCache).None? ==>
        var url := RequestUrl("getPlaylists", []);
        var expected := PlaylistsOf(Processed(rt, net.reply(|old(net.log)|, url)));
        && net.log == old(net.log) + [url]
        && (r.Ok? <==> expected.Ok?)
        && (r.Err? ==> r.error == expected.error)
        && (r.Ok? ==> PlaylistInfos(playlistsCache.value) == expected.value)
    {
      var all := Playlists();
      if all.Err? {
        return Err(all.error);
      }
      var ps := all.value;
      var i := 0;
      while i < |ps|
        invariant 0 <= i <= |ps|
        invariant FindNamed(ps, name) == FindNamed(ps[i..], name)
      {
        if ps[i].info.name == JStr(name) {
          return Ok(Some(ps[i]));
        }
        assert ps[i..][1..] == ps[i + 1..];
        i := i + 1;
      }
      return Ok(None);
    }

    /** Lines 122-124: the first successful access sends one getLicense request; later ones send nothing. */
    method License() returns (r: Result<Json>)
      modifies this`licenseCache, net
      ensures old(licenseCache).Some? ==>
        r == Ok(old(licenseCache).value) && licenseCache == old(licenseCache) && net.log == old(net.log)
      ensures old(licenseCache).None? ==>
        var url := RequestUrl("getLicense", []);
        && net.log == old(net.log) + [url]
        && r == LicenseOf(Processed(rt, net.reply(|old(net.log)|, url)))
        && licenseCache == (if r.Ok? then Some(r.value) else None)
    {
      if licenseCache.Some? {
        return Ok(licenseCache.value);
      }
      var response := Fetch(QueryFunc(), "getLicense", []);
      if response.Err? {
        return Err(response.error);
      }
      r := Get(response.value, "license", JStr(""));
      if r.Ok? {
        licenseCache := Some(r.value);
      }
    }

    /** Lines 126-133: the first successful access sends one getMusicFolders request; later ones send nothing. */
    method Folders() returns (r: Result<map<Json, Json>>)
      modifies this`foldersCache, net
      ensures old(foldersCache).Some? ==>
        r == Ok(old(foldersCache).value) && foldersCache == old(foldersCache) && net.log == old(net.log)
      ensures old(foldersCache).None? ==>
        var url := RequestUrl("getMusicFolders", []);
        && net.log == old(net.log) + [url]
        && r == FolderListOf(Processed(rt, net.reply(|old(net.log)|, url)))
        && foldersCache == (if r.Ok? then Some(r.value) else None)
    {
      if foldersCache.Some? {
        return Ok(foldersCache.value);
      }
      var response := Fetch(QueryFunc(), "getMusicFolders", []);
      if response.Err? {
        return Err(response.error);
      }
      var items := ListAt(response.value, "musicFolders", "musicFolder");
      if items.Err? {
        return Err(items.error);
      }
      var folders: map<Json, Json> := map[];
      var i := 0;
      while i < |items.value|
        invariant 0 <= i <= |items.value|
        invariant FoldersOf(items.value[..i]) == Ok(folders)
      {
        var entry := FolderEntry(items.value[i]);
        assert items.value[..i + 1][..i] == items.value[..i];
        if entry.Err? {
          assert FoldersOf(items.value[..i + 1]) == Err(entry.error);
          r := Err(entry.error);
          FoldersFailFromPrefix(items.value, i + 1);
          return;
        }
        folders := folders[entry.value.0 := entry.value.1];
        i := i + 1;
      }
      assert items.value[..i] == items.value;
      r := Ok(folders);
      foldersCache := Some(folders);
    }

    /** Lines 141-155: one getAlbumList request for a page of a known folder, and its albums. */
    method AlbumPage(folderId: Json, page: int, count: int) returns (r: Result<seq<AlbumObject.Album>>)
      modifies net
      ensures var url := RequestUrl("getAlbumList", AlbumListParams(page, count, folderId));
        var expected := AlbumListOf(Processed(rt, net.reply(|old(net.log)|, url)));
        && net.log == old(net.log) + [url]
        && (r.Ok? <==> expected.Ok?)
        && (r.Err? ==> r.error == expected.error)
        && (r.Ok? ==> AlbumInfos(r.value) == expected.value)
        && (r.Ok? ==> forall a :: a in r.value ==> fresh(a) && a.songs == None && a.query == QueryFunc())
    {
      var response := Fetch(QueryFunc(), "getAlbumList", AlbumListParams(page, count, folderId));
      if response.Err? {
        return Err(response.error);
      }
      var items := ListAt(response.value, "albumList", "album");
      if items.Err? {
        return Err(items.error);
      }
      r := NewAlbums(items.value, QueryFunc());
    }

    /**
     * Lines 137-155 once the folders are known: an unknown folder raises
     * ResponseError and sends nothing; a known one sends one getAlbumList request.
     */
    method FolderPage(folders: map<Json, Json>, folder: string, page: int, count: int)
      returns (r: Result<seq<AlbumObject.Album>>)
      modifies net
      ensures FolderId(folders, folder) == JNull ==> r == Err(UnknownFolder(folder)) && net.log == old(net.log)
      ensures FolderId(folders, folder) != JNull ==>
        var url := RequestUrl("getAlbumList", AlbumListParams(page, count, FolderId(folders, folder)));
        var expected := AlbumListOf(Processed(rt, net.reply(|old(net.log)|, url)));
        && net.log == old(net.log) + [url]
        && (r.Ok? <==> expected.Ok?)
        && (r.Err? ==> r.error == expected.error)
        && (r.Ok? ==> AlbumInfos(r.value) == expected.value)
      ensures r.Ok? ==> forall a :: a in r.value ==> fresh(a) && a.songs == None && a.query == QueryFunc()
    {
      var folderId := FolderId(folders, folder);
      if folderId == JNull {
        return Err(UnknownFolder(folder));
      }
      r := AlbumPage(folderId, page, count);
    }

    /**
     * What `albums` does on a cache miss (lines 137-155): the folders are
     * loaded as Folders loads them; an unknown folder raises ResponseError
     * before any getAlbumList request; a known one sends exactly one
     * getAlbumList request for the page.
     */
    ghost predicate AlbumsLoaded(folder: string, page: int, count: int,
                                 foldersBefore: Option<map<Json, Json>>, logBefore: seq<string>,
                                 foldersAfter: Option<map<Json, Json>>, logAfter: seq<string>,
                                 r: Result<seq<AlbumObject.Album>>)
    {
      var foldersUrl := RequestUrl("getMusicFolders", []);
      var loaded := if foldersBefore.Some? then Ok(foldersBefore.value)
                    else FolderListOf(Processed(rt, net.reply(|logBefore|, foldersUrl)));
      var afterFolders := if foldersBefore.Some? then logBefore else logBefore + [foldersUrl];
      && foldersAfter == (if loaded.Ok? then Some(loaded.value) else None)
      && (loaded.Err? ==> r == Err(loaded.error) && logAfter == afterFolders)
      && (loaded.Ok? && FolderId(loaded.value, folder) == JNull ==>
            r == Err(UnknownFolder(folder)) && logAfter == afterFolders)
      && (loaded.Ok? && FolderId(loaded.value, folder) != JNull ==>
            var url := RequestUrl("getAlbumList", AlbumListParams(page, count, FolderId(loaded.value, folder)));
            var expected := AlbumListOf(Processed(rt, net.reply(|afterFolders|, url)));
            && logAfter == afterFolders + [url]
            && (r.Ok? <==> expected.Ok?)
            && (r.Err? ==> r.error == expected.error)
            && (r.Ok? ==> AlbumInfos(r.value) == expected.value))
    }

    /** Lines 137-155: load the folders, check the folder, fetch the page. */
    method LoadAlbums(folder: string, page: int, count: int) returns (r: Result<seq<AlbumObject.Album>>)
      modifies this`foldersCache, net
      ensures AlbumsLoaded(folder, page, count, old(foldersCache), old(net.log), foldersCache, net.log, r)
      ensures r.Ok? ==> forall a :: a in r.value ==> fresh(a) && a.songs == None && a.query == QueryFunc()
    {
      var folders := Folders();
      if folders.Err? {
        return Err(folders.error);
      }
      r := FolderPage(folders.value, folder, page, count);
    }

    /**
     * Lines 135-155. Repeated arguments return the stored list and send nothing;
     * otherwise the call behaves as AlbumsLoaded describes, and a successful
     * result is stored under its arguments.
     */
    method Albums(folder: string, page: int, count: int := DefaultAlbumCount) returns (r: Result<seq<AlbumObject.Album>>)
      requires Valid()
      modifies this`albumsCache, this`foldersCache, net
      ensures Valid()
      ensures (folder, page, count) in old(albumsCache) ==>
        && r == Ok(old(albumsCache)[(folder, page, count)])
        && albumsCache == old(albumsCache) && foldersCache == old(foldersCache) && net.log == old(net.log)
      ensures (folder, page, count) !in old(albumsCache) ==>
        && AlbumsLoaded(folder, page, count, old(foldersCache), old(net.log), foldersCache, net.log, r)
        && (r.Ok? ==> albumsCache == old(albumsCache)[(folder, page, count) := r.value])
        && (r.Ok? ==> forall a :: a in r.value ==> fresh(a) && a.songs == None)
        && (r.Err? ==> albumsCache == old(albumsCache))
    {
      if (folder, page, count) in albumsCache {
        return Ok(albumsCache[(folder, page, count)]);
      }
      r := LoadAlbums(folder, page, count);
      if r.Ok? {
        StoreAlbums((folder, page, count), r.value);
      }
    }

    /** Stores a page of albums under its arguments. */
    method StoreAlbums(key: (string, int, int), albums: seq<AlbumObject.Album>)
      requires Valid() && forall a :: a in albums ==> a.query == QueryFunc()
      modifies this`albumsCache
      ensures albumsCache == old(albumsCache)[key := albums] && Valid()
    {
      AlbumListsCarryStore(albumsCache, key, albums, QueryFunc());
      albumsCache := albumsCache[key := albums];
    }

    /**
     * Lines 157-169. A repeated id returns the stored album and sends nothing;
     * otherwise one getAlbum request is sent and a successful result stored.
     */
    method Album(albumId: string) returns (r: Result<AlbumObject.Album>)
      requires Valid()
      modifies this`albumCache, net
      ensures Valid()
      ensures albumId in old(albumCache) ==>
        r == Ok(old(albumCache)[albumId]) && albumCache == old(albumCache) && net.log == old(net.log)
      ensures albumId !in old(albumCache) ==>
        var url := RequestUrl("getAlbum", [("id", JStr(albumId))]);
        var expected := AlbumOf(Processed(rt, net.reply(|old(net.log)|, url)));
        && net.log == old(net.log) + [url]
        && (r.Ok? <==> expected.Ok?)
        && (r.Err? ==> r.error == expected.error && albumCache == old(albumCache))
        && (r.Ok? ==> r.value.info == expected.value && fresh(r.value) && r.value.songs == None)
        && (r.Ok? ==> albumCache == old(albumCache)[albumId := r.value])
    {
      if albumId in albumCache {
        return Ok(albumCache[albumId]);
      }
      var response := Fetch(QueryFunc(), "getAlbum", [("id", JStr(albumId))]);
      if response.Err? {
        return Err(response.error);
      }
      var data := Get(response.value, "album", JNull);
      if data.Err? {
        return Err(data.error);
      }
      var info := AlbumInfoOf(data.value);
      if info.Err? {
        return Err(info.error);
      }
      var album := new AlbumObject.Album(info.value, QueryFunc());
      r := Ok(album);
      AlbumsCarryStore(albumCache, albumId, album, QueryFunc());
      albumCache := albumCache[albumId := album];
    }
  }

  /** Once a prefix of the folder items fails, the whole comprehension fails with the same error. */
  lemma {:induction false} FoldersFailFromPrefix(items: seq<Json>, n: nat)
    requires n <= |items| && FoldersOf(items[..n]).Err?
    ensures FoldersOf(items) == FoldersOf(items[..n])
    decreases |items| - n
  {
    if n < |items| {
      assert items[..n + 1][..n] == items[..n];
      FoldersFailFromPrefix(items, n + 1);
    } else {
      assert items[..n] == items;
    }
  }
}
