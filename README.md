# Subsonic client: a verified model

This project models the core of a Python client for the Subsonic music-server
API. The client signs every request with a salted token. It builds request
URLs from an action and its parameters, and checks the HTTP status and the
`subsonic-response` envelope of each reply. It wraps results as albums,
playlists, songs, pings and search results, and keeps several caches so that
repeated calls do not reach the server again.

The model is split into Dafny modules that follow the source files:

- `Errors` (errors.dfy): the exceptions of `exceptions.py`, plus the Python
  exceptions the client lets escape. It also has the `Result` type that every
  operation returns.
- `Json` (json.dfy): decoded JSON values, and the few Python operations the
  client applies to them (`dict.get`, subscripting, iteration, `str`).
- `Text` (text.dfy): printing integers in base 10 and 16, `str.strip`, padding
  and `str.split`.
- `Transport` (transport.dfy): the network. It is a log of requested URLs plus
  an oracle that says how the n-th request ends.
- `Dispatch` (dispatch.dfy): the `query` closure. It builds the URL, sends one
  request, and classifies the status and the envelope.
- `Session` (session.dfy): the salt, the token, `rest_params` and the stream
  link.
- `SongObject`, `PingObject`, `AlbumObject`, `PlaylistObject`,
  `SearchResultsObject`: the record types of `objects/`. An album and a
  playlist are classes whose `songs` field is filled on first access.
- `Client` (client.dfy): the `SubsonicClient` class, its operations and its
  caches. What an operation makes of a reply is a function on values; each
  method ties the client's state and the requests it sends to that function.

Foreign functions are parameters of the model: `quote_plus`, `repr` of lists
and dicts, the md5 hex digest, and the random draw of the salt. The network is
an oracle. "Sends nothing" means the network log is unchanged.

Some behaviour of the code is easy to miss:

- An unknown folder raises `ResponseError`. On first use of `albums`, the
  `getMusicFolders` request is still sent before the folder is checked. Only
  the `getAlbumList` request is skipped.
- `ping` turns only a `ConnectionError` into the failed Ping. A
  `ResponseError` or any other exception reaches the caller.
- The salt is not always 32 hex digits. `'%32x'` pads with spaces and `strip`
  removes them, so the salt has 1 to 32 digits and no leading zero.
- A playlist always fetches its songs with `getMusicDirectory`. It never reads
  an embedded entry list.

## Model

| member | source | states |
|---|---|---|
| Errors.Message | exceptions.py:1-3 | Definition of the text of a session error; its property is in Errors.MessageInjective. |
| Errors.MessageInjective | exceptions.py:1-11 | Two session errors of the same class with the same text carry the same reason. |
| Errors.MapResult | objects/album.py:29 | A comprehension whose constructor may raise succeeds exactly when every element builds. It then keeps length and order. Otherwise it raises the error of the first element that fails. |
| Json.ListAt | subsonic_client.py:103-104 | `get(outer, {}).get(inner, [])`: a missing outer or inner key gives an empty list, a present list comes back unchanged, and a non-dict raises AttributeError. |
| Transport.Network.Get | subsonic_client.py:21 | One GET request: the URL is appended to the log and the outcome is the oracle's answer for that request. |
| Dispatch.Present | subsonic_client.py:16-17 | The parameters sent are exactly the non-None ones, none added. |
| Dispatch.Assignments | subsonic_client.py:18 | Definition of the fields a request carries after rest_params; its properties are in Dispatch.AssignmentsStep and Dispatch.QueryStringFields. |
| Dispatch.AssignmentsStep | subsonic_client.py:16-18 | A further None parameter adds no field. A further sent parameter adds exactly its own `name=quote_plus(str(value))`, at the end. |
| Dispatch.QueryStringFields | subsonic_client.py:15-18 | Split at '&', the query string is the fields of rest_params followed by one assignment per non-None parameter, in order. A None parameter never appears. |
| Dispatch.Url | subsonic_client.py:15-18 | Definition of the request URL; its properties are in Dispatch.BuildUrl and Dispatch.QueryStringFields. |
| Dispatch.BuildUrl | subsonic_client.py:15-18 | The appending loop builds `{uri}/rest/{action}.view?{rest_params}` followed by the suffix of non-None assignments. |
| Dispatch.CheckStatus | subsonic_client.py:20-29 | Only a response with a status in 200-299 passes the status check. |
| Dispatch.Envelope | subsonic_client.py:36-44 | Definition of the envelope check; its properties are in Dispatch.EnvelopeAccepts, Dispatch.EnvelopeOnlyAcceptsOk, Dispatch.EnvelopeDeclaredError, Dispatch.EnvelopeMissingKey and Dispatch.EnvelopeNeverConnectionError. |
| Dispatch.Processed | subsonic_client.py:27-44 | Definition of a query with process=True; its properties are in Dispatch.ClassifyProcessed and Dispatch.Fetch. |
| Dispatch.Classify | subsonic_client.py:27-44 | Definition of what a query returns for an outcome; its properties are in Dispatch.ConnectionErrors, Dispatch.RawSkipsEnvelope, Dispatch.ClassifyProcessed and Dispatch.Call. |
| Dispatch.Send | subsonic_client.py:15-21 | Exactly one request is sent, to the URL built for the action and parameters. |
| Dispatch.Call | subsonic_client.py:14-44 | The query closure sends one request, and its result is the classification of that request's outcome. |
| Dispatch.Fetch | subsonic_client.py:14-44 | The same with process=True: the result is the checked envelope of the outcome. |
| Dispatch.ConnectionErrors | subsonic_client.py:22-29 | A ConnectionError comes back exactly for an unreachable server, a timeout, or a status outside 200-299. A bad status is named in the message. |
| Dispatch.EnvelopeNeverConnectionError | subsonic_client.py:36-44 | Checking the envelope never raises ConnectionError. |
| Dispatch.RawSkipsEnvelope | subsonic_client.py:31-32 | With process=False, a 2xx response returns its raw content whatever the body holds. |
| Dispatch.ClassifyProcessed | subsonic_client.py:31-44 | With process=True the result is the processed reply, wrapped as data. |
| Dispatch.EnvelopeAccepts | subsonic_client.py:37-41 | Status "ok" returns the whole `subsonic-response` object. |
| Dispatch.EnvelopeOnlyAcceptsOk | subsonic_client.py:36-41 | Only status "ok" is accepted, and then the value returned is `subsonic-response` itself. |
| Dispatch.EnvelopeDeclaredError | subsonic_client.py:37-39 | Any other status raises ResponseError carrying the server's error message. |
| Dispatch.EnvelopeMissingKey | subsonic_client.py:42-44 | A missing `subsonic-response`, `status`, `error` or `message` key raises ResponseError naming that key. |
| Text.NumeralRoundTrip | subsonic_client.py:56 | Reading a printed numeral back gives the number it was printed from. |
| Text.StripPadded | subsonic_client.py:56 | Stripping left padding gives back text that does not start or end with whitespace. |
| Text.SplitJoin | subsonic_client.py:63-64 | Splitting a join of separator-free parts gives the parts back. |
| Session.Salt | subsonic_client.py:55-56 | Definition of the salt; its properties are in Session.SaltIsHex and Session.SaltShortBelow. |
| Session.SaltIsHex | subsonic_client.py:55-56 | The salt is the bare lowercase hex of the draw: 1 to 32 digits, no leading zero, reads back as the draw. |
| Session.SaltShortBelow | subsonic_client.py:55-56 | Every draw below 16^31 gives a salt shorter than 32 digits. |
| Session.RestParams | subsonic_client.py:63-64 | Definition of rest_params; its property is in Session.RestParamsFields. |
| Session.RestParamsFields | subsonic_client.py:63-64 | Split at '&', rest_params is exactly u, t, s, c, v and f=json, in that order, when no value contains '&'. |
| Session.StreamLinker.Link | subsonic_client.py:49-50 | Definition of the stream link; its property is in Session.LinkInjective. |
| Session.LinkInjective | subsonic_client.py:49-50 | The stream link embeds the song id unencoded, so different ids give different links. |
| SongObject.SongOf | objects/song.py:5-29 | `Song(**i)` succeeds exactly when i is a dict holding every declared field, and keeps exactly those values. Otherwise it raises TypeError. |
| SongObject.DirectorySongs | objects/album.py:25-29 | Definition of the song listing; its properties are in SongObject.DirectorySongsInOrder, SongObject.DirectorySongsMissing and SongObject.DirectorySongsPropagates. |
| SongObject.DirectorySongsInOrder | objects/album.py:25-29 | One song per child of the directory listing, in the listed order. |
| SongObject.DirectorySongsMissing | objects/album.py:27 | A reply without `directory`, or a directory without `child`, gives an empty list, not an error. |
| SongObject.DirectorySongsPropagates | objects/album.py:25-27 | A failed query fails the listing with the same error. |
| PingObject.PingOf | objects/ping.py:4-8 | Definition of `Ping(**response)`; its property is in PingObject.PingRoundTrip. |
| PingObject.PingRoundTrip | objects/ping.py:4-8 | Building a ping from the status, version and type of a ping gives that ping back, so the record keeps exactly those three fields. |
| PingObject.Ping.IsOk | objects/ping.py:10-12 | Definition of `ok`; its properties are in PingObject.OkIsCaseSensitive, PingObject.OkIgnoresVersionAndType and PingObject.DegradedIsNotOk. |
| PingObject.OkIgnoresVersionAndType | objects/ping.py:10-12 | `ok` depends on the status only. |
| PingObject.OkIsCaseSensitive | objects/ping.py:11-12 | For every status, `ok` holds exactly when the status is the string "ok". Any other string, such as "OK" or " ok", and any non-string is not ok. |
| PingObject.DegradedIsNotOk | objects/ping.py:11-12 | The failed Ping produced when the server cannot be reached is not ok. |
| AlbumObject.AlbumInfoOf | objects/album.py:8-20 | `Album(**i)` succeeds exactly when i is a dict holding every declared field, and keeps exactly those values. Otherwise it raises TypeError. |
| AlbumObject.Album.constructor | objects/album.py:8-21 | A new album holds its record and query capability, and its songs are unresolved. |
| AlbumObject.Album.Songs | objects/album.py:23-29 | The first access sends one getMusicDirectory request for the album id and stores the listing. A stored listing is returned without a request. Nothing else changes. |
| AlbumObject.NewAlbums | subsonic_client.py:148-155 | One new unresolved album per item, in order, each holding the given capability. Otherwise it raises the comprehension's first error. |
| PlaylistObject.PlaylistInfoOf | objects/playlist.py:8-23 | `Playlist(**i)` needs every declared field without a default. `changed` is taken from i or defaults to None. |
| PlaylistObject.Playlist.constructor | objects/playlist.py:8-23 | A new playlist holds its record and both capabilities, and its songs are unresolved. |
| PlaylistObject.Playlist.Songs | objects/playlist.py:25-33 | The first access sends one getMusicDirectory request for the playlist id and stores the listing. A stored listing is returned without a request. |
| PlaylistObject.NewPlaylists | subsonic_client.py:106-113 | One new unresolved playlist per item, in order, each holding both capabilities. Otherwise it raises the comprehension's first error. |
| PlaylistObject.ChangedDefaultsToNone | objects/playlist.py:23 | A playlist whose record lacks `changed` has `changed` None. |
| SearchResultsObject.ArtistOf | objects/search_results.py:9 | Definition of `Artist(**i)`; its property is in SearchResultsObject.ArtistRoundTrip. |
| SearchResultsObject.ArtistRoundTrip | objects/search_results.py:9 | Building an artist from the fields of an artist gives that artist back. |
| SearchResultsObject.SectionsOf | objects/search_results.py:9-11 | Definition of the three sections as values; its properties are in SearchResultsObject.SectionsKeepOrder, SearchResultsObject.EmptySectionIsEmpty and SearchResultsObject.NewSearchResults. |
| SearchResultsObject.NewSearchResults | objects/search_results.py:8-11 | Each section is mapped in order. Every album is new, unresolved and holds the constructor's capability. No query is sent. |
| SearchResultsObject.SectionsKeepOrder | objects/search_results.py:9-11 | The three sections have the lengths and order of the three input lists. |
| SearchResultsObject.EmptySectionIsEmpty | objects/search_results.py:9-11 | An empty dict given for a section yields an empty section. |
| SearchResultsObject.Repr | objects/search_results.py:13-14 | Definition of the repr; its properties are in SearchResultsObject.ReprRoundTrip and SearchResultsObject.ReprDistinguishesSizes. |
| SearchResultsObject.ReprRoundTrip | objects/search_results.py:13-14 | The three section sizes can be read back from the repr. |
| SearchResultsObject.ReprDistinguishesSizes | objects/search_results.py:13-14 | Results with different section sizes print differently. |
| Client.PingResult | subsonic_client.py:71-74 | Definition of what ping makes of a reply; its properties are in Client.PingDegradedOnlyOnConnectionError and Client.SubsonicClient.Ping. |
| Client.PingDegradedOnlyOnConnectionError | subsonic_client.py:70-74 | The failed Ping comes back exactly when the query raised ConnectionError. Every other error propagates unchanged. |
| Client.PresentOptions | subsonic_client.py:78-86 | Whatever precedes them, the optional search arguments sent are exactly the given ones, in order. |
| Client.SearchSendsGivenArguments | subsonic_client.py:78-86 | A search sends its text first. It then sends each optional argument exactly when it is given, in the declared order. |
| Client.GivenOptions | subsonic_client.py:80-86 | An argument is carried exactly when it is given, and never as None. |
| Client.Filled | subsonic_client.py:89-91 | Definition of the result with missing sections added; its properties are in Client.FilledIdempotent, Client.FilledKeepsComplete, Client.FillMissingSections and Client.MissingSectionIsEmpty. |
| Client.FilledIdempotent | subsonic_client.py:89-91 | Filling a filled result changes nothing: after the loop no section is missing. |
| Client.FilledKeepsComplete | subsonic_client.py:89-91 | A result that already has all three sections is left exactly as it is. |
| Client.FillMissingSections | subsonic_client.py:89-91 | The loop adds exactly the missing sections. |
| Client.SearchOf | subsonic_client.py:87-96 | Definition of what search makes of a reply; its properties are in Client.MissingSectionIsEmpty, Client.SearchWithoutResultFails and Client.SubsonicClient.Search. |
| Client.MissingSectionIsEmpty | subsonic_client.py:87-96 | A successful search lacking a section has an empty list there. |
| Client.SearchWithoutResultFails | subsonic_client.py:87-90 | A reply without `searchResult2` raises TypeError. |
| Client.PlaylistsOf | subsonic_client.py:103-113 | Definition of the playlist records of a reply; its property is in Client.SubsonicClient.Playlists. |
| Client.FindNamed | subsonic_client.py:115-120 | Returns the first playlist whose name matches, or None exactly when no playlist matches. |
| Client.LicenseOf | subsonic_client.py:124 | Definition of the license of a reply; its property is in Client.SubsonicClient.License. |
| Client.FolderListOf | subsonic_client.py:128-133 | Definition of the folders map of a reply; its properties are in Client.FoldersOf, Client.FoldersLastWins and Client.SubsonicClient.Folders. |
| Client.FoldersOf | subsonic_client.py:131-133 | The folders map exists exactly when every entry has a hashable name and an id. Its keys are exactly the listed names. |
| Client.FoldersLastWins | subsonic_client.py:131-133 | For a repeated name the map keeps the id of the last entry. |
| Client.FoldersFailFromPrefix | subsonic_client.py:131-133 | Once an entry fails, the whole comprehension fails with that error. |
| Client.AlbumListRequest | subsonic_client.py:141-146 | The page request is type=alphabeticalByName, size=count, offset=page*count and the folder id, in that order. |
| Client.AlbumListOf | subsonic_client.py:141-155 | Definition of the album records of a page reply; its property is in Client.SubsonicClient.AlbumPage. |
| Client.AlbumOf | subsonic_client.py:159-169 | Definition of the album record of a getAlbum reply; its properties are in Client.AlbumWithoutRecordFails and Client.SubsonicClient.Album. |
| Client.AlbumWithoutRecordFails | subsonic_client.py:159-164 | A getAlbum reply without `album` raises TypeError. |
| Client.SubsonicClient.constructor | subsonic_client.py:54-65 | rest_params is built from the username, md5(password + salt), the salt, client and version. Client and version default to "subsonic-py" and "1.15.0". All caches start empty. |
| Client.SubsonicClient.Query | subsonic_client.py:67-68 | One request through the client's own session. |
| Client.SubsonicClient.Ping | subsonic_client.py:70-74 | Sends one ping request. A ConnectionError gives the failed Ping. |
| Client.SubsonicClient.Search | subsonic_client.py:76-99 | A repeated query returns the stored result and sends nothing. Otherwise one search2 request is sent, and only a success is stored under the query. Objects keep the client's capability. |
| Client.SubsonicClient.Playlists | subsonic_client.py:101-113 | The first successful access sends one getPlaylists request and stores the list. Later accesses send nothing. |
| Client.SubsonicClient.Playlist | subsonic_client.py:115-120 | The loop returns the first playlist of `playlists` with the name, or None. Loading behaves as in Playlists. |
| Client.SubsonicClient.License | subsonic_client.py:122-124 | The first successful access sends one getLicense request; the result is the `license` entry or "". Later accesses send nothing. |
| Client.SubsonicClient.Folders | subsonic_client.py:126-133 | The first successful access sends one getMusicFolders request and stores the name-to-id map built in order. Later accesses send nothing. |
| Client.SubsonicClient.AlbumPage | subsonic_client.py:141-155 | One getAlbumList request for the page, and one new unresolved album per listed item. |
| Client.SubsonicClient.FolderPage | subsonic_client.py:137-155 | An unknown folder raises ResponseError and sends nothing. A known one sends one getAlbumList request with its id. |
| Client.SubsonicClient.LoadAlbums | subsonic_client.py:136-155 | Folders are loaded as Folders loads them. An unknown folder raises before any getAlbumList request. |
| Client.SubsonicClient.Albums | subsonic_client.py:135-155 | Repeated arguments return the stored list and send nothing. Otherwise the call behaves as LoadAlbums, and only a success is stored under (folder, page, count). |
| Client.SubsonicClient.StoreAlbums | subsonic_client.py:135 | Storing a page changes only that cache entry and keeps the cache invariant. |
| Client.SubsonicClient.Album | subsonic_client.py:157-169 | A repeated id returns the stored album and sends nothing. Otherwise one getAlbum request is sent, and only a success is stored. |

## Left out

- Network I/O is left out. `requests.get`, its 31-second timeout and the `requests` exception classes become the `Outcome` datatype. The oracle is a parameter.
- `json.loads` is not modelled on text. A body is either a decoded value or undecodable (JSONDecodeError).
- JSON floats are not modelled. `str()` of a float and `1 == 1.0` as dict keys are therefore not modelled either.
- `hashlib.md5`, `random.randrange`, `urllib.parse.quote_plus` and `repr` of lists and dicts are foreign functions. They are parameters of the model, and their own behaviour is not checked.
- The `print(items)` at objects/playlist.py:31 is debug output and is left out.
- Messages of Python exceptions the client does not catch are left out. Such exceptions are named by class only (`Uncaught`).
- PingObject.PingOf, AlbumObject.AlbumInfoOf, PlaylistObject.PlaylistInfoOf, SongObject.SongOf: these accept keys beyond the declared fields. In Python, `**` of an unexpected key raises TypeError. Keyword matching of the dataclasses is not modelled.
- Client.SubsonicClient.Search: the model passes only the query capability to SearchResults. As written, the extra `stream=` keyword at subsonic_client.py:97 makes every search raise TypeError.
- Client.SubsonicClient.Albums and Client.SubsonicClient.Album: the model builds albums with the query capability only. As written, the `_stream=` keyword at subsonic_client.py:153 and :167 makes construction raise TypeError.
- PlaylistObject.Playlist.Songs: the model builds songs without the `_stream=` keyword at objects/playlist.py:33. As written, that keyword makes construction raise TypeError.
- Client.SubsonicClient.Search: the cache key is the argument values. `lru_cache` also tells apart an omitted argument from an explicit None, and keyword order; there those calls would miss the cache and query again.
- Client.SubsonicClient.Albums: the count defaults to 40, and an omitted count is stored under the key with 40. `lru_cache` stores `albums(f, p)` and `albums(f, p, 40)` under different keys.
- LRU eviction (maxsize 128) and thread safety of the caches are left out. The caches never forget an entry, so the model states only that a hit returns the stored value without a request.
- Client.FoldersOf: Python merges dict keys that compare equal across types, such as `1` and `True`. The model keeps them as distinct keys.
- objects/artist.py is not part of this model. An artist keeps the fields it was given.
- Cover-art fetching and its cache are not part of this model.
- The `created` fields stay as received. The source does not parse them into datetimes at runtime either.
