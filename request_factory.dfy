/** `HummingKitRequestFactory`: URL requests for the Apple Music API, as plain descriptors. */
module RequestFactory {
  import opened Base
  import opened Json

  datatype HttpMethod = GET | POST

  /** `URLQueryItem(name:value:)`; the value is optional, as in Foundation. */
  datatype QueryItem = QueryItem(name: string, value: Option<string>)

  /** One `addValue(_:forHTTPHeaderField:)`. */
  datatype Header = Header(field: string, value: string)

  /** What a builder puts into `URLComponents` and `URLRequest`. */
  datatype Request = Request(httpMethod: HttpMethod, scheme: string, host: string, path: string,
                             query: seq<QueryItem>, headers: seq<Header>, body: Option<Json>)

  /** The factory's two stored tokens. */
  datatype Factory = Factory(developerToken: string, userToken: string)

  const Scheme := "https"
  const Host := "api.music.apple.com"

  /** The `offset` argument's default in the paginated builders. */
  const DefaultOffset: Option<string> := Some("0")

  predicate HasPrefix(s: string, p: string) {
    |p| <= |s| && s[..|p|] == p
  }

  // ---------------------------------------------------------------------------------------------
  // Headers
  // ---------------------------------------------------------------------------------------------

  function Authorization(f: Factory): Header {
    Header("Authorization", "Bearer " + f.developerToken)
  }

  function UserTokenHeader(f: Factory): Header {
    Header("Music-User-Token", f.userToken)
  }

  /** The developer token always, then the user token where the builder adds it. */
  function Headers(f: Factory, withUserToken: bool): (hs: seq<Header>)
    ensures |hs| == (if withUserToken then 2 else 1) && hs[0] == Authorization(f)
    ensures withUserToken <==> UserTokenHeader(f) in hs
  {
    [Authorization(f)] + if withUserToken then [UserTokenHeader(f)] else []
  }

  /** The request carries a `Music-User-Token` header. */
  predicate HasUserToken(r: Request) {
    exists h :: h in r.headers && h.field == "Music-User-Token"
  }

  /** `createBaseURLComponents()` followed by the path, the query and the headers. */
  function MakeRequest(f: Factory, httpMethod: HttpMethod, path: string, query: seq<QueryItem>,
                       withUserToken: bool, body: Option<Json>): (r: Request)
    ensures r.scheme == Scheme && r.host == Host && r.path == path && r.query == query
    ensures r.httpMethod == httpMethod && r.body == body
    ensures |r.headers| == (if withUserToken then 2 else 1) && r.headers[0] == Authorization(f)
    ensures HasUserToken(r) <==> withUserToken
    ensures withUserToken ==> UserTokenHeader(f) in r.headers
  {
    var r := Request(httpMethod, Scheme, Host, path, query, Headers(f, withUserToken), body);
    assert Authorization(f) in r.headers;
    r
  }

  // ---------------------------------------------------------------------------------------------
  // Joined identifiers
  // ---------------------------------------------------------------------------------------------

  /** `ids.joined(separator: ",")`. */
  function Join(ids: seq<string>): (s: string)
    ensures |ids| >= 1 ==> HasPrefix(s, ids[0])
  {
    if ids == [] then ""
    else if |ids| == 1 then ids[0]
    else Join(ids[..|ids| - 1]) + "," + ids[|ids| - 1]
  }

  /** The inverse reading: the comma-separated fields of `s` (`s.split(",")` keeping empty fields). */
  function Split(s: string): (parts: seq<string>)
    ensures |parts| >= 1
  {
    if s == [] then [""]
    else if s[|s| - 1] == ',' then Split(s[..|s| - 1]) + [""]
    else
      var init := Split(s[..|s| - 1]);
      init[..|init| - 1] + [init[|init| - 1] + [s[|s| - 1]]]
  }

  predicate NoComma(id: string) {
    forall i :: 0 <= i < |id| ==> id[i] != ','
  }

  /** Splitting a comma-free identifier appended to a prefix extends the prefix's last field. */
  lemma {:induction false} SplitAppendField(s: string, id: string)
    requires NoComma(id)
    ensures Split(s + id) == Split(s)[..|Split(s)| - 1] + [Split(s)[|Split(s)| - 1] + id]
    decreases |id|
  {
    if id == [] {
      assert s + id == s;
      var parts := Split(s);
      assert parts[|parts| - 1] + id == parts[|parts| - 1];
      assert parts[..|parts| - 1] + [parts[|parts| - 1]] == parts;
    } else {
      var n := |id| - 1;
      assert NoComma(id[..n]);
      SplitAppendField(s, id[..n]);
      assert (s + id)[..|s + id| - 1] == s + id[..n];
      assert (s + id)[|s + id| - 1] == id[n];
      var parts := Split(s);
      assert Split(s + id[..n]) == parts[..|parts| - 1] + [parts[|parts| - 1] + id[..n]];
      assert parts[|parts| - 1] + id[..n] + [id[n]] == parts[|parts| - 1] + id;
    }
  }

  /** The ids value can be read back: splitting the joined list at "," gives the identifiers. */
  lemma {:induction false} SplitJoin(ids: seq<string>)
    requires |ids| >= 1
    requires forall k :: 0 <= k < |ids| ==> NoComma(ids[k])
    ensures Split(Join(ids)) == ids
  {
    if |ids| == 1 {
      SplitAppendField("", ids[0]);
      assert "" + ids[0] == ids[0];
    } else {
      var n := |ids| - 1;
      SplitJoin(ids[..n]);
      var prefix := Join(ids[..n]) + ",";
      assert prefix[..|prefix| - 1] == Join(ids[..n]);
      assert Split(prefix) == ids[..n] + [""];
      SplitAppendField(prefix, ids[n]);
      assert "" + ids[n] == ids[n];
      assert ids == ids[..n] + [ids[n]];
    }
  }

  /** The value of the first query item with this name; None when there is none. */
  function QueryValue(query: seq<QueryItem>, name: string): (r: Option<Option<string>>)
    ensures r.None? <==> forall k :: 0 <= k < |query| ==> query[k].name != name
  {
    if query == [] then None
    else if query[0].name == name then Some(query[0].value)
    else QueryValue(query[1..], name)
  }

  // ---------------------------------------------------------------------------------------------
  // The straight-line GET builders
  // ---------------------------------------------------------------------------------------------

  /** One constructor per builder; the parameters are the builder's. */
  datatype Endpoint =
    | UserStorefront
    | AStorefront(storefrontID: string)
    | MultipleStorefronts(storefrontIDs: seq<string>)
    | AllStorefronts
    | ACatalogAlbum(storefront: string, albumID: string)
    | MultipleCatalogAlbums(storefront: string, albumIDs: seq<string>)
    | ACatalogAlbumRelationship(storefront: string, albumID: string, relationship: string)
    | ALibraryAlbum(albumID: string)
    | ALibraryAlbumRelationship(albumID: string, relationship: string)
    | MultipleLibraryAlbums(albumIDs: seq<string>)
    | AllLibraryAlbums
    | ACatalogArtist(storefront: string, artistID: string)
    | MultipleCatalogArtists(storefront: string, artistIDs: seq<string>)
    | ACatalogArtistRelationship(storefront: string, artistID: string, relationship: string)
    | ALibraryArtist(artistID: string)
    | AllLibraryArtists
    | MultipleLibraryArtists(artistIDs: seq<string>)
    | ALibraryArtistRelationship(artistID: string, relationship: string)
    | ACatalogSong(storefront: string, songID: string)
    | MultipleCatalogSongs(storefront: string, songIDs: seq<string>)
    | ACatalogSongRelationship(storefront: string, songID: string, relationship: string)
    | ALibrarySong(songID: string)
    | AllLibrarySongs
    | MultipleLibrarySongs(songIDs: seq<string>)
    | ALibrarySongRelationship(songID: string, relationship: string)
    | CatalogPlaylists(storefront: string, playlistsIDs: seq<string>)
    | RecentlyPlayed
    | UserLibrarySongs(offset: Option<string>)
    | UserLibraryPlaylists(offset: Option<string>)

  /** The builder's `urlComponents.path`; every one lies under the API's version 1 root. */
  function EndpointPath(e: Endpoint): (path: string)
    ensures HasPrefix(path, "/v1/")
  {
    match e
    case UserStorefront => "/v1/me/storefront"
    case AStorefront(id) => "/v1/storefronts/" + id
    case MultipleStorefronts(_) => "/v1/storefronts"
    case AllStorefronts => "/v1/storefronts"
    case ACatalogAlbum(sf, id) => "/v1/catalog/" + sf + "/albums/" + id
    case MultipleCatalogAlbums(sf, _) => "/v1/catalog/" + sf + "/albums"
    case ACatalogAlbumRelationship(sf, id, rel) => "/v1/catalog/" + sf + "/albums/" + id + "/" + rel
    case ALibraryAlbum(id) => "/v1/me/library/albums/" + id
    case ALibraryAlbumRelationship(id, rel) => "/v1/me/library/albums/" + id + "/" + rel
    case MultipleLibraryAlbums(_) => "/v1/me/library/albums"
    case AllLibraryAlbums => "/v1/me/library/albums"
    case ACatalogArtist(sf, id) => "/v1/catalog/" + sf + "/artists/" + id
    case MultipleCatalogArtists(sf, _) => "/v1/catalog/" + sf + "/artists"
    case ACatalogArtistRelationship(sf, id, rel) => "/v1/catalog/" + sf + "/artists/" + id + "/" + rel
    case ALibraryArtist(id) => "/v1/me/library/artists/" + id
    case AllLibraryArtists => "/v1/me/library/artists"
    case MultipleLibraryArtists(_) => "/v1/me/library/artists"
    case ALibraryArtistRelationship(id, rel) => "/v1/me/library/artists/" + id + "/" + rel
    case ACatalogSong(sf, id) => "/v1/catalog/" + sf + "/songs" + "/" + id
    case MultipleCatalogSongs(sf, _) => "/v1/catalog/" + sf + "/songs"
    case ACatalogSongRelationship(sf, id, rel) => "/v1/catalog/" + sf + "/songs/" + id + "/" + rel
    case ALibrarySong(id) => "/v1/me/library/songs/" + id
    case AllLibrarySongs => "/v1/me/library/songs"
    case MultipleLibrarySongs(_) => "/v1/me/library/songs"
    case ALibrarySongRelationship(id, rel) => "/v1/me/library/songs/" + id + "/" + rel
    case CatalogPlaylists(sf, _) => "/v1/catalog/" + sf + "/playlists" + "/"
    case RecentlyPlayed => "/v1/me/recent/played"
    case UserLibrarySongs(_) => "/v1/me/library" + "/songs"
    case UserLibraryPlaylists(_) => "/v1/me/library" + "/playlists"
  }

  /** The identifiers a multi-ID builder joins into its `ids` item. */
  function JoinedIDs(e: Endpoint): Option<seq<string>> {
    match e
    case MultipleStorefronts(ids) => Some(ids)
    case MultipleCatalogAlbums(_, ids) => Some(ids)
    case MultipleLibraryAlbums(ids) => Some(ids)
    case MultipleCatalogArtists(_, ids) => Some(ids)
    case MultipleLibraryArtists(ids) => Some(ids)
    case MultipleCatalogSongs(_, ids) => Some(ids)
    case MultipleLibrarySongs(ids) => Some(ids)
    case CatalogPlaylists(_, ids) => Some(ids)
    case _ => None
  }

  function EndpointQuery(e: Endpoint): seq<QueryItem> {
    match e
    case UserLibrarySongs(offset) => [QueryItem("limit", Some("100")), QueryItem("offset", offset)]
    case UserLibraryPlaylists(offset) => [QueryItem("limit", Some("100")), QueryItem("offset", offset)]
    case _ => if JoinedIDs(e).Some? then [QueryItem("ids", Some(Join(JoinedIDs(e).value)))] else []
  }

  /** Whether the builder adds `Music-User-Token`, builder by builder. */
  predicate SendsUserToken(e: Endpoint)
    ensures HasPrefix(EndpointPath(e), "/v1/me") ==> SendsUserToken(e)
  {
    // the builders without the user token target `/v1/storefronts` or `/v1/catalog`
    assert HasPrefix(EndpointPath(e), "/v1/me") ==> EndpointPath(e)[..6][4] == 'm';
    match e
    case AStorefront(_) => false
    case MultipleStorefronts(_) => false
    case AllStorefronts => false
    case ACatalogAlbum(_, _) => false
    case MultipleCatalogAlbums(_, _) => false
    case ACatalogAlbumRelationship(_, _, _) => false
    case ACatalogArtist(_, _) => false
    case MultipleCatalogArtists(_, _) => false
    case ACatalogArtistRelationship(_, _, _) => false
    case ACatalogSongRelationship(_, _, _) => false
    case _ => true
  }

  /** The request the endpoint's builder returns: a GET with the developer token and, where the builder
      adds it, the user token. */
  function Build(f: Factory, e: Endpoint): (r: Request)
    ensures r.httpMethod == GET && r.scheme == Scheme && r.host == Host && r.body.None?
    ensures |r.headers| >= 1 && r.headers[0] == Authorization(f)
  {
    MakeRequest(f, GET, EndpointPath(e), EndpointQuery(e), SendsUserToken(e), None)
  }

  /** The header policy: the user token goes with every path under `/v1/me` and, outside it, only with
      the catalog song, multiple catalog songs and catalog playlists requests. */
  lemma UserTokenExactlyOnMePaths(f: Factory, e: Endpoint)
    ensures HasUserToken(Build(f, e)) <==>
      HasPrefix(Build(f, e).path, "/v1/me") || e.ACatalogSong? || e.MultipleCatalogSongs? || e.CatalogPlaylists?
  {
    var path := EndpointPath(e);
    if SendsUserToken(e) && !(e.ACatalogSong? || e.MultipleCatalogSongs? || e.CatalogPlaylists?) {
      assert path[..6] == "/v1/me";
    }
  }

  /** The paginated builders: a GET of 100 items from the given offset (by default "0") of the library
      songs or playlists, with the user token. */
  lemma PaginatedRequests(f: Factory, offset: Option<string>)
    ensures var songs := Build(f, UserLibrarySongs(offset));
      && songs.path == "/v1/me/library/songs"
      && songs.query == [QueryItem("limit", Some("100")), QueryItem("offset", offset)]
      && QueryValue(songs.query, "limit") == Some(Some("100"))
      && QueryValue(songs.query, "offset") == Some(offset)
      && HasUserToken(songs)
    ensures var playlists := Build(f, UserLibraryPlaylists(offset));
      && playlists.path == "/v1/me/library/playlists"
      && playlists.query == [QueryItem("limit", Some("100")), QueryItem("offset", offset)]
      && QueryValue(playlists.query, "limit") == Some(Some("100"))
      && QueryValue(playlists.query, "offset") == Some(offset)
      && HasUserToken(playlists)
  {
    var query := [QueryItem("limit", Some("100")), QueryItem("offset", offset)];
    assert query[1..] == [QueryItem("offset", offset)];
    assert Build(f, UserLibrarySongs(offset)).query == query;
    assert Build(f, UserLibraryPlaylists(offset)).query == query;
    assert "/v1/me/library" + "/songs" == "/v1/me/library/songs";
    assert "/v1/me/library" + "/playlists" == "/v1/me/library/playlists";
  }

  /** Called without an offset, the paginated builders ask for the first page, at offset "0". */
  lemma PaginatedRequestsDefaultToFirstPage(f: Factory)
    ensures Build(f, UserLibrarySongs(DefaultOffset)).query ==
      [QueryItem("limit", Some("100")), QueryItem("offset", Some("0"))]
    ensures Build(f, UserLibraryPlaylists(DefaultOffset)).query ==
      [QueryItem("limit", Some("100")), QueryItem("offset", Some("0"))]
  {
  }

  /** A multi-ID builder sends one `ids` item, and splitting its value at "," gives back the
      identifiers whenever they are comma-free and there is at least one. */
  lemma MultiIDQuery(f: Factory, e: Endpoint)
    requires JoinedIDs(e).Some?
    ensures Build(f, e).query == [QueryItem("ids", Some(Join(JoinedIDs(e).value)))]
    ensures var ids := JoinedIDs(e).value;
      |ids| >= 1 && (forall k :: 0 <= k < |ids| ==> NoComma(ids[k])) ==>
      Split(QueryValue(Build(f, e).query, "ids").value.value) == ids
  {
    var ids := JoinedIDs(e).value;
    if |ids| >= 1 && (forall k :: 0 <= k < |ids| ==> NoComma(ids[k])) {
      SplitJoin(ids);
    }
  }

  /** The catalog song path puts the song identifier after `/songs/`, and the catalog playlists path
      ends in "/". */
  lemma CatalogSongPath(f: Factory, storefront: string, songID: string)
    ensures Build(f, ACatalogSong(storefront, songID)).path == "/v1/catalog/" + storefront + "/songs/" + songID
  {
    var root := "/v1/catalog/" + storefront;
    assert root + "/songs" + "/" == root + ("/songs" + "/");
    assert "/songs" + "/" == "/songs/";
  }

  lemma CatalogPlaylistsPath(f: Factory, storefront: string, playlistsIDs: seq<string>)
    ensures var path := Build(f, CatalogPlaylists(storefront, playlistsIDs)).path;
      path == "/v1/catalog/" + storefront + "/playlists/" && path[|path| - 1] == '/'
  {
    var root := "/v1/catalog/" + storefront;
    assert root + "/playlists" + "/" == root + ("/playlists" + "/");
    assert "/playlists" + "/" == "/playlists/";
  }

  // ---------------------------------------------------------------------------------------------
  // createAddResourcesToLibraryRequest
  // ---------------------------------------------------------------------------------------------

  /** The items one "stack … together" loop builds: one item named `name` per identifier, in order. */
  function Stacked(name: string, ids: seq<string>): (items: seq<QueryItem>)
    ensures |items| == |ids|
    ensures forall k :: 0 <= k < |ids| ==> items[k] == QueryItem(name, Some(ids[k]))
  {
    if ids == [] then [] else Stacked(name, ids[..|ids| - 1]) + [QueryItem(name, Some(ids[|ids| - 1]))]
  }

  /** The values of the query items named `name`, in order. */
  function Values(query: seq<QueryItem>, name: string): seq<string> {
    if query == [] then []
    else
      var last := query[|query| - 1];
      Values(query[..|query| - 1], name) + if last.name == name && last.value.Some? then [last.value.value] else []
  }

  lemma {:induction false} ValuesAppend(a: seq<QueryItem>, b: seq<QueryItem>, name: string)
    ensures Values(a + b, name) == Values(a, name) + Values(b, name)
    decreases |b|
  {
    if b == [] {
      assert a + b == a;
    } else {
      var n := |b| - 1;
      assert (a + b)[..|a + b| - 1] == a + b[..n];
      ValuesAppend(a, b[..n], name);
    }
  }

  /** Reading a stack back by its own name gives the identifiers; by any other name, nothing. */
  lemma {:induction false} ValuesOfStacked(name: string, ids: seq<string>, other: string)
    ensures Values(Stacked(name, ids), name) == ids
    ensures other != name ==> Values(Stacked(name, ids), other) == []
  {
    if ids != [] {
      var n := |ids| - 1;
      ValuesOfStacked(name, ids[..n], other);
      var items := Stacked(name, ids);
      assert items[..|items| - 1] == Stacked(name, ids[..n]);
      assert ids == ids[..n] + [ids[n]];
    }
  }

  method StackQueryItems(name: string, ids: seq<string>) returns (items: seq<QueryItem>)
    ensures items == Stacked(name, ids)
  {
    items := [];
    for index := 0 to |ids|
      invariant items == Stacked(name, ids[..index])
    {
      assert ids[..index + 1][..index] == ids[..index];
      items := items + [QueryItem(name, Some(ids[index]))];
    }
    assert ids[..|ids|] == ids;
  }

  /** A POST to `/v1/me/library` whose query lists the song, album, playlist and music-video
      identifiers, each group in input order; reading the query back by item name recovers each list. */
  method CreateAddResourcesToLibraryRequest(f: Factory, playlistsIDs: seq<string>, albumsIDs: seq<string>,
                                            songsIDs: seq<string>, musicVideosIDs: seq<string>)
    returns (r: Request)
    ensures r.httpMethod == POST && r.path == "/v1/me/library" && r.body.None?
    ensures r.headers == [Authorization(f), UserTokenHeader(f)]
    ensures r.query == Stacked("ids[songs]", songsIDs) + Stacked("ids[albums]", albumsIDs) +
                       Stacked("ids[playlists]", playlistsIDs) + Stacked("ids[music-videos]", musicVideosIDs)
    ensures |r.query| == |songsIDs| + |albumsIDs| + |playlistsIDs| + |musicVideosIDs|
    ensures Values(r.query, "ids[songs]") == songsIDs
    ensures Values(r.query, "ids[albums]") == albumsIDs
    ensures Values(r.query, "ids[playlists]") == playlistsIDs
    ensures Values(r.query, "ids[music-videos]") == musicVideosIDs
  {
    var urlQuerySongsItems := StackQueryItems("ids[songs]", songsIDs);
    var urlQueryAlbumsItems := StackQueryItems("ids[albums]", albumsIDs);
    var urlQueryPlaylistsItems := StackQueryItems("ids[playlists]", playlistsIDs);
    var urlQueryMVsItems := StackQueryItems("ids[music-videos]", musicVideosIDs);
    var urlQueryItemsFinal := urlQuerySongsItems + urlQueryAlbumsItems + urlQueryPlaylistsItems + urlQueryMVsItems;
    r := MakeRequest(f, POST, "/v1/me/library", urlQueryItemsFinal, true, None);
    AddResourcesReadBack(songsIDs, albumsIDs, playlistsIDs, musicVideosIDs);
  }

  lemma AddResourcesReadBack(songsIDs: seq<string>, albumsIDs: seq<string>, playlistsIDs: seq<string>,
                             musicVideosIDs: seq<string>)
    ensures var query := Stacked("ids[songs]", songsIDs) + Stacked("ids[albums]", albumsIDs) +
                         Stacked("ids[playlists]", playlistsIDs) + Stacked("ids[music-videos]", musicVideosIDs);
      && Values(query, "ids[songs]") == songsIDs
      && Values(query, "ids[albums]") == albumsIDs
      && Values(query, "ids[playlists]") == playlistsIDs
      && Values(query, "ids[music-videos]") == musicVideosIDs
  {
    ValuesOfStacks(songsIDs, albumsIDs, playlistsIDs, musicVideosIDs, "ids[songs]");
    ValuesOfStacks(songsIDs, albumsIDs, playlistsIDs, musicVideosIDs, "ids[albums]");
    ValuesOfStacks(songsIDs, albumsIDs, playlistsIDs, musicVideosIDs, "ids[playlists]");
    ValuesOfStacks(songsIDs, albumsIDs, playlistsIDs, musicVideosIDs, "ids[music-videos]");
  }

  /** Reading the four stacks back by one name collects the identifiers of the stack with that name. */
  lemma ValuesOfStacks(songsIDs: seq<string>, albumsIDs: seq<string>, playlistsIDs: seq<string>,
                       musicVideosIDs: seq<string>, name: string)
    ensures Values(Stacked("ids[songs]", songsIDs) + Stacked("ids[albums]", albumsIDs) +
                   Stacked("ids[playlists]", playlistsIDs) + Stacked("ids[music-videos]", musicVideosIDs), name) ==
      (if name == "ids[songs]" then songsIDs else []) + (if name == "ids[albums]" then albumsIDs else []) +
      (if name == "ids[playlists]" then playlistsIDs else []) +
      (if name == "ids[music-videos]" then musicVideosIDs else [])
  {
    var s, a := Stacked("ids[songs]", songsIDs), Stacked("ids[albums]", albumsIDs);
    var p, m := Stacked("ids[playlists]", playlistsIDs), Stacked("ids[music-videos]", musicVideosIDs);
    ValuesAppend(s + a + p, m, name);
    ValuesAppend(s + a, p, name);
    ValuesAppend(s, a, name);
    ValuesOfStacked("ids[songs]", songsIDs, name);
    ValuesOfStacked("ids[albums]", albumsIDs, name);
    ValuesOfStacked("ids[playlists]", playlistsIDs, name);
    ValuesOfStacked("ids[music-videos]", musicVideosIDs, name);
  }

  // ---------------------------------------------------------------------------------------------
  // createSearchRequest
  // ---------------------------------------------------------------------------------------------

  /** `term.replacingOccurrences(of: " ", with: "+")`. */
  function PlusForSpace(term: string): (r: string)
    ensures |r| == |term|
    ensures forall i :: 0 <= i < |term| ==> r[i] == if term[i] == ' ' then '+' else term[i]
  {
    if term == [] then []
    else PlusForSpace(term[..|term| - 1]) + [if term[|term| - 1] == ' ' then '+' else term[|term| - 1]]
  }

  /** The rewritten term has no spaces left, and changes nothing but the spaces. */
  lemma PlusForSpaceRemovesSpaces(term: string)
    ensures forall i :: 0 <= i < |term| ==> PlusForSpace(term)[i] != ' '
    ensures forall i :: 0 <= i < |term| && term[i] != ' ' ==> PlusForSpace(term)[i] == term[i]
  {
  }

  /** The three `urlParameters` of a search. */
  function SearchParameters(term: string): (urlParameters: map<string, string>)
    ensures urlParameters.Keys == {"term", "limit", "types"}
    ensures urlParameters["term"] == PlusForSpace(term) && ' ' !in urlParameters["term"]
  {
    map["term" := PlusForSpace(term), "limit" := "10", "types" := "songs,albums"]
  }

  /** Iterating `urlParameters` visits its keys in an order Swift leaves unspecified; `keyOrder` is that
      order, some arrangement of the three keys. Whatever it is, the query holds exactly the three items
      once each, and the request has no user token. */
  method CreateSearchRequest(f: Factory, storefront: string, term: string, keyOrder: seq<string>)
    returns (r: Request)
    requires multiset(keyOrder) == multiset{"term", "limit", "types"}
    ensures r.httpMethod == GET && r.path == "/v1/catalog/" + storefront + "/search" && r.body.None?
    ensures r.headers == [Authorization(f)] && !HasUserToken(r)
    ensures |r.query| == 3
    ensures forall q :: q in r.query <==>
      q == QueryItem("term", Some(PlusForSpace(term))) ||
      q == QueryItem("limit", Some("10")) ||
      q == QueryItem("types", Some("songs,albums"))
  {
    var urlParameters := SearchParameters(term);
    assert forall key :: key in multiset(keyOrder) ==> key in urlParameters;
    var queryItems: seq<QueryItem> := [];
    for index := 0 to |keyOrder|
      invariant |queryItems| == index
      invariant forall k :: 0 <= k < index ==> queryItems[k] == QueryItem(keyOrder[k], Some(urlParameters[keyOrder[k]]))
    {
      assert keyOrder[index] in multiset(keyOrder);
      queryItems := queryItems + [QueryItem(keyOrder[index], Some(urlParameters[keyOrder[index]]))];
    }
    r := MakeRequest(f, GET, "/v1/catalog/" + storefront + "/search", queryItems, false, None);
    assert |keyOrder| == |multiset{"term", "limit", "types"}|;
    forall q
      ensures q in r.query <==>
        q == QueryItem("term", Some(PlusForSpace(term))) ||
        q == QueryItem("limit", Some("10")) ||
        q == QueryItem("types", Some("songs,albums"))
    {
      if q in r.query {
        var k :| 0 <= k < |queryItems| && queryItems[k] == q;
        assert keyOrder[k] in multiset(keyOrder);
      }
      var key := q.name;
      if q.name in urlParameters && q.value == Some(urlParameters[q.name]) {
        assert key in multiset(keyOrder);
        var k :| 0 <= k < |keyOrder| && keyOrder[k] == key;
        assert queryItems[k] == q;
      }
    }
    assert r.headers == [Authorization(f)];
  }

  // ---------------------------------------------------------------------------------------------
  // createAddSongsToPlaylistRequest / createCreateNewPlaylistRequest
  // ---------------------------------------------------------------------------------------------

  /** `["id": songID, "type": "songs"]`. */
  function SongEntry(songID: string): Json {
    JObject(map["id" := JString(songID), "type" := JString("songs")])
  }

  /** The `songsJson` array the loop builds: one entry per identifier, in order. */
  function SongEntries(songsIDs: seq<string>): (entries: seq<Json>)
    ensures |entries| == |songsIDs|
    ensures forall k :: 0 <= k < |songsIDs| ==> entries[k] == SongEntry(songsIDs[k])
  {
    if songsIDs == [] then [] else SongEntries(songsIDs[..|songsIDs| - 1]) + [SongEntry(songsIDs[|songsIDs| - 1])]
  }

  /** The "id" members of the entries, as a reader of the body would collect them. */
  function EntryIDs(entries: seq<Json>): seq<string> {
    if entries == [] then []
    else EntryIDs(entries[..|entries| - 1]) + [StringValue(Field(entries[|entries| - 1], "id")).GetOr("")]
  }

  /** The body's entries give back exactly the identifiers, in order. */
  lemma {:induction false} EntryIDsOfSongEntries(songsIDs: seq<string>)
    ensures EntryIDs(SongEntries(songsIDs)) == songsIDs
  {
    if songsIDs != [] {
      var n := |songsIDs| - 1;
      EntryIDsOfSongEntries(songsIDs[..n]);
      var entries := SongEntries(songsIDs);
      assert entries[..|entries| - 1] == SongEntries(songsIDs[..n]);
      assert songsIDs == songsIDs[..n] + [songsIDs[n]];
    }
  }

  method BuildSongEntries(songsIDs: seq<string>) returns (songsJson: seq<Json>)
    ensures songsJson == SongEntries(songsIDs)
  {
    songsJson := [];
    for index := 0 to |songsIDs|
      invariant songsJson == SongEntries(songsIDs[..index])
    {
      assert songsIDs[..index + 1][..index] == songsIDs[..index];
      songsJson := songsJson + [SongEntry(songsIDs[index])];
    }
    assert songsIDs[..|songsIDs|] == songsIDs;
  }

  /** A POST to the playlist's tracks whose body's "data" lists one song entry per identifier, in order. */
  method CreateAddSongsToPlaylistRequest(f: Factory, playlistID: string, songsIDs: seq<string>)
    returns (r: Request)
    ensures r.httpMethod == POST && r.path == "/v1/me/library/playlists/" + playlistID + "/tracks"
    ensures r.query == [] && r.headers == [Authorization(f), UserTokenHeader(f)]
    ensures r.body == Some(JObject(map["data" := JArray(SongEntries(songsIDs))]))
    ensures EntryIDs(Field(r.body.value, "data").items) == songsIDs
  {
    var songsJson := BuildSongEntries(songsIDs);
    var bodyJson := JObject(map["data" := JArray(songsJson)]);
    var path := "/v1/me/library" + "/playlists" + "/" + playlistID + "/tracks";
    assert path == "/v1/me/library/playlists/" + playlistID + "/tracks";
    r := MakeRequest(f, POST, path, [], true, Some(bodyJson));
    EntryIDsOfSongEntries(songsIDs);
  }

  /** The body of a new playlist: `["attributes": ["name": …, "description": …],
      "relationships": ["tracks": ["data": entries]]]`. */
  function NewPlaylistBody(name: string, description: string, entries: seq<Json>): (body: Json)
    ensures Field(Field(body, "attributes"), "name") == JString(name)
    ensures Field(Field(body, "attributes"), "description") == JString(description)
    ensures Field(Field(Field(body, "relationships"), "tracks"), "data") == JArray(entries)
  {
    var attributes := JObject(map["name" := JString(name), "description" := JString(description)]);
    var songsDataJson := JObject(map["data" := JArray(entries)]);
    var tracksJson := JObject(map["tracks" := songsDataJson]);
    JObject(map["attributes" := attributes, "relationships" := tracksJson])
  }

  /** A POST to `/v1/me/library/playlists` whose body carries the name and description under
      "attributes" and the song entries under "relationships" → "tracks" → "data". */
  method CreateCreateNewPlaylistRequest(f: Factory, name: string, description: string, songsIDs: seq<string>)
    returns (r: Request)
    ensures r.httpMethod == POST && r.path == "/v1/me/library/playlists"
    ensures r.query == [] && r.headers == [Authorization(f), UserTokenHeader(f)]
    ensures r.body == Some(NewPlaylistBody(name, description, SongEntries(songsIDs)))
  {
    var songsJson := BuildSongEntries(songsIDs);
    var bodyJson := NewPlaylistBody(name, description, songsJson);
    r := MakeRequest(f, POST, "/v1/me/library" + "/playlists", [], true, Some(bodyJson));
  }

  /** Reading the new playlist's track entries back gives the identifiers, in order. */
  lemma NewPlaylistTracksReadBack(name: string, description: string, songsIDs: seq<string>)
    ensures var body := NewPlaylistBody(name, description, SongEntries(songsIDs));
      EntryIDs(Field(Field(Field(body, "relationships"), "tracks"), "data").items) == songsIDs
  {
    EntryIDsOfSongEntries(songsIDs);
  }
}
