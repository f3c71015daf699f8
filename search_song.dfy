/** The `searchSong` HTTP handler: it resolves the secret through its own
    module-level memo, performs a fresh client-credentials grant, searches,
    and shapes each track into the client's result form. */
module SearchSong {
  import opened Base
  import opened Strings
  import opened SpotifyApi

  // ----- Smallest image -----

  /** Every image is at most as high as the ones after it. */
  predicate SortedByHeight(s: seq<Image>)
  {
    forall i, j :: 0 <= i < j < |s| ==> s[i].height <= s[j].height
  }

  /** Insert an image before the first one that is at least as high, so that
      equal heights keep their original order. */
  function InsertByHeight(x: Image, t: seq<Image>): (r: seq<Image>)
    ensures |r| == |t| + 1
    ensures multiset(r) == multiset(t) + multiset{x}
    ensures r[0] == if t == [] || x.height <= t[0].height then x else t[0]
    ensures SortedByHeight(t) ==> SortedByHeight(r)
    decreases |t|
  {
    if t == [] || x.height <= t[0].height then [x] + t
    else
      assert t == [t[0]] + t[1..];
      [t[0]] + InsertByHeight(x, t[1..])
  }

  /** `images.slice().sort((a, b) => a.height - b.height)`: a stable sort of
      a copy by ascending height. */
  function SortByHeight(s: seq<Image>): (r: seq<Image>)
    ensures |r| == |s|
    ensures multiset(r) == multiset(s)
    ensures SortedByHeight(r)
    decreases |s|
  {
    if s == [] then []
    else
      assert s == [s[0]] + s[1..];
      InsertByHeight(s[0], SortByHeight(s[1..]))
  }

  /** `retrieveSmallestImageUrl`: the url of the first image after sorting, or
      the empty string when there are no images. */
  function SmallestImageUrl(images: Option<seq<Image>>): (r: string)
    ensures images.None? || images.value == [] ==> r == ""
  {
    var sorted := if images.Some? then SortByHeight(images.value) else [];
    if |sorted| > 0 then sorted[0].url else ""
  }

  /** `i` is the first position holding a lowest image. */
  ghost predicate FirstLowest(s: seq<Image>, i: int)
  {
    && 0 <= i < |s|
    && (forall j :: 0 <= j < |s| ==> s[i].height <= s[j].height)
    && (forall j :: 0 <= j < i ==> s[j].height > s[i].height)
  }

  /** An independent definition: the first position of a lowest image,
      found by a scan instead of a sort. */
  function FirstLowestIndex(s: seq<Image>): (i: nat)
    requires |s| > 0
    ensures FirstLowest(s, i)
    decreases |s|
  {
    if |s| == 1 then 0
    else
      var k := FirstLowestIndex(s[1..]);
      if s[0].height <= s[1 + k].height then 0 else 1 + k
  }

  /** The stable sort puts the first lowest image in front. */
  lemma {:induction false} SortHeadIsFirstLowest(s: seq<Image>)
    requires |s| > 0
    ensures SortByHeight(s)[0] == s[FirstLowestIndex(s)]
    decreases |s|
  {
    if |s| > 1 {
      SortHeadIsFirstLowest(s[1..]);
    }
  }

  /** The chosen url is that of the first image of least height; with no
      images it is empty. */
  lemma SmallestImageIsLowest(images: Option<seq<Image>>)
    ensures images.Some? && |images.value| > 0 ==>
      var i := FirstLowestIndex(images.value);
      && FirstLowest(images.value, i)
      && SmallestImageUrl(images) == images.value[i].url
    ensures images.None? || images.value == [] ==> SmallestImageUrl(images) == ""
  {
    if images.Some? && |images.value| > 0 {
      SortHeadIsFirstLowest(images.value);
    }
  }

  // ----- Artist names -----

  function ArtistNames(artists: seq<Artist>): (r: seq<string>)
    ensures |r| == |artists|
    ensures forall i :: 0 <= i < |artists| ==> r[i] == artists[i].name
  {
    seq(|artists|, i requires 0 <= i < |artists| => artists[i].name)
  }

  /** `artistsFormatterString`: the names joined with ", ". */
  function ArtistsFormatterString(artists: seq<Artist>): (r: string)
    ensures artists == [] ==> r == ""
    ensures |artists| == 1 ==> r == artists[0].name
  {
    Join(ArtistNames(artists), ", ")
  }

  /** The names appear in input order: a further artist adds ", " and its
      name at the end, and the first artist's name comes first. */
  lemma ArtistsInOrder(artists: seq<Artist>, a: Artist)
    ensures artists != [] ==>
      ArtistsFormatterString(artists + [a]) == ArtistsFormatterString(artists) + ", " + a.name
    ensures artists != [] ==>
      ArtistsFormatterString([a] + artists) == a.name + ", " + ArtistsFormatterString(artists)
  {
    if artists != [] {
      assert ArtistNames(artists + [a]) == ArtistNames(artists) + [a.name];
      JoinSnoc(ArtistNames(artists), a.name, ", ");
      assert ArtistNames([a] + artists)[1..] == ArtistNames(artists);
    }
  }

  // ----- Track projection -----

  /** The result form sent to the client. */
  datatype MinimalTrack = MinimalTrack(name: string, artists: string, durationMs: int, uri: string, imageUrl: string)

  /** The per-track function of `tracks.map`: name, duration and uri are
      copied; the image is that of the first image of least height, or none;
      the artists are the names joined with ", ". */
  function ProjectTrack(t: Track): (r: MinimalTrack)
    ensures r.name == t.name && r.durationMs == t.durationMs && r.uri == t.uri
    ensures t.album.images.Some? && |t.album.images.value| > 0 ==>
      r.imageUrl == t.album.images.value[FirstLowestIndex(t.album.images.value)].url
    ensures t.album.images.None? || t.album.images.value == [] ==> r.imageUrl == ""
    ensures t.artists == [] ==> r.artists == ""
    ensures |t.artists| == 1 ==> r.artists == t.artists[0].name
    ensures r.artists == ArtistsFormatterString(t.artists)
  {
    SmallestImageIsLowest(t.album.images);
    MinimalTrack(t.name, ArtistsFormatterString(t.artists), t.durationMs, t.uri, SmallestImageUrl(t.album.images))
  }

  /** `tracks.map(...)`: one result per track, in the same order; name,
      duration and uri are copied, the artists joined and the smallest image
      chosen. */
  function MinimalTracks(tracks: seq<Track>): (r: seq<MinimalTrack>)
    ensures |r| == |tracks|
    ensures forall i :: 0 <= i < |tracks| ==>
      && r[i].name == tracks[i].name
      && r[i].durationMs == tracks[i].durationMs
      && r[i].uri == tracks[i].uri
      && r[i].artists == ArtistsFormatterString(tracks[i].artists)
      && r[i].imageUrl == SmallestImageUrl(tracks[i].album.images)
    ensures forall i :: 0 <= i < |tracks| ==> r[i] == ProjectTrack(tracks[i])
  {
    seq(|tracks|, i requires 0 <= i < |tracks| => ProjectTrack(tracks[i]))
  }

  // ----- Responses -----

  /** `err.statusCode || 500`: a missing or zero status code becomes 500. */
  function ErrorStatus(e: ApiError): (r: int)
    ensures r != 0
    ensures e.statusCode.Some? && e.statusCode.value != 0 ==> r == e.statusCode.value
    ensures e.statusCode.None? || e.statusCode.value == 0 ==> r == 500
  {
    if e.statusCode.Some? && e.statusCode.value != 0 then e.statusCode.value else 500
  }

  datatype Body = Tracks(tracks: seq<MinimalTrack>) | Error(error: ApiError)

  datatype Response = Response(statusCode: int, body: Body)

  /** The part of the handler inside `try`: a new client from the secret, a
      fresh grant, then the search. `query` is the search term, or `None`
      when the event has no query parameters (reading it then throws).

      Every invocation starts with a grant for a new client that has no
      token, so no token is ever reused; a search is sent only after a
      successful grant and carries exactly that grant's token. The response
      carries the shaped tracks, with status 200, exactly when grant and
      search both succeed; otherwise it carries the error and its status. */
  function Respond(
    cfg: Config, secret: Secret, query: Option<string>,
    grant: Result<Grant, ApiError>, found: Result<seq<Track>, ApiError>): (r: (Response, seq<Call>))
    ensures var (resp, calls) := r;
      && |calls| == (if grant.Ok? && query.Some? then 2 else 1)
      && calls[0] == CredentialsGrant(Client(cfg.clientId, Field(secret, cfg.secretField), None))
      && (forall i :: 0 <= i < |calls| && calls[i].SearchTracks? ==>
            grant.Ok? && calls[i].client.accessToken == Some(grant.value.accessToken))
      && (resp.body.Tracks? <==> grant.Ok? && query.Some? && found.Ok?)
      && (resp.body.Tracks? ==> resp.statusCode == 200)
      && (resp.body.Error? ==> resp.statusCode == ErrorStatus(resp.body.error))
      && (grant.Err? ==> resp == Response(ErrorStatus(grant.error), Error(grant.error)))
      && (grant.Ok? && query.Some? && found.Ok? ==> resp.body == Tracks(MinimalTracks(found.value)))
  {
    var client := Client(cfg.clientId, Field(secret, cfg.secretField), None);
    var granted := [CredentialsGrant(client)];
    match grant
    case Err(e) => (Response(ErrorStatus(e), Error(e)), granted)
    case Ok(g) =>
      var authorised := client.(accessToken := Some(g.accessToken));
      match query
      case None => (Response(500, Error(ApiError(None))), granted)
      case Some(term) =>
        var calls := granted + [SearchTracks(authorised, term)];
        match found
        case Err(e) => (Response(ErrorStatus(e), Error(e)), calls)
        case Ok(tracks) => (Response(200, Tracks(MinimalTracks(tracks))), calls)
  }

  /** The handler module: its one piece of state is the memoised secret. */
  class SearchSongHandler {
    const config: Config
    var cachedSecret: Option<Secret>

    constructor (cfg: Config)
      ensures config == cfg && cachedSecret.None?
    {
      config := cfg;
      cachedSecret := None;
    }

    method GetSecret(fetched: Result<Secret, ApiError>) returns (r: Result<Secret, ApiError>, calls: seq<Call>)
      modifies this
      ensures var f := FetchOnce(old(cachedSecret), config.secretId, fetched);
        cachedSecret == f.cached && r == f.result && calls == f.calls
    {
      if cachedSecret.Some? {
        return Ok(cachedSecret.value), [];
      }
      calls := [FetchSecret(config.secretId, fetched.Ok?)];
      if fetched.Err? {
        return Err(fetched.error), calls;
      }
      cachedSecret := Some(fetched.value);
      r := Ok(cachedSecret.value);
    }

    /** The whole handler. A failed secret fetch happens outside `try`, so it
        rejects the invocation (`Err`) instead of producing a response. */
    method Handle(
      query: Option<string>, fetched: Result<Secret, ApiError>,
      grant: Result<Grant, ApiError>, found: Result<seq<Track>, ApiError>)
      returns (r: Result<Response, ApiError>, calls: seq<Call>)
      modifies this
      ensures var f := FetchOnce(old(cachedSecret), config.secretId, fetched);
        && cachedSecret == f.cached
        && (f.result.Err? ==> r == Err(f.result.error) && calls == f.calls)
        && (f.result.Ok? ==>
              var (resp, sent) := Respond(config, f.result.value, query, grant, found);
              r == Ok(resp) && calls == f.calls + sent)
    {
      var secretObj;
      secretObj, calls := GetSecret(fetched);
      if secretObj.Err? {
        return Err(secretObj.error), calls;
      }
      var (resp, sent) := Respond(config, secretObj.value, query, grant, found);
      r := Ok(resp);
      calls := calls + sent;
    }
  }
}
