/** The values exchanged with the Spotify Web API and with the secret store,
    as the backend sees them. The calls themselves are not modelled; their
    outcomes are given to the operations that make them. */
module SpotifyApi {
  import opened Base

  /** An error thrown by an external call or by the JavaScript runtime.
      `statusCode` is the HTTP status the client library attaches, if any
      (a runtime TypeError carries none). */
  datatype ApiError = ApiError(statusCode: Option<int>)

  /** The parsed secret: a flat mapping of field names to values. */
  type Secret = map<string, string>

  /** `secretObj[field]`: the value of a field, or `undefined`. */
  function Field(secret: Secret, field: string): (r: Option<string>)
    ensures r.Some? <==> field in secret
    ensures r.Some? ==> r.value == secret[field]
  {
    if field in secret then Some(secret[field]) else None
  }

  /** The settings read from the environment: the secret's id, the name of
      the field holding the client secret, and the client id. */
  datatype Config = Config(secretId: string, secretField: string, clientId: string)

  /** The secret cache after a `getSecret` call, the value the call resolves
      with or the error it throws, and the requests it issued. */
  datatype SecretFetch = SecretFetch(cached: Option<Secret>, result: Result<Secret, ApiError>, calls: seq<Call>)

  /** `getSecret` (both copies in the backend): return the cached secret if
      there is one; otherwise fetch it, and cache it if the fetch resolves.
      `fetched` is the outcome the secret store would give. */
  function FetchOnce(cached: Option<Secret>, secretId: string, fetched: Result<Secret, ApiError>): (r: SecretFetch)
    ensures r.calls != [] <==> cached.None?
    ensures r.calls != [] ==> r.calls == [FetchSecret(secretId, fetched.Ok?)]
    ensures cached.Some? ==> r.cached == cached && r.result == Ok(cached.value)
    ensures cached.None? ==> r.result == fetched
    ensures r.result.Ok? ==> r.cached == Some(r.result.value)
    ensures r.result.Err? ==> r.cached.None?
  {
    if cached.Some? then SecretFetch(cached, Ok(cached.value), [])
    else
      match fetched
      case Ok(secret) => SecretFetch(Some(secret), Ok(secret), [FetchSecret(secretId, true)])
      case Err(e) => SecretFetch(None, Err(e), [FetchSecret(secretId, false)])
  }

  /** Two `getSecret` calls in a row: once the first resolves, the second
      returns the identical value without any request, whatever the store
      would have answered. */
  lemma FetchOnceTwice(cached: Option<Secret>, secretId: string, first: Result<Secret, ApiError>, second: Result<Secret, ApiError>)
    requires FetchOnce(cached, secretId, first).result.Ok?
    ensures var r1 := FetchOnce(cached, secretId, first);
      var r2 := FetchOnce(r1.cached, secretId, second);
      && r2 == SecretFetch(r1.cached, r1.result, [])
      && SuccessfulFetches(r1.calls + r2.calls) <= 1
  {
    var r1 := FetchOnce(cached, secretId, first);
    assert r1.calls + [] == r1.calls;
  }

  /** A `SpotifyWebApi` instance: its credentials and the access token set on
      it, if any. */
  datatype Client = Client(clientId: string, clientSecret: Option<string>, accessToken: Option<string>)

  /** The body of a successful client-credentials grant. */
  datatype Grant = Grant(accessToken: string, expiresIn: int)

  datatype Image = Image(url: string, height: int)

  datatype Artist = Artist(name: string)

  /** `album.images` may be absent. */
  datatype Album = Album(images: Option<seq<Image>>)

  /** The fields of a Spotify track object that the backend reads. */
  datatype Track = Track(name: string, artists: seq<Artist>, durationMs: int, uri: string, album: Album)

  /** A request sent to an external service. `succeeded` records whether the
      secret-store fetch resolved. */
  datatype Call =
    | FetchSecret(secretId: string, succeeded: bool)
    | CredentialsGrant(client: Client)
    | SearchTracks(client: Client, term: string)

  /** The number of secret fetches in a trace that resolved. */
  function SuccessfulFetches(calls: seq<Call>): nat
    decreases |calls|
  {
    if calls == [] then 0
    else (if calls[0].FetchSecret? && calls[0].succeeded then 1 else 0) + SuccessfulFetches(calls[1..])
  }

  lemma {:induction false} SuccessfulFetchesAppend(a: seq<Call>, b: seq<Call>)
    ensures SuccessfulFetches(a + b) == SuccessfulFetches(a) + SuccessfulFetches(b)
    decreases |a|
  {
    if a != [] {
      assert (a + b)[1..] == a[1..] + b;
      SuccessfulFetchesAppend(a[1..], b);
    } else {
      assert a + b == b;
    }
  }
}
