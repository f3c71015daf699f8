/** The Spotify access-token cache of `SpotifyApiAccess`: a memoised secret,
    a memoised client-credentials token and a staleness rule at 90% of the
    token's advertised lifetime.

    The clock, the secret store, the client-credentials grant and the search
    endpoint are outside the model: each operation receives the clock
    readings it takes and the outcome each external call would have, and
    reports the requests it actually issued. */
module TokenCache {
  import opened Base
  import opened SpotifyApi

  /** The four mutable fields of one `SpotifyApiAccess` object. A timestamp of
      0 stands for "no token retrieved yet": the source tests the field for
      truthiness, and `undefined` and 0 both fail that test. */
  datatype CacheState = CacheState(
    timestamp: int,
    durationSeconds: int,
    cachedSecret: Option<Secret>,
    api: Option<Client>)

  /** A freshly constructed object: the cached duration starts at 0. */
  const Initial := CacheState(0, 0, None, None)

  /** The outcome of an operation: the new state, the value it resolves with
      or the error it throws, and the external requests it issued, in order. */
  datatype Step<+T> = Step(state: CacheState, result: Result<T, ApiError>, calls: seq<Call>)

  /** One external-world scenario for a `searchSong` call: the clock value
      read by the staleness check, the one stored as the timestamp, and the
      outcome the secret fetch, the grant and the search would have. */
  datatype Invocation = Invocation(
    term: string,
    checkedAt: int,
    stampedAt: int,
    fetched: Result<Secret, ApiError>,
    grant: Result<Grant, ApiError>,
    found: Result<seq<Track>, ApiError>)

  function Abs(x: int): (r: nat)
    ensures r == x || r == -x
  {
    if x < 0 then -x else x
  }

  /** `renewCachedToken`: the absolute time since retrieval, in seconds,
      exceeds 90% of the cached duration. In whole milliseconds this is
      |now - timestamp| > 900 * duration. */
  function RenewCachedToken(s: CacheState, now: int): (r: bool)
    ensures r <==> Abs(now - s.timestamp) > 900 * s.durationSeconds
  {
    (Abs(now - s.timestamp) as real) / 1000.0 > 0.9 * (s.durationSeconds as real)
  }

  /** The guard of `prepareSpotifyWebApiInstance`: no timestamp yet, or the
      token has aged past 90% of its lifetime, in either direction. */
  function NeedsRefresh(s: CacheState, now: int): (r: bool)
    ensures r <==> s.timestamp == 0 || Abs(now - s.timestamp) > 900 * s.durationSeconds
  {
    s.timestamp == 0 || RenewCachedToken(s, now)
  }

  /** Once a timestamp is recorded, a client exists. */
  predicate ClientPresent(s: CacheState)
  {
    s.timestamp != 0 ==> s.api.Some?
  }

  /** `getSecret`: fetch and memoise the secret while none is cached. Only
      the secret cache changes; a cached secret is returned with no request,
      and a resolved fetch is what the cache then holds. */
  function SecretStep(cfg: Config, s: CacheState, fetched: Result<Secret, ApiError>): (r: Step<Secret>)
    ensures r.state == s.(cachedSecret := r.state.cachedSecret)
    ensures s.cachedSecret.Some? ==> r == Step(s, Ok(s.cachedSecret.value), [])
    ensures s.cachedSecret.None? ==> r.result == fetched && r.calls == [FetchSecret(cfg.secretId, fetched.Ok?)]
    ensures r.result.Ok? ==> r.state.cachedSecret == Some(r.result.value)
  {
    var f := FetchOnce(s.cachedSecret, cfg.secretId, fetched);
    Step(s.(cachedSecret := f.cached), f.result, f.calls)
  }

  /** `prepareSpotifyWebApiInstance`, as written: on a refresh, a new client
      without a token replaces the old one and the timestamp is stored
      before the grant is requested; only a successful grant sets the token
      and the cached duration. */
  function PrepareStep(
    cfg: Config, s: CacheState, checkedAt: int, stampedAt: int,
    fetched: Result<Secret, ApiError>, grant: Result<Grant, ApiError>): (r: Step<()>)
    ensures ClientPresent(s) ==> ClientPresent(r.state)
    ensures ClientPresent(s) && r.result.Ok? ==> r.state.api.Some?
  {
    if !NeedsRefresh(s, checkedAt) then Step(s, Ok(()), [])
    else
      var sec := SecretStep(cfg, s, fetched);
      match sec.result
      case Err(e) => Step(sec.state, Err(e), sec.calls)
      case Ok(secret) =>
        var client := Client(cfg.clientId, Field(secret, cfg.secretField), None);
        var stamped := sec.state.(api := Some(client), timestamp := stampedAt);
        var calls := sec.calls + [CredentialsGrant(client)];
        match grant
        case Err(e) => Step(stamped, Err(e), calls)
        case Ok(g) =>
          Step(stamped.(api := Some(client.(accessToken := Some(g.accessToken))),
                        durationSeconds := g.expiresIn),
               Ok(()), calls)
  }

  /** `searchSong`: prepare the client, then search with it. */
  function SearchStep(cfg: Config, s: CacheState, inv: Invocation): (r: Step<seq<Track>>)
    requires ClientPresent(s)
    ensures ClientPresent(r.state)
  {
    var p := PrepareStep(cfg, s, inv.checkedAt, inv.stampedAt, inv.fetched, inv.grant);
    if p.result.Err? then Step(p.state, Err(p.result.error), p.calls)
    else Step(p.state, inv.found, p.calls + [SearchTracks(p.state.api.value, inv.term)])
  }

  /** A sequence of `searchSong` calls on one warm object: the final state and
      every request issued. */
  function Run(cfg: Config, s: CacheState, invs: seq<Invocation>): (r: (CacheState, seq<Call>))
    requires ClientPresent(s)
    ensures ClientPresent(r.0)
    decreases |invs|
  {
    if invs == [] then (s, [])
    else
      var st := SearchStep(cfg, s, invs[0]);
      var rest := Run(cfg, st.state, invs[1..]);
      (rest.0, st.calls + rest.1)
  }

  // ----- Properties of the refresh decision -----

  /** A refresh is attempted (some request is issued) exactly when no
      timestamp is recorded or the token is stale; otherwise nothing changes. */
  lemma PrepareRefreshesIff(
    cfg: Config, s: CacheState, checkedAt: int, stampedAt: int,
    fetched: Result<Secret, ApiError>, grant: Result<Grant, ApiError>)
    ensures var r := PrepareStep(cfg, s, checkedAt, stampedAt, fetched, grant);
      && (r.calls != [] <==> s.timestamp == 0 || Abs(checkedAt - s.timestamp) > 900 * s.durationSeconds)
      && (r.calls == [] ==> r.state == s && r.result == Ok(()))
  {
  }

  /** The difference is absolute: a timestamp lying in the future ages
      exactly as fast as one in the past. */
  lemma RenewCachedTokenSymmetric(s: CacheState, k: int)
    ensures RenewCachedToken(s, s.timestamp + k) == RenewCachedToken(s, s.timestamp - k)
    ensures k > 900 * s.durationSeconds && k >= 0 ==> RenewCachedToken(s, s.timestamp - k)
  {
  }

  /** The cached duration starts at 0, so until a grant succeeds any elapsed
      time at all forces a refresh. */
  lemma ZeroDurationForcesRefresh(s: CacheState, now: int)
    requires s.durationSeconds == 0 && now != s.timestamp
    ensures NeedsRefresh(s, now)
  {
  }

  /** After a successful refresh, the timestamp is the clock value read
      before the grant, the duration is the advertised lifetime and the
      client holds the new token. */
  lemma SuccessfulRefresh(
    cfg: Config, s: CacheState, checkedAt: int, stampedAt: int,
    fetched: Result<Secret, ApiError>, g: Grant)
    requires NeedsRefresh(s, checkedAt)
    requires s.cachedSecret.Some? || fetched.Ok?
    ensures var r := PrepareStep(cfg, s, checkedAt, stampedAt, fetched, Ok(g));
      && r.result == Ok(())
      && r.state.timestamp == stampedAt
      && r.state.durationSeconds == g.expiresIn
      && r.state.api.Some? && r.state.api.value.accessToken == Some(g.accessToken)
      && r.state.api.value.clientId == cfg.clientId
      && r.state.cachedSecret.Some?
      && |r.calls| > 0 && r.calls[|r.calls| - 1].CredentialsGrant?
  {
  }

  /** A failed grant throws after the timestamp has been advanced: the
      duration keeps its previous value and the client has no token. */
  lemma FailedGrant(
    cfg: Config, s: CacheState, checkedAt: int, stampedAt: int,
    fetched: Result<Secret, ApiError>, e: ApiError)
    requires NeedsRefresh(s, checkedAt)
    requires s.cachedSecret.Some? || fetched.Ok?
    ensures var r := PrepareStep(cfg, s, checkedAt, stampedAt, fetched, Err(e));
      && r.result == Err(e)
      && r.state.timestamp == stampedAt
      && r.state.durationSeconds == s.durationSeconds
      && r.state.api.Some? && r.state.api.value.accessToken.None?
  {
  }

  /** A failed secret fetch throws before anything else changes. */
  lemma FailedSecretFetch(
    cfg: Config, s: CacheState, checkedAt: int, stampedAt: int,
    e: ApiError, grant: Result<Grant, ApiError>)
    requires NeedsRefresh(s, checkedAt) && s.cachedSecret.None?
    ensures PrepareStep(cfg, s, checkedAt, stampedAt, Err(e), grant)
      == Step(s, Err(e), [FetchSecret(cfg.secretId, false)])
  {
  }

  // ----- The secret is fetched at most once -----

  /** One `searchSong` call issues a successful fetch exactly when it fills
      the secret cache, and never empties it. */
  lemma SearchStepSecret(cfg: Config, s: CacheState, inv: Invocation)
    requires ClientPresent(s)
    ensures var r := SearchStep(cfg, s, inv);
      && (s.cachedSecret.Some? ==> r.state.cachedSecret == s.cachedSecret)
      && (s.cachedSecret.Some? ==> forall i :: 0 <= i < |r.calls| ==> !r.calls[i].FetchSecret?)
      && SuccessfulFetches(r.calls) == (if s.cachedSecret.None? && r.state.cachedSecret.Some? then 1 else 0)
  {
    var p := PrepareStep(cfg, s, inv.checkedAt, inv.stampedAt, inv.fetched, inv.grant);
    var r := SearchStep(cfg, s, inv);
    if NeedsRefresh(s, inv.checkedAt) {
      var sec := SecretStep(cfg, s, inv.fetched);
      if sec.result.Ok? {
        var client := Client(cfg.clientId, Field(sec.result.value, cfg.secretField), None);
        SuccessfulFetchesAppend(sec.calls, [CredentialsGrant(client)]);
        assert SuccessfulFetches([CredentialsGrant(client)]) == 0;
      }
    }
    if p.result.Ok? {
      SuccessfulFetchesAppend(p.calls, [SearchTracks(p.state.api.value, inv.term)]);
      assert SuccessfulFetches([SearchTracks(p.state.api.value, inv.term)]) == 0;
    }
  }

  /** Over any sequence of searches on one warm object, the secret store
      answers successfully at most once: exactly when the cache goes from
      unset to set. Once cached, the store is never asked again. */
  lemma {:induction false} SecretFetchedAtMostOnce(cfg: Config, s: CacheState, invs: seq<Invocation>)
    requires ClientPresent(s)
    ensures var r := Run(cfg, s, invs);
      && (s.cachedSecret.Some? ==> r.0.cachedSecret == s.cachedSecret)
      && (s.cachedSecret.Some? ==> forall i :: 0 <= i < |r.1| ==> !r.1[i].FetchSecret?)
      && SuccessfulFetches(r.1) == (if s.cachedSecret.None? && r.0.cachedSecret.Some? then 1 else 0)
    decreases |invs|
  {
    if invs != [] {
      var st := SearchStep(cfg, s, invs[0]);
      var rest := Run(cfg, st.state, invs[1..]);
      SearchStepSecret(cfg, s, invs[0]);
      SecretFetchedAtMostOnce(cfg, st.state, invs[1..]);
      SuccessfulFetchesAppend(st.calls, rest.1);
      var all := st.calls + rest.1;
      if s.cachedSecret.Some? {
        forall i | 0 <= i < |all| ensures !all[i].FetchSecret? {
          if i >= |st.calls| {
            assert all[i] == rest.1[i - |st.calls|];
          }
        }
      }
    }
  }

  // ----- Searching after preparing -----

  /** A search is issued only after the preparation succeeded, as the last
      request, with the client the preparation left behind. */
  lemma SearchFollowsPrepare(cfg: Config, s: CacheState, inv: Invocation)
    requires ClientPresent(s)
    ensures var p := PrepareStep(cfg, s, inv.checkedAt, inv.stampedAt, inv.fetched, inv.grant);
      var r := SearchStep(cfg, s, inv);
      && r.state == p.state
      && (p.result.Ok? <==> |r.calls| == |p.calls| + 1)
      && (p.result.Ok? ==> r.calls == p.calls + [SearchTracks(p.state.api.value, inv.term)] && r.result == inv.found)
      && (p.result.Err? ==> r.calls == p.calls && r.result == Err(p.result.error))
  {
  }

  /** The search can go out without an access token: a grant fails on a
      refresh, and the next search, inside 90% of the previous token's
      lifetime from the new timestamp, is sent with the token-less client. */
  lemma SearchWithoutTokenAsWritten()
    ensures
      var cfg := Config("spotify-secret", "client-secret", "client-id");
      var secret := map["client-secret" := "s3cr3t"];
      var first := SearchStep(cfg, Initial, Invocation("rain", 1_000, 1_000, Ok(secret), Ok(Grant("token-1", 3600)), Ok([])));
      var failed := SearchStep(cfg, first.state,
        Invocation("rain", 3_301_000, 3_301_000, Ok(secret), Err(ApiError(Some(503))), Ok([])));
      var next := SearchStep(cfg, failed.state,
        Invocation("rain", 3_302_000, 3_302_000, Ok(secret), Ok(Grant("token-2", 3600)), Ok([])));
      && failed.result == Err(ApiError(Some(503)))
      && next.calls == [SearchTracks(Client("client-id", Some("s3cr3t"), None), "rain")]
  {
    var cfg := Config("spotify-secret", "client-secret", "client-id");
    var secret := map["client-secret" := "s3cr3t"];
    assert Field(secret, "client-secret") == Some("s3cr3t");
    var first := SearchStep(cfg, Initial, Invocation("rain", 1_000, 1_000, Ok(secret), Ok(Grant("token-1", 3600)), Ok([])));
    assert first.state == CacheState(1_000, 3600, Some(secret), Some(Client("client-id", Some("s3cr3t"), Some("token-1"))));
    assert RenewCachedToken(first.state, 3_301_000);
    var failed := SearchStep(cfg, first.state,
      Invocation("rain", 3_301_000, 3_301_000, Ok(secret), Err(ApiError(Some(503))), Ok([])));
    assert failed.state == CacheState(3_301_000, 3600, Some(secret), Some(Client("client-id", Some("s3cr3t"), None)));
    assert !RenewCachedToken(failed.state, 3_302_000);
  }

  // ----- The corrected refresh -----

  /** Whenever a timestamp is recorded, the client holds an access token. */
  predicate TokenReady(s: CacheState)
  {
    s.timestamp != 0 ==> s.api.Some? && s.api.value.accessToken.Some?
  }

  /** The refresh with the timestamp, the client and the duration committed
      together, only once the grant has succeeded. The timestamp is still the
      clock value read before the grant. A failed grant changes nothing but
      the secret cache. */
  function PrepareCorrected(
    cfg: Config, s: CacheState, checkedAt: int, stampedAt: int,
    fetched: Result<Secret, ApiError>, grant: Result<Grant, ApiError>): (r: Step<()>)
    ensures TokenReady(s) ==> TokenReady(r.state)
    ensures r.result.Ok? && NeedsRefresh(s, checkedAt) ==>
      && grant.Ok? && r.state.timestamp == stampedAt && r.state.durationSeconds == grant.value.expiresIn
      && r.state.api.Some? && r.state.api.value.clientId == cfg.clientId
      && r.state.api.value.accessToken == Some(grant.value.accessToken)
    ensures r.result.Err? ==>
      r.state.timestamp == s.timestamp && r.state.api == s.api && r.state.durationSeconds == s.durationSeconds
    ensures !NeedsRefresh(s, checkedAt) ==> r == Step(s, Ok(()), [])
  {
    if !NeedsRefresh(s, checkedAt) then Step(s, Ok(()), [])
    else
      var sec := SecretStep(cfg, s, fetched);
      match sec.result
      case Err(e) => Step(sec.state, Err(e), sec.calls)
      case Ok(secret) =>
        var client := Client(cfg.clientId, Field(secret, cfg.secretField), None);
        var calls := sec.calls + [CredentialsGrant(client)];
        match grant
        case Err(e) => Step(sec.state, Err(e), calls)
        case Ok(g) =>
          Step(sec.state.(api := Some(client.(accessToken := Some(g.accessToken))),
                          timestamp := stampedAt, durationSeconds := g.expiresIn),
               Ok(()), calls)
  }

  /** Every search request in `calls` carries an access token. */
  predicate SearchesCarryToken(calls: seq<Call>)
  {
    forall i :: 0 <= i < |calls| && calls[i].SearchTracks? ==> calls[i].client.accessToken.Some?
  }

  /** `searchSong` over the corrected refresh: it keeps the token invariant
      and sends its search, if any, with an access token, after the
      preparation's requests. */
  function SearchCorrected(cfg: Config, s: CacheState, inv: Invocation): (r: Step<seq<Track>>)
    requires TokenReady(s)
    ensures TokenReady(r.state)
    ensures SearchesCarryToken(r.calls)
    ensures r.result.Ok? ==> r.result == inv.found
  {
    var p := PrepareCorrected(cfg, s, inv.checkedAt, inv.stampedAt, inv.fetched, inv.grant);
    if p.result.Err? then Step(p.state, Err(p.result.error), p.calls)
    else Step(p.state, inv.found, p.calls + [SearchTracks(p.state.api.value, inv.term)])
  }

  /** A sequence of corrected `searchSong` calls on one warm object. */
  function RunCorrected(cfg: Config, s: CacheState, invs: seq<Invocation>): (r: (CacheState, seq<Call>))
    requires TokenReady(s)
    ensures TokenReady(r.0)
    decreases |invs|
  {
    if invs == [] then (s, [])
    else
      var st := SearchCorrected(cfg, s, invs[0]);
      var rest := RunCorrected(cfg, st.state, invs[1..]);
      (rest.0, st.calls + rest.1)
  }

  /** With the corrected refresh, no search of any sequence of searches on
      one warm object is ever sent without an access token, whatever the
      clock, the secret store and the grants do. */
  lemma {:induction false} CorrectedSearchesHaveToken(cfg: Config, s: CacheState, invs: seq<Invocation>)
    requires TokenReady(s)
    ensures SearchesCarryToken(RunCorrected(cfg, s, invs).1)
    decreases |invs|
  {
    if invs != [] {
      var st := SearchCorrected(cfg, s, invs[0]);
      var rest := RunCorrected(cfg, st.state, invs[1..]);
      CorrectedSearchesHaveToken(cfg, st.state, invs[1..]);
      var all := st.calls + rest.1;
      forall i | 0 <= i < |all| && all[i].SearchTracks?
        ensures all[i].client.accessToken.Some?
      {
        if i >= |st.calls| {
          assert all[i] == rest.1[i - |st.calls|];
        }
      }
    }
  }

  // ----- The object -----

  /** `SpotifyApiAccess`: the four fields the source updates in place. Each
      method does what the source does, step by step, and is proved to agree
      with the step function above. */
  class SpotifyApiAccess {
    const config: Config
    var timestampRetrieveAccessToken: int
    var spotifyTokenCacheDurationSeconds: int
    var cachedSecret: Option<Secret>
    var spotifyApi: Option<Client>

    function State(): CacheState
      reads this
    {
      CacheState(timestampRetrieveAccessToken, spotifyTokenCacheDurationSeconds, cachedSecret, spotifyApi)
    }

    constructor (cfg: Config)
      ensures config == cfg && State() == Initial
    {
      config := cfg;
      timestampRetrieveAccessToken := 0;
      spotifyTokenCacheDurationSeconds := 0;
      cachedSecret := None;
      spotifyApi := None;
    }

    method GetSecret(fetched: Result<Secret, ApiError>) returns (r: Result<Secret, ApiError>, calls: seq<Call>)
      modifies this
      ensures var st := SecretStep(config, old(State()), fetched);
        State() == st.state && r == st.result && calls == st.calls
    {
      calls := [];
      if cachedSecret.None? {
        calls := [FetchSecret(config.secretId, fetched.Ok?)];
        if fetched.Err? {
          return Err(fetched.error), calls;
        }
        cachedSecret := Some(fetched.value);
      }
      r := Ok(cachedSecret.value);
    }

    method PrepareSpotifyWebApiInstance(
      checkedAt: int, stampedAt: int,
      fetched: Result<Secret, ApiError>, grant: Result<Grant, ApiError>)
      returns (r: Result<(), ApiError>, calls: seq<Call>)
      modifies this
      ensures var st := PrepareStep(config, old(State()), checkedAt, stampedAt, fetched, grant);
        State() == st.state && r == st.result && calls == st.calls
    {
      calls := [];
      if timestampRetrieveAccessToken == 0 || RenewCachedToken(State(), checkedAt) {
        var secretObj;
        secretObj, calls := GetSecret(fetched);
        if secretObj.Err? {
          return Err(secretObj.error), calls;
        }
        var spotifyClientSecret := Field(secretObj.value, config.secretField);
        var client := Client(config.clientId, spotifyClientSecret, None);
        spotifyApi := Some(client);
        timestampRetrieveAccessToken := stampedAt;
        calls := calls + [CredentialsGrant(client)];
        if grant.Err? {
          return Err(grant.error), calls;
        }
        spotifyApi := Some(client.(accessToken := Some(grant.value.accessToken)));
        spotifyTokenCacheDurationSeconds := grant.value.expiresIn;
      }
      r := Ok(());
    }

    method SearchSong(inv: Invocation) returns (r: Result<seq<Track>, ApiError>, calls: seq<Call>)
      requires ClientPresent(State())
      modifies this
      ensures ClientPresent(State())
      ensures var st := SearchStep(config, old(State()), inv);
        State() == st.state && r == st.result && calls == st.calls
    {
      var prepared;
      prepared, calls := PrepareSpotifyWebApiInstance(inv.checkedAt, inv.stampedAt, inv.fetched, inv.grant);
      if prepared.Err? {
        return Err(prepared.error), calls;
      }
      calls := calls + [SearchTracks(spotifyApi.value, inv.term)];
      r := inv.found;
    }
  }
}
