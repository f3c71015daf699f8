# my-music-library core, modelled in Dafny

This project models the parts of the my-music-library backend and client
that hold logic of their own. The rest of the repository is HTTP, storage
and rendering glue. The modelled parts are:

- **Spotify access-token cache** (`TokenCache`, from `spotifyApiAccess.ts`).
  The class `SpotifyApiAccess` has four fields: a retrieval timestamp, a
  cached token lifetime, a memoised secret and the API client.
  - A search first decides whether to refresh. It refreshes when no
    timestamp is recorded, or when the absolute time since retrieval exceeds
    90% of the lifetime.
  - A refresh fetches the secret at most once, builds a new client, stores
    the timestamp, and then requests a client-credentials grant.
  - The class's methods follow the source step by step. Each is proved
    equal to a pure step function (`SecretStep`, `PrepareStep`,
    `SearchStep`), and the properties are proved about those functions.
- **Search-result shaping** (`SearchSong`, from `searchSong.ts`).
  - Choosing the smallest image by a stable sort of a copy.
  - Joining artist names with `", "`.
  - The per-track projection and the error status default.
  - The handler, which has its own module-level secret memo and makes a
    fresh grant on every call.
- **Authorizer string handling** (`Authorizer`, from `auth0Authorizer.ts`).
  - Parsing the bearer header. The scheme of section 2.1 of RFC 6750 is
    compared case-insensitively.
  - Wrapping the certificate in PEM form: 64-character lines between the
    header and footer lines of section 2 of RFC 7468.
  - Selecting the signing key by `kid`.
  - The Allow/Deny policy.
- **To-do business rules** (`TodoItems`, from `todoItems.ts`). The rules run
  over a table keyed by (userId, todoId):
  - create;
  - existence-guarded update and attach;
  - delete together with the attachment;
  - extracting the attachment id from its URL.
- **Client library state** (`MusicAppComponent`, from `MusicApp.tsx`).
  - The list of track ids, which grows on add and is filtered on delete.
  - An `addable` flag recomputed for each search result.

`Base` holds Option and Result. `Strings` holds JavaScript's `split` and
`join` with their round trips. `SpotifyApi` holds the values exchanged with
Spotify and the secret store, and the shared `getSecret` memo (`FetchOnce`).

External effects are parameters, never calls:
- clock readings (integer milliseconds);
- generated uuids and creation times;
- the outcome of every secret fetch, grant, search, JWT decode, JWKS fetch,
  signature check and table write.

Operations that talk to services return the requests they issued (`Call`),
so "fetched at most once" and "grants on every call" can be stated.

Notes on the code as written:
- The staleness test uses the absolute time difference. A timestamp in the
  future therefore ages exactly like one in the past and also forces a
  refresh once it is far enough away (`RenewCachedTokenSymmetric`). It does
  not suppress refreshes.
- The search result carries `duration_ms` unchanged. The code has no
  duration formatting; `client/src/types/SearchResult.ts:4` leaves it as a
  TODO.
- `!timestamp` is true both for `undefined` and for 0. The model therefore
  represents "no timestamp" as 0, and the epoch reading 0 behaves as unset,
  just as in the source.
- The client compares `result.id` against the library, but the backend
  projection (`backend/src/lambda/http/searchSong.ts:51`) sends no `id`.
  The client model keeps the `id` field as the client code reads it.
- Likewise, `addSong` resolves with `response.data.item`
  (`client/src/api/songs-api.ts:25`), annotated as a track-id string. The
  backend fills `item` with the stored song record `{userId, trackId}`
  (`backend/src/lambda/http/addSong.ts:24-26`), not with an id. The client
  model follows the client's annotation, so `OnSongAdd` appends a string.

## Model

| member | source | states |
|---|---|---|
| SpotifyApi.Field | backend/src/lambda/dataLayer/spotifyApiAccess.ts:31 | `secretObj[field]`: present exactly when the secret has the field, and then that field's value. |
| SpotifyApi.FetchOnce | backend/src/lambda/dataLayer/spotifyApiAccess.ts:50-60 | The store is asked only when no secret is cached. A cached secret is returned unchanged, without a request. A resolved fetch is cached, and a failed fetch leaves the cache unset. |
| SpotifyApi.FetchOnceTwice | backend/src/lambda/http/searchSong.ts:77-89 | Once a first call resolves, a second call returns the identical value with no request, whatever the store would answer. At most one fetch succeeds. |
| TokenCache.RenewCachedToken | backend/src/lambda/dataLayer/spotifyApiAccess.ts:44-48 | The source's real-number test (seconds since retrieval > 0.9 × duration) holds exactly when \|now − timestamp\| > 900 × duration in milliseconds. |
| TokenCache.RenewCachedTokenSymmetric | backend/src/lambda/dataLayer/spotifyApiAccess.ts:46 | The difference is absolute: a timestamp k ms in the future is as stale as one k ms in the past. |
| TokenCache.ZeroDurationForcesRefresh | backend/src/lambda/dataLayer/spotifyApiAccess.ts:13-19 | With the initial duration 0, any clock reading other than the timestamp forces a refresh. |
| TokenCache.NeedsRefresh | backend/src/lambda/dataLayer/spotifyApiAccess.ts:28 | True exactly when no timestamp is recorded or \|now − timestamp\| > 900 × duration in milliseconds. |
| TokenCache.SecretStep | backend/src/lambda/dataLayer/spotifyApiAccess.ts:50-60 | Only the secret cache changes. A cached secret comes back with no request. Otherwise the store is asked once, its answer is the result, and a resolved answer is what the cache holds. |
| TokenCache.PrepareStep | backend/src/lambda/dataLayer/spotifyApiAccess.ts:27-42 | Preparing keeps "a recorded timestamp implies a client exists". A successful preparation always leaves a client. |
| TokenCache.PrepareRefreshesIff | backend/src/lambda/dataLayer/spotifyApiAccess.ts:28 | A request is issued exactly when no timestamp is recorded or the token is stale. Otherwise the state is unchanged and the call resolves. |
| TokenCache.SuccessfulRefresh | backend/src/lambda/dataLayer/spotifyApiAccess.ts:30-39 | After a successful refresh, the timestamp is the clock value read before the grant and the duration is `expires_in`. The client has the new token and the configured client id, and the last request is the grant. |
| TokenCache.FailedGrant | backend/src/lambda/dataLayer/spotifyApiAccess.ts:36-39 | A failed grant throws with the timestamp already advanced. The duration is unchanged and the client has no token. |
| TokenCache.FailedSecretFetch | backend/src/lambda/dataLayer/spotifyApiAccess.ts:28-31 | A failed secret fetch throws before anything changes. Its only request is that fetch. |
| TokenCache.SearchStep | backend/src/lambda/dataLayer/spotifyApiAccess.ts:21-25 | A search keeps the client-present invariant. |
| TokenCache.SearchFollowsPrepare | backend/src/lambda/dataLayer/spotifyApiAccess.ts:21-25 | The search request is issued exactly when preparation succeeded. It is the last request and uses the prepared client. A failed preparation is rethrown. |
| TokenCache.Run | backend/src/lambda/dataLayer/spotifyApiAccess.ts:21-42 | Any sequence of searches on one warm object keeps the client-present invariant. |
| TokenCache.SearchStepSecret | backend/src/lambda/dataLayer/spotifyApiAccess.ts:50-60 | One search fetches successfully exactly when it fills the secret cache. Once the cache is set, it is never cleared or re-fetched. |
| TokenCache.SecretFetchedAtMostOnce | backend/src/lambda/dataLayer/spotifyApiAccess.ts:50-60 | Over any sequence of searches, at most one secret fetch succeeds, and it is the one that fills the cache. With a cached secret, no fetch request is ever issued. |
| TokenCache.SearchWithoutTokenAsWritten | backend/src/lambda/dataLayer/spotifyApiAccess.ts:32-39 | A concrete run in which a search is sent with a client that holds no access token. |
| TokenCache.PrepareCorrected | backend/src/lambda/dataLayer/spotifyApiAccess.ts:27-42 | The corrected refresh keeps "a recorded timestamp implies a client with a token". When it refreshes and succeeds, the timestamp is the clock read before the grant, the duration is `expires_in`, and the client has the configured id and the new token. A failure leaves timestamp, client and duration as they were. Without a refresh nothing changes. |
| TokenCache.SearchCorrected | backend/src/lambda/dataLayer/spotifyApiAccess.ts:21-25 | A search over the corrected refresh keeps the token invariant and sends its search request with an access token. A successful result is the search's. |
| TokenCache.RunCorrected | backend/src/lambda/dataLayer/spotifyApiAccess.ts:21-42 | Any sequence of corrected searches keeps the token invariant. |
| TokenCache.CorrectedSearchesHaveToken | backend/src/lambda/dataLayer/spotifyApiAccess.ts:32-39 | Over any sequence of corrected searches on one warm object, every search request carries an access token, whatever the clock, the secret store and the grants do. |
| TokenCache.SpotifyApiAccess.constructor | backend/src/lambda/dataLayer/spotifyApiAccess.ts:13-19 | A new object has no timestamp, duration 0, no secret and no client. |
| TokenCache.SpotifyApiAccess.GetSecret | backend/src/lambda/dataLayer/spotifyApiAccess.ts:50-60 | The fields, the result and the requests are those of `SecretStep`. |
| TokenCache.SpotifyApiAccess.PrepareSpotifyWebApiInstance | backend/src/lambda/dataLayer/spotifyApiAccess.ts:27-42 | The step-by-step update, with the timestamp written before the grant, gives exactly the state, result and requests of `PrepareStep`. |
| TokenCache.SpotifyApiAccess.SearchSong | backend/src/lambda/dataLayer/spotifyApiAccess.ts:21-25 | Keeps the client-present invariant and agrees with `SearchStep`. |
| SearchSong.InsertByHeight | backend/src/lambda/http/searchSong.ts:94-96 | Inserting keeps the images sorted by height and adds exactly one image. The front is the new image when it is not higher than the old front. |
| SearchSong.SortByHeight | backend/src/lambda/http/searchSong.ts:94-96 | The sorted copy is a permutation of the images, in ascending height. |
| SearchSong.SmallestImageUrl | backend/src/lambda/http/searchSong.ts:91-103 | Absent or empty images give `""`. |
| SearchSong.SortHeadIsFirstLowest | backend/src/lambda/http/searchSong.ts:94-100 | Because the sort is stable, its first image is the first image of least height, as found by an independent scan. |
| SearchSong.SmallestImageIsLowest | backend/src/lambda/http/searchSong.ts:91-103 | The chosen url belongs to the first image of least height. No images give `""`. |
| SearchSong.ArtistNames | backend/src/lambda/http/searchSong.ts:106 | One name per artist, in order. |
| SearchSong.ArtistsFormatterString | backend/src/lambda/http/searchSong.ts:105-108 | No artists give `""`, and one artist gives the bare name. |
| SearchSong.ArtistsInOrder | backend/src/lambda/http/searchSong.ts:105-108 | Names appear in input order. One more artist adds `", "` and its name at the end, and a first artist's name comes first. |
| SearchSong.ProjectTrack | backend/src/lambda/http/searchSong.ts:44-52 | Name, duration and uri are copied. The image url is that of the first image of least height, or `""` with no images. The artists are joined with `", "`: `""` for none, the bare name for one. |
| SearchSong.MinimalTracks | backend/src/lambda/http/searchSong.ts:44-52 | One result per track, in order. Name, duration and uri are copied, artists are joined, and the smallest image is chosen. |
| SearchSong.ErrorStatus | backend/src/lambda/http/searchSong.ts:64 | The status is the error's code when present and non-zero, and 500 otherwise. It is never 0. |
| SearchSong.Respond | backend/src/lambda/http/searchSong.ts:26-73 | Every invocation starts with a grant for a new, token-less client, so no token is reused. Exactly two requests go out when the grant succeeds and the query is present, and only the grant otherwise, so no search is sent without both. A search carries that grant's token. Tracks with 200 come back exactly when grant and search succeed. Otherwise the body is the error, with `ErrorStatus`. |
| SearchSong.SearchSongHandler.constructor | backend/src/lambda/http/searchSong.ts:19 | The module starts with no cached secret. |
| SearchSong.SearchSongHandler.GetSecret | backend/src/lambda/http/searchSong.ts:77-89 | The memo and the result agree with `FetchOnce`. |
| SearchSong.SearchSongHandler.Handle | backend/src/lambda/http/searchSong.ts:21-75 | A failed secret fetch rejects the invocation, because it happens outside `try`. Otherwise the response and requests are those of `Respond`, after the fetch. |
| Authorizer.LowerCase | backend/src/lambda/auth/auth0Authorizer.ts:64 | `toLowerCase` for ASCII letters: the same length, each character lowered, and no ASCII capital left. |
| Authorizer.IsBearer | backend/src/lambda/auth/auth0Authorizer.ts:64 | The first seven characters spell `bearer ` in any letter case, so the seventh is a space. |
| Authorizer.GetToken | backend/src/lambda/auth/auth0Authorizer.ts:61-70 | An absent or empty header fails with "No authentication header". A non-empty header not starting with `bearer ` (lower-cased) fails with "Invalid authentication header". Every other header yields a token. |
| Authorizer.BearerSplit | backend/src/lambda/auth/auth0Authorizer.ts:64-69 | A header passing the test splits into the scheme followed by the fields of the rest, so a second field exists. |
| Authorizer.GetTokenField | backend/src/lambda/auth/auth0Authorizer.ts:67-69 | The token is the text after the 7-character scheme up to the next space or the end. |
| Authorizer.GetTokenRoundTrip | backend/src/lambda/auth/auth0Authorizer.ts:64-69 | The scheme in any letter case, followed by a space-free token, gives back that token. |
| Authorizer.RunLength | backend/src/lambda/auth/auth0Authorizer.ts:86 | Gives the length of the greedy match of `.{1,64}`. It stops at 64, at the end, or at a line terminator. |
| Authorizer.PemLines | backend/src/lambda/auth/auth0Authorizer.ts:86 | Every match has 1 to 64 characters and no line terminator. |
| Authorizer.PemLinesShape | backend/src/lambda/auth/auth0Authorizer.ts:86 | For a certificate without line breaks, the lines put back together are the certificate. All lines but the last have 64 characters, and there are lines exactly when the certificate is non-empty. |
| Authorizer.CertToPem | backend/src/lambda/auth/auth0Authorizer.ts:85-89 | Throws a TypeError exactly when nothing matches, as when the certificate is empty. Otherwise the output starts with the BEGIN line and ends with the END line. The text between them, split at its line breaks, is exactly the sequence of matches, so every line has 1 to 64 characters. |
| Authorizer.PemRoundTrip | backend/src/lambda/auth/auth0Authorizer.ts:85-89 | For a non-empty certificate without line breaks, the PEM body without its line breaks is the certificate. |
| Authorizer.FindKey | backend/src/lambda/auth/auth0Authorizer.ts:79 | Finds the first key whose `kid` equals the token's. None is found exactly when no key matches. |
| Authorizer.SigningCert | backend/src/lambda/auth/auth0Authorizer.ts:79-80 | Succeeds exactly when the first matching key has a certificate. The result is that key's `x5c[0]`. Otherwise a TypeError is thrown. With an empty chain, the source throws it one step later, inside `certToPEM`. |
| Authorizer.VerifyToken | backend/src/lambda/auth/auth0Authorizer.ts:55-59 | Resolves to the signature check's payload exactly when every step before it succeeds: a bearer header, a decodable token, a fetched key set, a key with the token's `kid` and a certificate, and a PEM wrapping. Header errors keep their messages, and a token that does not decode throws a TypeError. |
| Authorizer.PolicyFor | backend/src/lambda/auth/auth0Authorizer.ts:23-35 | The principal as given, version 2012-10-17, and exactly one statement with the given effect on `execute-api:Invoke` for every resource. This is the literal of both the Allow and the Deny branch. |
| Authorizer.Handler | backend/src/lambda/auth/auth0Authorizer.ts:17-53 | Allow comes exactly when verification succeeds, with the subject as principal. Otherwise it is Deny for "user". There is always one `execute-api:Invoke` statement on `*`, version 2012-10-17. |
| Authorizer.AllowNeedsEverything | backend/src/lambda/auth/auth0Authorizer.ts:55-59 | Allow needs all of: a bearer header, a decodable token, a key with the token's `kid` and a certificate, and a passing signature check. |
| Strings.Split | backend/src/lambda/businessLogic/todoItems.ts:45 | There is at least one field, and no field contains the separator. `Strings.JoinSplit` and `Strings.SplitJoin` prove that joining with the separator inverts it. |
| Strings.Join | backend/src/lambda/http/searchSong.ts:107 | No parts give `""`, and one part is returned as it is. Otherwise the text starts with the first part. |
| TodoItems.NewTodoItem | backend/src/lambda/businessLogic/todoItems.ts:16-25 | A new item has the caller's userId, the generated id and time, the request's name and due date, `done = false` and no attachment. |
| TodoItems.TodoStore.CreateTodoItem | backend/src/lambda/businessLogic/todoItems.ts:16-25 | A rejected put rejects the call and stores nothing. Otherwise the new item is returned and stored under its key, keeping every item under its own key. |
| TodoItems.TodoStore.TodoItemExists | backend/src/lambda/businessLogic/todoItems.ts:27-30 | A rejected read rejects the call. Otherwise the answer is true exactly when the lookup by (userId, todoId) finds an item. |
| TodoItems.TodoStore.UpdateTodoItemIfExists | backend/src/lambda/businessLogic/todoItems.ts:32-38 | A rejected read rejects the call with no write. A missing item gives `TodoItem with todoId … does not exist` with no write. A failed write gives its error. Otherwise only name, dueDate and done of that item change. |
| TodoItems.TodoStore.AddAttachmentUrlToTodoItemIfExists | backend/src/lambda/businessLogic/todoItems.ts:54-61 | A rejected read rejects the call with no write. A missing item gives "Todo item does not exist" with no write. A failed write gives its error. Otherwise only `attachmentUrl` changes. |
| TodoItems.TodoStore.DeleteTodoItemAndAttachment | backend/src/lambda/businessLogic/todoItems.ts:40-51 | A rejected read, or a missing item (a TypeError), rejects the call before any deletion. Otherwise the attachment is deleted by its last-segment id, only when the url is set and non-empty. A rejected object deletion rejects the call and keeps the item. Then the item is deleted, unless that write fails. |
| TodoItems.HasAttachment | backend/src/lambda/businessLogic/todoItems.ts:44 | `if (attachmentUrl)`: true exactly when the url is present and non-empty. |
| TodoItems.UploadUrl | backend/src/lambda/http/generateUploadUrl.ts:19 | The url starts with `https://` and ends with `/` followed by the attachment id. |
| TodoItems.AttachmentId | backend/src/lambda/businessLogic/todoItems.ts:45-46 | The id is a slash-free suffix of the url, preceded by `/` unless it is the whole url. |
| TodoItems.AttachmentIdRoundTrip | backend/src/lambda/http/generateUploadUrl.ts:19 | For the stored upload url and a slash-free id, extraction yields the id, for any bucket. |
| TodoItems.DeleteTargetsUploadedObject | backend/src/lambda/businessLogic/todoItems.ts:43-47 | An item whose url was built by the upload handler has an attachment, and deleting it targets the uploaded id. |
| MusicAppComponent.AddableResults | client/src/components/MusicApp.tsx:34-39 | Same length and order as the results. Each entry keeps its result and is addable exactly when its id is not in the library. |
| MusicAppComponent.WithoutTrack | client/src/components/MusicApp.tsx:73 | The id no longer occurs, and every other id keeps its number of occurrences. |
| MusicAppComponent.WithoutTrackAppend | client/src/components/MusicApp.tsx:73 | Filtering distributes over concatenation, so the others keep their order. |
| MusicAppComponent.WithoutTrackAbsent | client/src/components/MusicApp.tsx:73 | Filtering an absent id changes nothing. |
| MusicAppComponent.AddButtonDisabled | client/src/components/MusicApp.tsx:232 | `disabled={!searchResult.addable}`: disabled exactly when the entry is not addable. |
| MusicAppComponent.DisabledIffInLibrary | client/src/components/MusicApp.tsx:232 | Once the flags are computed, a result's add button is disabled exactly when its track is already in the library. |
| MusicAppComponent.AddThenDeleteFlags | client/src/components/MusicApp.tsx:33-44 | After adding x, the add button of an entry is disabled exactly when its id is x or already in the library. After deleting x, every entry with id x is addable, and the others keep their flag. |
| MusicAppComponent.MusicApp.constructor | client/src/components/MusicApp.tsx:24-31 | The initial state: empty lists, songs loading, no search running. |
| MusicAppComponent.MusicApp.SetAddableSearchResultsState | client/src/components/MusicApp.tsx:33-44 | The flags are recomputed from the results and the library, and the search spinner goes off. Nothing else changes. |
| MusicAppComponent.MusicApp.HandleSearchInputChange | client/src/components/MusicApp.tsx:46-48 | Only the search term changes. |
| MusicAppComponent.MusicApp.OnSubmitSearch | client/src/components/MusicApp.tsx:50-61 | It runs in any state, including one with stale flags. On success, the results are stored and the flags are made consistent. On failure, the spinner stays on, nothing else changes, and consistent flags stay consistent. |
| MusicAppComponent.MusicApp.OnSongDelete | client/src/components/MusicApp.tsx:69-79 | It runs in any state. On success, the library is filtered and the flags are recomputed, so they are consistent. On failure, nothing changes. |
| MusicAppComponent.MusicApp.OnSongAdd | client/src/components/MusicApp.tsx:81-91 | It runs in any state. On success, the returned id is appended, duplicates included, and the flags are recomputed, so they are consistent. On failure, nothing changes. |
| MusicAppComponent.MusicApp.ComponentDidMount | client/src/components/MusicApp.tsx:93-104 | Loads the library without recomputing the flags. They remain consistent only when no search results are shown yet. |
| MusicAppComponent.StaleFlagsAllowDuplicate | client/src/components/MusicApp.tsx:50-104 | In a run where a search finishes before the library loads, a track already in the library keeps an enabled add button, and adding it puts its id in the library twice. |

## Findings

| source | as written | input that shows it | evidently intended | confidence | as-written member | corrected member |
|---|---|---|---|---|---|---|
| backend/src/lambda/dataLayer/spotifyApiAccess.ts:32-39 | A refresh installs a new client without a token and stores the timestamp before the grant. A failed grant leaves both in place. | A token with a 3600 s lifetime is obtained at t = 1 s. The refresh at t = 3301 s fails with 503. The search at t = 3302 s does not refresh and is sent with the token-less client. | Store the timestamp, the client and the duration together, only after the grant succeeds. Then every search carries a token. | not executed; high | TokenCache.SearchWithoutTokenAsWritten | TokenCache.CorrectedSearchesHaveToken |

The class `TokenCache.SpotifyApiAccess` keeps the code as written, so the
refresh properties above describe the deployed behaviour. The corrected
refresh is `TokenCache.PrepareCorrected`, used by
`TokenCache.SearchCorrected` and `TokenCache.RunCorrected`.

## Left out

- Clocks, uuids, `new Date().toISOString()`: given as parameters.
- Secret store, Spotify grant and search, JWT decoding, JWKS fetch (Axios), RS256 signature check (`jsonwebtoken`), DynamoDB and S3: foreign calls, so each is given by its outcome.
  - For the to-do rules, each table read, put, update and delete, and each object deletion, is given by its outcome.
  - A rejection no `try` catches rejects the business-logic call (`Rejection`).
  - The errors caught in the data layer are given by their serialised text.
- `JSON.parse` of the secret: the secret is a string map. A secret whose JSON is not an object is not modelled.
- Floating point in `renewCachedToken`: modelled with exact reals, which agree with the integer threshold. IEEE rounding is not modelled.
- The text of JavaScript runtime TypeErrors: engine-specific, so each is one opaque value (`TypeErrorThrown`, `ItemUndefined`).
- Authorizer.RunLength: a chunk's length is counted in Unicode code points. The source's `/.{1,64}/g` has no `u` flag, so JavaScript counts UTF-16 code units: a character outside the Basic Multilingual Plane counts twice there, and a chunk may split a surrogate pair. A base64 certificate never contains such a character.
- Unicode lower-casing: only ASCII letters are lowered. No other character lowers into `bearer `, so the prefix test is unaffected.
- Concurrency: warm invocations racing to refresh, and the gap between the existence check and the update, are not modelled. In that gap, a DynamoDB update could recreate a deleted item.
- React's asynchronous `setState`: updates are applied in order.
- `handleKeyDown` (Enter calls `onSubmitSearch`) and every `render*` method are UI, not logic.
- `getTodoItemsByUser` and `getUploadUrl` (backend/src/lambda/businessLogic/todoItems.ts:12-14, 63-65) pass straight through to the data layer. The HTTP handlers other than the URL built in `generateUploadUrl.ts` are status-code plumbing.
- Malformed upstream data: a `null` image height, a key set without `keys`, and a query string without `searchTerm`. Only a missing query-parameter object is modelled; it throws and gives 500.
- The image list is a value, so the caller's list is never reordered (the source sorts a `slice` copy). No separate statement is needed.
- SearchSong.SmallestImageUrl: its own contract states only the empty case. The choice of the first lowest image is stated by `SearchSong.SmallestImageIsLowest`.
- logging.
