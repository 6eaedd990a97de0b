# JWK client key resolution, modelled in Dafny

This project models the key client of the auth0 Go middleware (`jwk_client.go`). The client
resolves a JSON Web Key by its key ID (`kid`). It looks the ID up in a pluggable key cacher.
On a miss it downloads the endpoint's JWK Set (section 5 of RFC 7517) once and hands the whole
set to the cacher's `Add`. `GetSecret` adapts this to a parsed token by resolving the key ID of
the token's first header.

Modules, leaves first:

- `Wrappers` (wrappers.dfy): `Option` for Go's nil and `Result` for Go's `(value, err)` pairs.
- `Errors` (errors.dfy): `ErrInvalidContentType`, `ErrNoKeyFound` and `ErrNoJWTHeaders`.
  `Foreign` stands for any error made outside the client (net/http, encoding/json, a cacher).
  The client passes such errors on unchanged.
- `Jose` (jose.dfy): the JOSE library's key and token shapes. A key is opaque to the client,
  which reads none of its fields. The key ID is kept because cachers match keys on it. Of a
  token, the client reads only the key ID of the first header.
- `JwksFetch` (jwks_fetch.dfy): `downloadKeys` as `DownloadKeys`, a classifier over the
  outcome of the HTTP exchange (`HttpOutcome`). The outcome is one of: the request could not
  be built, the transport failed, or a response with a status, a Content-Type value and a
  decoded body.
- `KeyCache` (key_cacher.dfy): the `KeyCacher` interface. Its implementations are outside the
  client. A cacher is therefore an object over an abstract state whose `Get` and `Add` are
  arbitrary pure functions of that state (a `Policy`). It keeps a ghost log of its `Add` calls.
- `JwkClient` (jwk_client.dfy): the construction defaults (`WithDefaults`), and `GetKey` and
  `GetSecret`. Each is given twice: as a pure function over the cacher's state (`Resolve`,
  `ResolveForToken`, and `Replay` for a sequence of calls) and as a method of the `JWKClient`
  class. Each method's postcondition ties its result, the cacher's new state, the cacher's
  Add log and the ghost download counter to the pure function.
- `JwkClientProperties` (jwk_client_properties.dfy): properties that span several calls.

The network is a parameter. `GetKey(keyID, net)` receives the answer the endpoint would give
and consults it only when it downloads. The reader/writer lock and the singleflight group are
one sequential step: every miss performs exactly one download.

Behaviour of the code that the model keeps as written:

- The content-type test is a case-sensitive prefix test. It accepts
  `application/json; charset=utf-8`, and also any other value that merely begins with
  `application/json`. It refuses `Application/JSON`.
- A missing Content-Type header reads as the empty string and is refused.
- The HTTP status code is never inspected (`StatusIgnored`).
- An error from the cacher's `Get` is treated as a miss and never returned. An error from `Add`
  is returned unchanged.

## Model

| member | source | states |
|---|---|---|
| `JwksFetch.DownloadKeys` | jwk_client.go:99-128 | Request and transport errors are returned verbatim. A Content-Type that starts with neither media type gives InvalidContentType. A decode error is returned verbatim. An empty key array gives NoKeyFound. The download succeeds exactly when all checks pass, and then returns the decoded keys in order, at least one. |
| `JwksFetch.DownloadErrorOrigin` | jwk_client.go:99-128 | A failed download reports either an error passed on unchanged from the request, the transport or the decoder, or one of its own two errors (InvalidContentType, NoKeyFound). |
| `JwksFetch.ContentTypeCheckedBeforeDecoding` | jwk_client.go:111-121 | With a refused content type the result is InvalidContentType whatever the body is, so decoding is never considered. |
| `JwksFetch.StatusIgnored` | jwk_client.go:104-127 | Two responses that differ only in status code download alike. |
| `JwksFetch.MediaTypeWithParametersAccepted` | jwk_client.go:111-112 | Either accepted media type followed by any suffix (such as a charset parameter) is accepted. |
| `JwksFetch.AcceptedIsMediaTypePlusRest` | jwk_client.go:111-112 | Every accepted value is one of the two media types followed by some rest. With the previous row, this characterises acceptance in both directions. |
| `JwksFetch.ContentTypeExamples` | jwk_client.go:111-114 | `application/json; charset=utf-8` and `application/jwk-set+json` are accepted. `text/plain`, the empty value and `Application/JSON` are refused. |
| `JwksFetch.DownloadExamples` | jwk_client.go:111-127 | A text/plain answer gives InvalidContentType. `{"keys": []}` gives NoKeyFound. A one-key set served with a charset parameter is returned as it is. |
| `KeyCache.KeyCacher.Get` | jwk_client.go:68-70 | A cacher lookup returns what the cacher's policy gives for its current state and changes nothing. |
| `KeyCache.KeyCacher.Add` | jwk_client.go:85-88 | Add moves the cacher to the state its policy gives, returns the policy's key or error, and is recorded in the Add log. |
| `JwkClient.WithDefaults` | jwk_client.go:48-63 | A nil extractor becomes FromHeader, a nil cacher becomes the persistent in-memory cacher, and a nil HTTP client becomes the default client. Every non-nil argument and the URI are kept. |
| `JwkClient.Resolve` | jwk_client.go:67-97 | A hit returns the cached key with no download and no Add. A miss downloads once. If the download fails, its error is returned and the cacher is unchanged, with no Add. If it succeeds, exactly one `Add(ID, keys)` is made with the downloaded keys, and its key or error is returned unchanged. |
| `JwkClient.ResolveForToken` | jwk_client.go:131-139 | A token with no headers gives NoJWTHeaders with no cacher or network access. Otherwise the result is the resolution of the first header's key ID. |
| `JwkClient.Replay` | jwk_client.go:67-97 | Over any sequence of calls there are never more Adds than downloads, nor more downloads than calls. Every Add carries a non-empty key set that a successful download in that sequence produced for that call's key ID. |
| `JwkClient.JWKClient.WithCache` | jwk_client.go:48-63 | The new client's cacher, options and extractor are those `WithDefaults` gives, and it has downloaded nothing. |
| `JwkClient.JWKClient.constructor` | jwk_client.go:41-43 | NewJWKClient is NewJWKClientWithCache with a nil cacher, so the client uses the persistent in-memory cacher. |
| `JwkClient.JWKClient.GetKey` | jwk_client.go:67-97 | The result, the cacher's new state, the Adds made and the downloads counted are exactly those `Resolve` gives for the cacher's state before the call. |
| `JwkClient.JWKClient.GetSecret` | jwk_client.go:131-139 | The result, the cacher's new state, the Adds made and the downloads counted are exactly those `ResolveForToken` gives. |
| `JwkClientProperties.FailingEndpointRefetchesEveryTime` | jwk_client.go:72-83 | With every call missing and every download failing, the cacher is never changed and never sent an Add. Every call downloads again and returns its own download error, so failures are never cached. |
| `JwkClientProperties.NoNegativeCaching` | jwk_client.go:72-83 | After a miss whose download failed, the cacher is unchanged and the next call for the same key ID downloads again. |
| `JwkClientProperties.WarmCacheNeverDownloads` | jwk_client.go:67-96 | When every requested key is cached, a sequence of calls makes no download and no Add, leaves the cacher's state as it was, and returns the cached keys. |
| `JwkClientProperties.DownloadsAreMisses` | jwk_client.go:67-80 | The number of downloads in a sequence of calls is the number of calls that missed the cache at the time they were made. |
| `JwkClientProperties.FetchedKeyServedFromCache` | jwk_client.go:85-96 | With a cacher that keeps what it is given, any key of a freshly downloaded set is afterwards resolved from the cache under its own key ID: no download, no Add, cacher unchanged, and the key served carries that key ID. Which of several keys sharing a key ID is served is up to the cacher. |
| `JwkClientProperties.OnlyFirstHeaderConsulted` | jwk_client.go:131-138 | Two tokens whose first headers carry the same key ID resolve alike. |
| `JwkClientProperties.DefaultsIdempotent` | jwk_client.go:48-63 | Filling in the defaults of an already filled configuration changes nothing. |

## Left out

- HTTP request construction and `Client.Do` (net/http): network I/O. Only their outcome is modelled, as `HttpOutcome`.
- JSON decoding of the body into go-jose keys (encoding/json): a foreign library. Its result is modelled as `Body`. Every key field other than the key ID (type, algorithm, use, key material) is one opaque byte string.
- The `sync.RWMutex` and the `singleflight.Group`: their point is concurrency. The model is sequential and does not state that N concurrent misses share one download.
- The KeyCacher implementations, including `newMemoryPersistentKeyCacher`, are not part of this model. The persistent cacher is a constructor parameter, and nothing about any cacher's Add policy is assumed. `FetchedKeyServedFromCache` states its retention hypothesis (`RemembersAddedFrom`) explicitly.
- KeyCache.KeyCacher.Get: a cacher whose state changes over time (a TTL cache reading a clock) is not captured. The model takes a cacher's behaviour to be a pure function of its own state.
- A cacher returning a nil key with a nil error (which would make the Go code dereference nil) cannot occur in the model, because `Result` holds exactly one of the two.
- `RequestTokenExtractor` and `FromHeader`: they are defined outside this file. They are named values here.
- `ErrInvalidAlgorithm` is declared but never raised by the client, so it has no counterpart.
