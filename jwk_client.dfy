/** The key client of jwk_client.go: construction with defaults, GetKey (cache lookup, and on a
    miss one download followed by one Add) and GetSecret (the token adapter).

    Each operation has a pure specification over the cacher's abstract state (Resolve,
    ResolveForToken, Replay for a sequence of calls) and an imperative counterpart on the
    JWKClient class whose postcondition ties the new state to that specification. The mutex
    and the singleflight group are not modelled: a miss performs exactly one download, in
    sequence. The network is a parameter: `net` is what the endpoint would answer if the call
    downloads. */
module JwkClient {
  import opened Wrappers
  import opened Errors
  import opened Jose
  import opened JwksFetch
  import opened KeyCache

  /** The *http.Client in use: the standard http.DefaultClient or one the caller supplied. */
  datatype HttpClient = DefaultClient | InjectedClient(name: string)

  /** JWKClientOptions; a nil Client is None. */
  datatype Options = Options(uri: string, client: Option<HttpClient>)

  /** The RequestTokenExtractor in use: the FromHeader strategy or one the caller supplied. */
  datatype Extractor = FromHeader | InjectedExtractor(name: string)

  /** The fields a JWKClient is built with. */
  datatype Config<C> = Config(keyCacher: C, options: Options, extractor: Extractor)

  /** NewJWKClientWithCache: every nil argument is replaced by its default, every non-nil one
      is kept, and the URI is never touched. `persistent` stands for the cacher that
      newMemoryPersistentKeyCacher would create. */
  function WithDefaults<C>(options: Options, extractor: Option<Extractor>, keyCacher: Option<C>,
                           persistent: C): (cfg: Config<C>)
    ensures cfg.options.uri == options.uri
    ensures cfg.options.client == if options.client.Some? then options.client else Some(DefaultClient)
    ensures cfg.extractor == if extractor.Some? then extractor.value else FromHeader
    ensures cfg.keyCacher == if keyCacher.Some? then keyCacher.value else persistent
  {
    Config(keyCacher.GetOr(persistent),
           Options(options.uri, Some(options.client.GetOr(DefaultClient))),
           extractor.GetOr(FromHeader))
  }

  /** What one GetKey call does to a cacher in state `state`: the new state, the result, how
      many downloads it made (0 or 1) and the Add calls it made (none or one). */
  datatype Resolution<S> = Resolution(state: S, result: Result<Key, Error>, downloads: nat,
                                      adds: seq<AddCall>)

  /** GetKey as a function of the cacher policy, its state, the requested key ID and the
      answer the endpoint would give. */
  function Resolve<S>(p: Policy<S>, state: S, keyID: string, net: HttpOutcome): (res: Resolution<S>)
    // a hit returns the cached key: no download, no Add
    ensures p.get(state, keyID).Success? ==> res == Resolution(state, p.get(state, keyID), 0, [])
    // a miss whose download fails returns that error and leaves the cacher alone
    ensures p.get(state, keyID).Failure? && DownloadKeys(net).Failure? ==>
              res == Resolution(state, Failure(DownloadKeys(net).error), 1, [])
    // a miss whose download succeeds hands exactly the downloaded set to one Add and
    // returns what that Add returns
    ensures p.get(state, keyID).Failure? && DownloadKeys(net).Success? ==>
              && res.downloads == 1
              && res.adds == [AddCall(keyID, DownloadKeys(net).value)]
              && (res.state, res.result) == p.add(state, keyID, DownloadKeys(net).value)
  {
    match p.get(state, keyID)
    case Success(cached) => Resolution(state, Success(cached), 0, [])
    case Failure(_) =>
      match DownloadKeys(net)
      case Failure(err) => Resolution(state, Failure(err), 1, [])
      case Success(keys) =>
        var (next, added) := p.add(state, keyID, keys);
        Resolution(next, added, 1, [AddCall(keyID, keys)])
  }

  /** GetSecret as a function: a token without headers is refused before the cacher or the
      network is consulted; otherwise the key ID of the first header is resolved. */
  function ResolveForToken<S>(p: Policy<S>, state: S, token: Token, net: HttpOutcome): (res: Resolution<S>)
    ensures token.headers == [] ==> res == Resolution(state, Failure(NoJWTHeaders), 0, [])
    ensures token.headers != [] ==> res == Resolve(p, state, token.headers[0].keyID, net)
  {
    if |token.headers| < 1 then Resolution(state, Failure(NoJWTHeaders), 0, [])
    else Resolve(p, state, token.headers[0].keyID, net)
  }

  /** One GetKey call in a sequence: the key ID asked for and the endpoint's answer. */
  datatype Call = Call(keyID: string, net: HttpOutcome)

  /** The effect of a sequence of GetKey calls made one after another. */
  datatype Trace<S> = Trace(state: S, results: seq<Result<Key, Error>>, downloads: nat,
                            adds: seq<AddCall>)

  /** An Add made with exactly the key set that `c`'s download produced, for `c`'s key ID. */
  predicate AddedFrom(a: AddCall, c: Call) {
    a.keyID == c.keyID && DownloadKeys(c.net) == Success(a.keys)
  }

  /** Calls made one after another. Every Add follows its own download, so there are never
      more Adds than downloads, and every Add hands the cacher a non-empty set that a
      successful download of one of the calls produced: nothing reaches the cacher from a
      failed or empty download. */
  function Replay<S>(p: Policy<S>, state: S, calls: seq<Call>): (t: Trace<S>)
    ensures |t.results| == |calls|
    ensures |t.adds| <= t.downloads <= |calls|
    ensures forall a :: a in t.adds ==> a.keys != []
    ensures forall a :: a in t.adds ==> exists i :: 0 <= i < |calls| && AddedFrom(a, calls[i])
    decreases |calls|
  {
    if calls == [] then Trace(state, [], 0, [])
    else
      var first := Resolve(p, state, calls[0].keyID, calls[0].net);
      var rest := Replay(p, first.state, calls[1..]);
      assert forall a :: a in rest.adds ==> exists i :: 0 <= i < |calls| && AddedFrom(a, calls[i]) by {
        forall a | a in rest.adds ensures exists i :: 0 <= i < |calls| && AddedFrom(a, calls[i]) {
          var j :| 0 <= j < |calls[1..]| && AddedFrom(a, calls[1..][j]);
          assert AddedFrom(a, calls[j + 1]);
        }
      }
      assert forall a :: a in first.adds ==> AddedFrom(a, calls[0]);
      Trace(rest.state, [first.result] + rest.results, first.downloads + rest.downloads,
            first.adds + rest.adds)
  }

  class JWKClient<S> {
    const keyCacher: KeyCacher<S>
    const options: Options
    const extractor: Extractor
    /** How many times this client has downloaded the key set. */
    ghost var downloads: nat

    /** NewJWKClientWithCache; `keyCacher` None is Go's nil. */
    constructor WithCache(options: Options, extractor: Option<Extractor>,
                          keyCacher: Option<KeyCacher<S>>, persistent: KeyCacher<S>)
      ensures Config(this.keyCacher, this.options, this.extractor) ==
              WithDefaults(options, extractor, keyCacher, persistent)
      ensures downloads == 0
    {
      var cfg := WithDefaults(options, extractor, keyCacher, persistent);
      this.keyCacher := cfg.keyCacher;
      this.options := cfg.options;
      this.extractor := cfg.extractor;
      downloads := 0;
    }

    /** NewJWKClient: NewJWKClientWithCache with a nil cacher. */
    constructor (options: Options, extractor: Option<Extractor>, persistent: KeyCacher<S>)
      ensures Config(this.keyCacher, this.options, this.extractor) ==
              WithDefaults(options, extractor, None, persistent)
      ensures this.keyCacher == persistent
      ensures downloads == 0
    {
      var cfg := WithDefaults(options, extractor, None, persistent);
      this.keyCacher := cfg.keyCacher;
      this.options := cfg.options;
      this.extractor := cfg.extractor;
      downloads := 0;
    }

    /** GetKey(ID). The cacher changes only through Add; the download counter grows by the
        downloads Resolve makes. */
    method GetKey(keyID: string, net: HttpOutcome) returns (r: Result<Key, Error>)
      modifies this, keyCacher
      ensures var res := Resolve(keyCacher.policy, old(keyCacher.state), keyID, net);
        && r == res.result
        && keyCacher.state == res.state
        && keyCacher.addLog == old(keyCacher.addLog) + res.adds
        && downloads == old(downloads) + res.downloads
    {
      var searched := keyCacher.Get(keyID);
      if searched.Failure? {
        // the singleflight-collapsed download, made once
        var keys := DownloadKeys(net);
        downloads := downloads + 1;
        if keys.Failure? {
          return Failure(keys.error);
        }
        var added := keyCacher.Add(keyID, keys.value);
        if added.Failure? {
          return Failure(added.error);
        }
        return Success(added.value);
      }
      return Success(searched.value);
    }

    /** GetSecret(token): the SecretProvider entry point. */
    method GetSecret(token: Token, net: HttpOutcome) returns (r: Result<Key, Error>)
      modifies this, keyCacher
      ensures var res := ResolveForToken(keyCacher.policy, old(keyCacher.state), token, net);
        && r == res.result
        && keyCacher.state == res.state
        && keyCacher.addLog == old(keyCacher.addLog) + res.adds
        && downloads == old(downloads) + res.downloads
    {
      if |token.headers| < 1 {
        return Failure(NoJWTHeaders);
      }
      var header := token.headers[0];
      r := GetKey(header.keyID, net);
    }
  }
}
