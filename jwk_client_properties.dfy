/** Properties of the key client that relate several calls: no negative caching, a warm cache
    never reaching the network, and keys fetched once being served from the cache afterwards. */
module JwkClientProperties {
  import opened Wrappers
  import opened Errors
  import opened Jose
  import opened JwksFetch
  import opened KeyCache
  import opened JwkClient

  /** A persistently failing endpoint: every call misses and every download fails. Then the
      cacher is never touched, every call downloads again, and each returns its own download
      error, so a failure is never cached. */
  lemma {:induction false} FailingEndpointRefetchesEveryTime<S>(p: Policy<S>, state: S, calls: seq<Call>)
    requires forall i :: 0 <= i < |calls| ==> p.get(state, calls[i].keyID).Failure?
    requires forall i :: 0 <= i < |calls| ==> DownloadKeys(calls[i].net).Failure?
    ensures var t := Replay(p, state, calls);
      && t.state == state
      && t.downloads == |calls|
      && t.adds == []
      && forall i :: 0 <= i < |calls| ==> t.results[i] == Failure(DownloadKeys(calls[i].net).error)
    decreases |calls|
  {
    if calls != [] {
      FailingEndpointRefetchesEveryTime(p, state, calls[1..]);
      var t := Replay(p, state, calls);
      var rest := Replay(p, state, calls[1..]);
      assert t.results == [Failure(DownloadKeys(calls[0].net).error)] + rest.results;
      forall i | 0 <= i < |calls| ensures t.results[i] == Failure(DownloadKeys(calls[i].net).error) {
        if i > 0 {
          assert calls[1..][i - 1] == calls[i];
        }
      }
    }
  }

  /** After one failed download, the next call for the same key ID downloads again. */
  lemma NoNegativeCaching<S>(p: Policy<S>, state: S, keyID: string, net1: HttpOutcome, net2: HttpOutcome)
    requires p.get(state, keyID).Failure?
    requires DownloadKeys(net1).Failure?
    ensures var first := Resolve(p, state, keyID, net1);
      && first.state == state
      && Resolve(p, first.state, keyID, net2).downloads == 1
  {
  }

  /** A warm cache: every key asked for is cached. No call downloads or adds, the cacher keeps
      its state, and each call returns the cached key. */
  lemma {:induction false} WarmCacheNeverDownloads<S>(p: Policy<S>, state: S, calls: seq<Call>)
    requires forall i :: 0 <= i < |calls| ==> p.get(state, calls[i].keyID).Success?
    ensures var t := Replay(p, state, calls);
      && t.state == state
      && t.downloads == 0
      && t.adds == []
      && forall i :: 0 <= i < |calls| ==> t.results[i] == p.get(state, calls[i].keyID)
    decreases |calls|
  {
    if calls != [] {
      WarmCacheNeverDownloads(p, state, calls[1..]);
      var t := Replay(p, state, calls);
      forall i | 0 <= i < |calls| ensures t.results[i] == p.get(state, calls[i].keyID) {
        if i > 0 {
          assert calls[1..][i - 1] == calls[i];
        }
      }
    }
  }

  /** Downloads happen only on misses: the number of downloads in a sequence of calls is the
      number of calls whose key ID the cacher did not hold at the time of the call. */
  function Misses<S>(p: Policy<S>, state: S, calls: seq<Call>): nat
    decreases |calls|
  {
    if calls == [] then 0
    else
      var first := Resolve(p, state, calls[0].keyID, calls[0].net);
      (if p.get(state, calls[0].keyID).Failure? then 1 else 0) + Misses(p, first.state, calls[1..])
  }

  lemma {:induction false} DownloadsAreMisses<S>(p: Policy<S>, state: S, calls: seq<Call>)
    ensures Replay(p, state, calls).downloads == Misses(p, state, calls)
    decreases |calls|
  {
    if calls != [] {
      var first := Resolve(p, state, calls[0].keyID, calls[0].net);
      DownloadsAreMisses(p, first.state, calls[1..]);
    }
  }

  /** With a cacher that keeps what it is given, a key fetched on a miss is afterwards
      resolved from the cache under its own key ID: no download, no Add, the cacher unchanged,
      whatever the endpoint would answer, and the key served carries that key ID. Which of
      several keys sharing a key ID is served is up to the cacher. */
  lemma FetchedKeyServedFromCache<S>(p: Policy<S>, state: S, keyID: string, net: HttpOutcome,
                                     k: Key, later: HttpOutcome)
    requires RemembersAddedFrom(p, state)
    requires p.get(state, keyID).Failure?
    requires DownloadKeys(net).Success? && k in DownloadKeys(net).value
    ensures var first := Resolve(p, state, keyID, net);
      var second := Resolve(p, first.state, k.kid, later);
      && second.downloads == 0
      && second.adds == []
      && second.state == first.state
      && second.result.Success?
      && second.result.value.kid == k.kid
  {
    var keys := DownloadKeys(net).value;
    assert p.get(p.add(state, keyID, keys).0, k.kid).Success?;
  }

  /** GetSecret looks only at the first header: tokens whose first headers share a key ID
      resolve alike, whatever else they carry. */
  lemma OnlyFirstHeaderConsulted<S>(p: Policy<S>, state: S, t1: Token, t2: Token, net: HttpOutcome)
    requires t1.headers != [] && t2.headers != []
    requires t1.headers[0].keyID == t2.headers[0].keyID
    ensures ResolveForToken(p, state, t1, net) == ResolveForToken(p, state, t2, net)
  {
  }

  /** Construction is idempotent: filling in the defaults of an already filled configuration
      changes nothing, whichever default cacher is offered. */
  lemma DefaultsIdempotent<C>(options: Options, extractor: Option<Extractor>, keyCacher: Option<C>,
                              persistent: C, other: C)
    ensures var cfg := WithDefaults(options, extractor, keyCacher, persistent);
      WithDefaults(cfg.options, Some(cfg.extractor), Some(cfg.keyCacher), other) == cfg
  {
  }
}
