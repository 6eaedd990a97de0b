/** The KeyCacher collaborator of jwk_client.go. Its implementations are outside the client, so
    a cacher is modelled as an object over an abstract state `S` whose two operations are
    arbitrary pure functions of that state (its policy): Get reads, Add returns a new state
    and a key or an error. The client may assume nothing else about it. */
module KeyCache {
  import opened Wrappers
  import opened Errors
  import opened Jose

  /** The behaviour of one KeyCacher implementation. */
  datatype Policy<!S> = Policy(
    get: (S, string) -> Result<Key, Error>,
    add: (S, string, seq<Key>) -> (S, Result<Key, Error>))

  /** One call `Add(keyID, keys)`, as recorded in a cacher's log. */
  datatype AddCall = AddCall(keyID: string, keys: seq<Key>)

  class KeyCacher<S> {
    const policy: Policy<S>
    var state: S
    /** Every Add made on this cacher, oldest first. */
    ghost var addLog: seq<AddCall>

    constructor (policy: Policy<S>, initial: S)
      ensures this.policy == policy && state == initial && addLog == []
    {
      this.policy := policy;
      state := initial;
      addLog := [];
    }

    /** Get(keyID): a lookup that leaves the cacher as it was. */
    method Get(keyID: string) returns (r: Result<Key, Error>)
      ensures r == policy.get(state, keyID)
    {
      r := policy.get(state, keyID);
    }

    /** Add(keyID, keys): the only operation that changes the cacher. */
    method Add(keyID: string, keys: seq<Key>) returns (r: Result<Key, Error>)
      modifies this
      ensures (state, r) == policy.add(old(state), keyID, keys)
      ensures addLog == old(addLog) + [AddCall(keyID, keys)]
    {
      var next;
      next, r := policy.add(state, keyID, keys).0, policy.add(state, keyID, keys).1;
      state := next;
      addLog := addLog + [AddCall(keyID, keys)];
    }
  }

  /** A hypothesis some cacher policies satisfy (the default in-memory one among them): after
      an Add made in state `s`, Get finds, under the key ID of every key of the added set, a
      key carrying that key ID. */
  ghost predicate RemembersAddedFrom<S>(p: Policy<S>, s: S) {
    forall keyID: string, keys: seq<Key>, k: Key ::
      k in keys ==> && p.get(p.add(s, keyID, keys).0, k.kid).Success?
                    && p.get(p.add(s, keyID, keys).0, k.kid).value.kid == k.kid
  }
}
