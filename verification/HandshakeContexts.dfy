/** What the flights of one side work on. */
module HandshakeContexts {
  import opened Wrappers
  import opened Bytes
  import opened HandshakeCaches
  import opened HandshakeStates

  class HandshakeContext {
    const cfg: Config
    const crypto: Crypto
    const cache: HandshakeCache
    var state: State

    constructor (isClient: bool, cfg: Config, crypto: Crypto, cache: HandshakeCache)
      ensures this.cfg == cfg && this.crypto == crypto && this.cache == cache && state == DefaultState(isClient)
    {
      this.cfg := cfg;
      this.crypto := crypto;
      this.cache := cache;
      state := DefaultState(isClient);
    }
  }

  method FindMatching(a: seq<U16>, b: seq<U16>) returns (r: Option<U16>)
    ensures r == FirstMatch(a, b)
  {
    assert a[0..] == a;
    for i := 0 to |a|
      invariant FirstMatch(a, b) == FirstMatch(a[i..], b)
    {
      assert a[i..][0] == a[i] && a[i..][1..] == a[i + 1..];
      for j := 0 to |b|
        invariant forall k :: 0 <= k < j ==> b[k] != a[i]
      {
        if a[i] == b[j] {
          return Some(a[i]);
        }
      }
    }
    return None;
  }

  method DeriveMasterSecret(c: HandshakeContext, pre: Bytes, sending: Bytes, clientRandom: Bytes, serverRandom: Bytes)
    returns (master: Result<Bytes>)
    ensures master == if c.state.extendedMasterSecret
                      then c.crypto.extendedMasterSecret(pre, c.crypto.hash(Merged(c.cache.cache, KEY_EXCHANGE_RULES) + sending))
                      else c.crypto.masterSecret(pre, clientRandom, serverRandom)
  {
    if c.state.extendedMasterSecret {
      var sessionHash := c.cache.SessionHash(c.crypto.hash, 0, sending);
      return c.crypto.extendedMasterSecret(pre, sessionHash);
    }
    return c.crypto.masterSecret(pre, clientRandom, serverRandom);
  }
}
