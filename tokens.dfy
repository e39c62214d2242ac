/**
 * The OAuth token store of lib/kv.ts, kept in Redis under
 * "gmail_token:{userId}". Redis is modelled as a map that the store's
 * methods reassign; whether a write reaches Redis is an argument.
 */
module Tokens {
  import opened Base
  import opened Gmail

  const TOKEN_KEY_PREFIX := "gmail_token:"
  const STORE_FAILED := "Failed to store tokens"

  function TokenKey(userId: string): (k: string)
    ensures |k| == |TOKEN_KEY_PREFIX| + |userId| && k[..|TOKEN_KEY_PREFIX|] == TOKEN_KEY_PREFIX
  {
    TOKEN_KEY_PREFIX + userId
  }

  /** Different users never share a token key. */
  lemma TokenKeyInjective(a: string, b: string)
    requires TokenKey(a) == TokenKey(b)
    ensures a == b
  {
    assert a == TokenKey(a)[|TOKEN_KEY_PREFIX|..];
    assert b == TokenKey(b)[|TOKEN_KEY_PREFIX|..];
  }

  class TokenStore {
    /** The Redis values, by key. */
    var stored: map<string, Credentials>

    constructor (stored: map<string, Credentials>)
      ensures this.stored == stored
    {
      this.stored := stored;
    }

    /** `getTokens`: the stored credentials, or null when there are none. */
    function GetTokens(userId: string): (r: Option<Credentials>)
      reads this
      ensures r.Some? <==> TokenKey(userId) in stored
      ensures r.Some? ==> r.value == stored[TokenKey(userId)]
    {
      if TokenKey(userId) in stored then Some(stored[TokenKey(userId)]) else None
    }

    /** `updateTokens` (that is, `storeTokens`): overwrites the user's credentials, or throws. */
    method UpdateTokens(userId: string, tokens: Credentials, writeOk: bool) returns (r: Result<()>)
      modifies this
      ensures r.Ok? <==> writeOk
      ensures r.Err? ==> r.msg == STORE_FAILED && stored == old(stored)
      ensures r.Ok? ==> stored == old(stored)[TokenKey(userId) := tokens] && GetTokens(userId) == Some(tokens)
      ensures forall u :: u != userId ==> GetTokens(u) == old(GetTokens(u))
    {
      if !writeOk {
        return Err(STORE_FAILED);
      }
      stored := stored[TokenKey(userId) := tokens];
      forall u | u != userId
        ensures GetTokens(u) == old(GetTokens(u))
      {
        if TokenKey(u) == TokenKey(userId) {
          TokenKeyInjective(u, userId);
        }
      }
      r := Ok(());
    }
  }
}
