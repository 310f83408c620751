/** The part of the key-value store the auth service uses. Token records live
    under `token:<id>` (the map below is keyed by `<id>`), audit records under
    `audit:revoke:<id>:<timestamp>` (that map is keyed by the whole key). The
    store's clock is the service's clock, in whole seconds. */
module Store {
  import opened Wrappers
  import opened Tokens

  class TokenStore {
    var tokens: map<string, TokenRecord>
    var audits: map<string, AuditEntry>
    var now: int

    /** Every stored record is below its limit (`current_uses < max_uses`). */
    ghost predicate Valid()
      reads this
    {
      AllWithinLimit(tokens)
    }

    constructor (now: int)
      ensures Valid()
      ensures tokens == map[] && audits == map[] && this.now == now
    {
      tokens := map[];
      audits := map[];
      this.now := now;
    }

    /** Time passes between requests: the only way the clock moves. The handlers
        read `now` and never change it. */
    method SetClock(t: int)
      modifies this
      ensures now == t && tokens == old(tokens) && audits == old(audits)
    {
      now := t;
    }

    /** `get_token` */
    function GetToken(id: string): (r: Option<TokenRecord>)
      reads this
      ensures r.Some? <==> id in tokens
      ensures r.Some? ==> r.value == tokens[id]
    {
      if id in tokens then Some(tokens[id]) else None
    }

    /** `store_token`: written, with a lifetime of `expiresAt - now`, only while that is positive. */
    method StoreToken(id: string, t: TokenRecord)
      modifies this
      ensures tokens == Put(old(tokens), id, t, now)
      ensures audits == old(audits) && now == old(now)
    {
      if t.expiresAt - now > 0 {
        tokens := tokens[id := t];
      }
    }

    /** `delete_token`: deleting an absent id changes nothing. */
    method DeleteToken(id: string)
      modifies this
      ensures tokens == old(tokens) - {id}
      ensures id !in old(tokens) ==> tokens == old(tokens)
      ensures audits == old(audits) && now == old(now)
    {
      tokens := tokens - {id};
    }

    /** `increment_token_usage`: read the record, count one use, delete it when
        the count reaches the limit, otherwise write it back. */
    method IncrementTokenUsage(id: string) returns (allowed: bool)
      modifies this
      ensures tokens == IncrementUsage(old(tokens), id, now).tokens
      ensures allowed == IncrementUsage(old(tokens), id, now).allowed
      ensures audits == old(audits) && now == old(now)
      ensures old(Valid()) ==> Valid()
    {
      var data := GetToken(id);
      if data.None? {
        return false;
      }
      var updated := data.value.(currentUses := data.value.currentUses + 1);
      if updated.currentUses >= updated.maxUses {
        DeleteToken(id);
        return false;
      }
      StoreToken(id, updated);
      return true;
    }

    /** `setex` of an audit key. */
    method StoreAudit(key: string, entry: AuditEntry)
      modifies this
      ensures audits == old(audits)[key := entry]
      ensures tokens == old(tokens) && now == old(now)
    {
      audits := audits[key := entry];
    }
  }
}
