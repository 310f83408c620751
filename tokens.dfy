/** The capability-token record kept in the key-value store, the audit record
    written on revocation, the service's configuration defaults, and the
    read-modify-write that counts one use of a token. */
module Tokens {

  /** One entry of a token's `resources` list: the JSON object exactly as the
      creator sent it. Its identifiers are read with a PascalCase key first and
      a kebab-case key as fallback. */
  type Resource = map<string, string>

  /** `resource.get(primary, resource.get(alternate, default))` */
  function Field(r: Resource, primary: string, alternate: string, default: string): (v: string)
    ensures primary in r ==> v == r[primary]
    ensures primary !in r && alternate in r ==> v == r[alternate]
    ensures primary !in r && alternate !in r ==> v == default
  {
    if primary in r then r[primary] else if alternate in r then r[alternate] else default
  }

  function OrthancIdOf(r: Resource): string { Field(r, "OrthancId", "orthanc-id", "") }
  function DicomUidOf(r: Resource): string { Field(r, "DicomUid", "dicom-uid", "") }
  function LevelOf(r: Resource): string { Field(r, "Level", "level", "") }

  /** A stored capability token. Times are whole seconds. */
  datatype TokenRecord = TokenRecord(
    tokenType: string,
    requestId: string,
    resources: seq<Resource>,
    role: string,
    expiresAt: int,
    createdAt: int,
    maxUses: int,
    currentUses: int)

  /** What `revoke_token` keeps about a revoked token. */
  datatype AuditRecord = AuditRecord(
    action: string,
    tokenId: string,
    tokenType: string,
    revokedBy: string,
    revokedAt: int,
    tokenCreatedAt: int,
    tokenUses: int,
    tokenMaxUses: int)

  /** An audit record with the retention (in seconds) it was stored with. */
  datatype AuditEntry = AuditEntry(record: AuditRecord, ttlSeconds: int)

  // Configuration, at the defaults the service uses when its environment sets nothing.
  const DefaultTokenMaxUses: int := 50
  const DefaultTokenValiditySeconds: int := 7 * 24 * 3600
  const CacheValidityUserSession: int := 300
  const CacheValidityShareToken: int := 60
  const AuditRetentionDays: int := 90
  const UnlimitedTokenDuration: int := 365 * 24 * 3600

  /** The use counter is non-negative and below the limit (`current_uses < max_uses`).
      The next use is allowed only if it stays below as well. */
  predicate WithinLimit(t: TokenRecord) {
    0 <= t.currentUses < t.maxUses
  }

  /** The invariant of the token store: every stored record is within its limit. */
  predicate AllWithinLimit(m: map<string, TokenRecord>) {
    forall id :: id in m ==> WithinLimit(m[id])
  }

  /** `store_token`: the record is written only while some lifetime remains. */
  function Put(m: map<string, TokenRecord>, id: string, t: TokenRecord, now: int): (r: map<string, TokenRecord>)
    ensures t.expiresAt - now > 0 ==> id in r && r[id] == t
    ensures forall k :: k in r && k != id ==> k in m && r[k] == m[k]
    ensures forall k :: k in m && k != id ==> k in r
    ensures t.expiresAt - now <= 0 ==> r == m
  {
    if t.expiresAt - now > 0 then m[id := t] else m
  }

  datatype UsageOutcome = UsageOutcome(tokens: map<string, TokenRecord>, allowed: bool)

  /** `increment_token_usage`: the store after one counted use, and whether the
      use is allowed. The use that brings the counter to the limit is itself
      refused, and the record is deleted. */
  function IncrementUsage(m: map<string, TokenRecord>, id: string, now: int): (r: UsageOutcome)
    ensures r.allowed <==> id in m && m[id].currentUses + 1 < m[id].maxUses
    ensures id !in m ==> r.tokens == m
    ensures id in m && !r.allowed ==> r.tokens == m - {id}
    ensures forall k :: k in r.tokens && k != id ==> k in m && r.tokens[k] == m[k]
    ensures forall k :: k in m && k != id ==> k in r.tokens
    ensures r.allowed && m[id].expiresAt > now ==>
              id in r.tokens && r.tokens[id] == m[id].(currentUses := m[id].currentUses + 1)
              && r.tokens[id].currentUses < r.tokens[id].maxUses
    ensures r.allowed && m[id].expiresAt <= now ==> r.tokens == m
  {
    if id !in m then UsageOutcome(m, false)
    else
      var data := m[id].(currentUses := m[id].currentUses + 1);
      if data.currentUses >= data.maxUses then UsageOutcome(m - {id}, false)
      else UsageOutcome(Put(m, id, data, now), true)
  }

  /** Counting a use never takes a record over its limit. */
  lemma IncrementKeepsLimit(m: map<string, TokenRecord>, id: string, now: int)
    requires AllWithinLimit(m)
    ensures AllWithinLimit(IncrementUsage(m, id, now).tokens)
  {
  }

  /** `k` uses of the same token in a row: the final store and each call's answer. */
  function UseRepeatedly(m: map<string, TokenRecord>, id: string, now: int, k: nat)
    : (r: (map<string, TokenRecord>, seq<bool>))
    ensures |r.1| == k
  {
    if k == 0 then (m, [])
    else
      var o := IncrementUsage(m, id, now);
      var rest := UseRepeatedly(o.tokens, id, now, k - 1);
      (rest.0, [o.allowed] + rest.1)
  }

  /** Once a token is gone every further use is refused and it stays gone. */
  lemma {:induction false} AbsentTokenStaysRefused(m: map<string, TokenRecord>, id: string, now: int, k: nat)
    requires id !in m
    ensures id !in UseRepeatedly(m, id, now, k).0
    ensures forall i :: 0 <= i < k ==> !UseRepeatedly(m, id, now, k).1[i]
  {
    if k > 0 {
      AbsentTokenStaysRefused(m, id, now, k - 1);
    }
  }

  /** The usage limit boundary: on a live token with `c` uses out of `n`, call
      number `i + 1` is allowed exactly when `c + i + 1 < n`, and the token is
      still stored after `k` calls exactly when `c + k < n`. With `c = 0` and
      `n = 3` calls 1 and 2 are allowed and call 3 is refused and deletes it. */
  lemma {:induction false} UsageLimitBoundary(m: map<string, TokenRecord>, id: string, now: int, k: nat)
    requires id in m && m[id].expiresAt > now && WithinLimit(m[id])
    ensures var r := UseRepeatedly(m, id, now, k);
            (forall i :: 0 <= i < k ==> (r.1[i] <==> m[id].currentUses + i + 1 < m[id].maxUses))
            && (id in r.0 <==> m[id].currentUses + k < m[id].maxUses)
  {
    if k > 0 {
      var o := IncrementUsage(m, id, now);
      var r := UseRepeatedly(m, id, now, k);
      var rest := UseRepeatedly(o.tokens, id, now, k - 1);
      assert r.0 == rest.0 && r.1 == [o.allowed] + rest.1;
      if o.allowed {
        UsageLimitBoundary(o.tokens, id, now, k - 1);
        assert o.tokens[id].currentUses == m[id].currentUses + 1;
        forall i | 0 <= i < k
          ensures r.1[i] <==> m[id].currentUses + i + 1 < m[id].maxUses
        {
          if i > 0 { assert r.1[i] == rest.1[i - 1]; }
        }
      } else {
        AbsentTokenStaysRefused(o.tokens, id, now, k - 1);
        forall i | 0 <= i < k
          ensures r.1[i] <==> m[id].currentUses + i + 1 < m[id].maxUses
        {
          if i > 0 { assert r.1[i] == rest.1[i - 1]; }
        }
      }
    }
  }
}
