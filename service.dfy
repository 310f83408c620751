/** The decision handlers of the auth service, with the HTTP layer taken off:
    each receives what it would read from the request (headers, body fields,
    query parameter) and the shared token store, and returns what it would put
    in its JSON or HTML answer. */
module Service {
  import opened Text
  import opened Wrappers
  import opened Tokens
  import opened Access
  import opened Store
  import opened Listing

  /** The answer to a validation request: grant or deny, and for how many
      seconds the caller may cache it. */
  datatype Decision = Decision(granted: bool, validity: int)

  const Denied: Decision := Decision(false, 0)

  /** `validate_token`. A session marker ("admin", "doctor", "external") is
      decided by the role matrix without touching the store. Anything else is
      a share-token id: unknown ids and expired tokens are refused (an expired
      one is deleted), otherwise one use is counted and, if it was allowed, the
      token's resources decide. Refusals all look the same. */
  method ValidateToken(store: TokenStore, tokenValue: string, level: string, verb: string,
                       orthancId: string, dicomUid: string, uri: string) returns (d: Decision)
    modifies store
    ensures store.now == old(store.now) && store.audits == old(store.audits)
    ensures old(store.Valid()) ==> store.Valid()
    ensures !d.granted ==> d == Denied || d.validity > 0
    ensures var v := NormalizeBearerToken(tokenValue);
            var m := old(store.tokens);
            if v in UserRoles then
              d == Decision(CheckPermissionForRole(UserRoles[v], level, verb, uri), CacheValidityUserSession)
              && store.tokens == m
            else if v !in m then
              d == Denied && store.tokens == m
            else if store.now >= m[v].expiresAt then
              d == Denied && store.tokens == m - {v}
            else
              var o := IncrementUsage(m, v, store.now);
              store.tokens == o.tokens
              && d == if o.allowed
                      then Decision(CheckResourceAccess(m[v].resources, level, verb, orthancId, dicomUid, uri),
                                    CacheValidityShareToken)
                      else Denied
  {
    var v := NormalizeBearerToken(tokenValue);
    if v in UserRoles {
      var granted := CheckPermissionForRole(UserRoles[v], level, verb, uri);
      return Decision(granted, CacheValidityUserSession);
    }
    var data := store.GetToken(v);
    if data.None? {
      return Denied;
    }
    if store.now >= data.value.expiresAt {
      store.DeleteToken(v);
      return Denied;
    }
    var allowed := store.IncrementTokenUsage(v);
    if !allowed {
      return Denied;
    }
    var granted := CheckResourceAccess(data.value.resources, level, verb, orthancId, dicomUid, uri);
    return Decision(granted, CacheValidityShareToken);
  }

  datatype Decoded = Decoded(tokenType: string, redirectUrl: string) | DecodeError(errorCode: string)

  /** `decode_token`: "unknown", then "expired" (deleting the record), then
      "invalid" for a token without resources; otherwise the token's type and
      the share link that carries the token. Decoding never counts a use. */
  method DecodeToken(store: TokenStore, h: Headers, tokenValue: string) returns (r: Decoded)
    modifies store
    ensures store.now == old(store.now) && store.audits == old(store.audits)
    ensures forall k :: k in store.tokens ==> k in old(store.tokens) && store.tokens[k] == old(store.tokens)[k]
    ensures old(store.Valid()) ==> store.Valid()
    ensures var v := NormalizeBearerToken(tokenValue);
            var m := old(store.tokens);
            if v !in m then
              r == DecodeError("unknown") && store.tokens == m
            else if store.now >= m[v].expiresAt then
              r == DecodeError("expired") && store.tokens == m - {v}
            else if m[v].resources == [] then
              r == DecodeError("invalid") && store.tokens == m
            else
              r == Decoded(m[v].tokenType, GetBaseUrl(h) + "/share/?token=" + v) && store.tokens == m
  {
    var v := NormalizeBearerToken(tokenValue);
    var data := store.GetToken(v);
    if data.None? {
      return DecodeError("unknown");
    }
    if store.now >= data.value.expiresAt {
      store.DeleteToken(v);
      return DecodeError("expired");
    }
    if data.value.resources == [] {
      return DecodeError("invalid");
    }
    return Decoded(data.value.tokenType, GetBaseUrl(h) + "/share/?token=" + v);
  }

  /** The requested validity: the default when the body gives none, and
      a validity of 0 (the authorization plugin's "unlimited") becomes one year. */
  function EffectiveValidity(validity: Option<int>): (d: int)
    ensures d != 0
    ensures validity.Some? && validity.value != 0 ==> d == validity.value
    ensures validity == Some(0) ==> d == UnlimitedTokenDuration
    ensures validity.None? ==> d == DefaultTokenValiditySeconds
  {
    match validity
    case None => DefaultTokenValiditySeconds
    case Some(v) => if v == 0 then UnlimitedTokenDuration else v
  }

  /** The proxy sent both a user and a group, neither empty: a missing header
      and an empty one are both falsy in `not remote_user or not remote_groups`. */
  function Authenticated(h: Headers): (ok: bool)
    ensures ok <==> Header(h, "Remote-User", "") != "" && Header(h, "Remote-Groups", "") != ""
  {
    "Remote-User" in h && h["Remote-User"] != "" && "Remote-Groups" in h && h["Remote-Groups"] != ""
  }

  datatype CreatedToken = CreatedToken(token: string, url: Option<string>)

  /** `create_token`. `freshId` stands for the random UUID. Without both
      identity headers the answer is 401 and nothing is stored. Otherwise a
      read-only record with no uses yet is stored (only if its lifetime is
      positive), and a share link is returned except for instant links. */
  method CreateToken(store: TokenStore, tokenType: string, h: Headers, requestId: string,
                     resources: seq<Resource>, validity: Option<int>, freshId: string)
    returns (r: Result<CreatedToken, int>)
    modifies store
    ensures store.now == old(store.now) && store.audits == old(store.audits)
    ensures old(store.Valid()) ==> store.Valid()
    ensures !Authenticated(h) ==> r == Err(401) && store.tokens == old(store.tokens)
    ensures Authenticated(h) ==>
              var t := TokenRecord(tokenType, requestId, resources, "external-role",
                                   store.now + EffectiveValidity(validity), store.now, DefaultTokenMaxUses, 0);
              store.tokens == Put(old(store.tokens), freshId, t, store.now)
              && r.Ok? && r.value.token == freshId
              && (r.value.url.None? <==> tokenType == "viewer-instant-link")
              && (r.value.url.Some? ==> r.value.url.value == GetBaseUrl(h) + "/share/?token=" + freshId)
  {
    if !Authenticated(h) {
      return Err(401);
    }
    var duration := EffectiveValidity(validity);
    var t := TokenRecord(tokenType, requestId, resources, "external-role",
                         store.now + duration, store.now, DefaultTokenMaxUses, 0);
    store.StoreToken(freshId, t);
    if tokenType == "viewer-instant-link" {
      return Ok(CreatedToken(freshId, None));
    }
    return Ok(CreatedToken(freshId, Some(GetBaseUrl(h) + "/share/?token=" + freshId)));
  }

  datatype Revocation = Revocation(tokenId: string, revokedBy: string, revokedAt: int)

  const AuditPrefix: string := "audit:revoke:"

  /** `audit:revoke:<id>:<timestamp>`: the prefix, the token id, a colon, and
      the revocation time in decimal. */
  function AuditKey(id: string, at: int): (key: string)
    ensures StartsWith(key, AuditPrefix)
    ensures |key| > |AuditPrefix| + |id| + 1
    ensures key[|AuditPrefix|..|AuditPrefix| + |id|] == id
    ensures key[|AuditPrefix| + |id|] == ':'
    ensures key[|AuditPrefix| + |id| + 1..] == IntToString(at)
  {
    var key := AuditPrefix + id + ":" + IntToString(at);
    assert key[..|AuditPrefix|] == AuditPrefix;
    assert key[|AuditPrefix| + |id| + 1..] == IntToString(at);
    key
  }

  /** Audit keys never collide: the key determines both the token id and the
      revocation time, since the time is written without a colon. */
  lemma AuditKeysDistinct(id1: string, at1: int, id2: string, at2: int)
    requires AuditKey(id1, at1) == AuditKey(id2, at2)
    ensures id1 == id2 && at1 == at2
  {
    if |id1| != |id2| {
      assert false;
    }
    IntToStringInjective(at1, at2);
  }

  const AuditRetentionSeconds: int := AuditRetentionDays * 24 * 3600

  /** `revoke_token`: only for admins (403), only for a stored token (404);
      then one audit record is written and the token is deleted. */
  method RevokeToken(store: TokenStore, h: Headers, tokenId: string) returns (r: Result<Revocation, int>)
    modifies store
    ensures store.now == old(store.now)
    ensures old(store.Valid()) ==> store.Valid()
    ensures VerifyAdminAuth(h).Err? ==>
              r == Err(403) && store.tokens == old(store.tokens) && store.audits == old(store.audits)
    ensures VerifyAdminAuth(h).Ok? && tokenId !in old(store.tokens) ==>
              r == Err(404) && store.tokens == old(store.tokens) && store.audits == old(store.audits)
    ensures VerifyAdminAuth(h).Ok? && tokenId in old(store.tokens) ==>
              var t := old(store.tokens)[tokenId];
              var actor := VerifyAdminAuth(h).value;
              r == Ok(Revocation(tokenId, actor, store.now))
              && store.tokens == old(store.tokens) - {tokenId}
              && store.audits == old(store.audits)[AuditKey(tokenId, store.now) :=
                   AuditEntry(AuditRecord("token_revoked", tokenId, t.tokenType, actor, store.now,
                                          t.createdAt, t.currentUses, t.maxUses), AuditRetentionSeconds)]
  {
    var auth := VerifyAdminAuth(h);
    if auth.Err? {
      return Err(403);
    }
    var data := store.GetToken(tokenId);
    if data.None? {
      return Err(404);
    }
    var t := data.value;
    var audit := AuditRecord("token_revoked", tokenId, t.tokenType, auth.value, store.now,
                             t.createdAt, t.currentUses, t.maxUses);
    store.StoreAudit(AuditKey(tokenId, store.now), AuditEntry(audit, AuditRetentionSeconds));
    store.DeleteToken(tokenId);
    return Ok(Revocation(tokenId, auth.value, store.now));
  }

  datatype TokenListing = TokenListing(tokens: seq<ListedToken>, count: int)

  /** `list_tokens`: for admins only; every stored token exactly once, with its
      remaining lifetime, newest first. */
  method ListTokens(store: TokenStore, h: Headers) returns (r: Result<TokenListing, int>)
    ensures r.Err? <==> VerifyAdminAuth(h).Err?
    ensures r.Err? ==> r.error == 403
    ensures r.Ok? ==>
              && NewestFirst(r.value.tokens)
              && r.value.count == |r.value.tokens| == |store.tokens|
              && (forall e :: e in r.value.tokens ==>
                    e.id in store.tokens && e == Listed(e.id, store.tokens[e.id], store.now))
              && (forall id :: id in store.tokens ==> exists e :: e in r.value.tokens && e.id == id)
  {
    if VerifyAdminAuth(h).Err? {
      return Err(403);
    }
    var entries: seq<ListedToken> := [];
    var remaining := store.tokens.Keys;
    while remaining != {}
      invariant remaining <= store.tokens.Keys
      invariant |entries| + |remaining| == |store.tokens|
      invariant forall e :: e in entries ==>
                  e.id in store.tokens && e.id !in remaining && e == Listed(e.id, store.tokens[e.id], store.now)
      invariant forall id :: id in store.tokens && id !in remaining ==> exists e :: e in entries && e.id == id
      decreases |remaining|
    {
      var k :| k in remaining;
      entries := entries + [Listed(k, store.tokens[k], store.now)];
      remaining := remaining - {k};
    }
    var sorted := SortNewestFirst(entries);
    PermutationKeepsElements(entries, sorted);
    return Ok(TokenListing(sorted, |sorted|));
  }

  /** Some stored token has a limit of zero: the usage percentage divides by it. */
  predicate HasZeroLimit(m: map<string, TokenRecord>) {
    exists id :: id in m && m[id].maxUses == 0
  }

  /** `token_stats`: for admins only; how many tokens are stored, how many of
      each type, and how many in each usage bucket, the buckets and the
      per-type counts each adding up to the total. A zero limit makes the
      service fail with 500. */
  method TokenStats(store: TokenStore, h: Headers) returns (r: Result<Stats, int>)
    ensures VerifyAdminAuth(h).Err? ==> r == Err(403)
    ensures VerifyAdminAuth(h).Ok? && HasZeroLimit(store.tokens) ==> r == Err(500)
    ensures VerifyAdminAuth(h).Ok? && !HasZeroLimit(store.tokens) ==>
              r.Ok? && Tallies(store.tokens, store.tokens.Keys, r.value)
              && TypesOf(r.value.byType) == TypesIn(store.tokens, store.tokens.Keys)
    ensures store.Valid() && VerifyAdminAuth(h).Ok? ==> r.Ok?
  {
    if VerifyAdminAuth(h).Err? {
      return Err(403);
    }
    var m := store.tokens;
    var stats := Stats(0, [], 0, 0, 0);
    var remaining := m.Keys;
    ghost var seen: set<string> := {};
    TalliesNothing(m);
    while remaining != {}
      invariant remaining <= m.Keys && seen == m.Keys - remaining
      invariant forall id :: id in seen ==> m[id].maxUses != 0
      invariant Tallies(m, seen, stats)
      decreases |remaining|
    {
      var k :| k in remaining;
      if m[k].maxUses == 0 {
        return Err(500);
      }
      TallyStep(m, seen, k, stats);
      stats := CountToken(stats, m[k]);
      remaining := remaining - {k};
      seen := seen + {k};
    }
    assert seen == m.Keys;
    TalliedTypes(m, seen, stats);
    return Ok(stats);
  }

  /** The messages of the share page, at their defaults. */
  const MsgInvalidToken: string := "Aucun token fourni."
  const MsgExpiredToken: string := "Ce lien de partage n'est plus valide."
  const MsgNoStudy: string := "Aucune étude associée à ce token."
  const MsgInvalidStudy: string := "Identifiant d'étude manquant."
  const MsgUsageLimit: string := "Ce lien de partage a atteint sa limite d'utilisation."

  datatype SharePage =
    | Redirect(url: string)
    | ErrorPage(title: string, message: string, status: int)

  /** The study a share link opens: the first resource's "DicomUid", stripped. */
  function StudyUidOf(t: TokenRecord): (uid: string)
    requires t.resources != []
    ensures var raw := if "DicomUid" in t.resources[0] then t.resources[0]["DicomUid"] else "";
            && (exists lo :: Padded(raw, lo, uid))
            && (uid == "" <==> AllWhitespace(raw))
            && (uid == "" || (!IsWhitespace(uid[0]) && !IsWhitespace(uid[|uid| - 1])))
  {
    Strip(if "DicomUid" in t.resources[0] then t.resources[0]["DicomUid"] else "")
  }

  /** The viewer link a successful share redirect leads to. `quote` stands for
      URL-encoding and `now` is the cache-busting parameter. */
  function ViewerUrl(h: Headers, studyUid: string, token: string, now: int, quote: string -> string): (url: string)
    ensures StartsWith(url, GetBaseUrl(h) + "/ohif/viewer?StudyInstanceUIDs=" + quote(studyUid))
    ensures Contains(url, "&token=" + token)
    ensures EndsWith(url, "&_cb=" + IntToString(now))
    ensures var head := GetBaseUrl(h) + "/ohif/viewer?StudyInstanceUIDs=" + quote(studyUid);
            && |url| == |head| + |"&token=" + token| + |"&_cb=" + IntToString(now)|
            && url[|head|..|head| + |"&token=" + token|] == "&token=" + token
  {
    var head := GetBaseUrl(h) + "/ohif/viewer?StudyInstanceUIDs=" + quote(studyUid);
    var withToken := head + ("&token=" + token);
    ConcatStartsAndEnds(head, "&token=" + token);
    SuffixIsContained(head, "&token=" + token);
    ContainedInExtension(withToken, "&_cb=" + IntToString(now), "&token=" + token);
    assert withToken + ("&_cb=" + IntToString(now)) == withToken + "&_cb=" + IntToString(now);
    ConcatStartsAndEnds(withToken, "&_cb=" + IntToString(now));
    assert StartsWith(withToken + "&_cb=" + IntToString(now), head) by {
      assert (withToken + "&_cb=" + IntToString(now))[..|head|] == withToken[..|head|];
    }
    assert (withToken + "&_cb=" + IntToString(now))[|head|..|withToken|] == withToken[|head|..];
    withToken + "&_cb=" + IntToString(now)
  }

  /** The decision part of `share_redirect` (`token` is the query parameter,
      empty when absent): the checks of decoding, a check that the first
      resource names a study, and only then one counted use. A refused use
      gets the usage-limit message, distinct from the expired one. */
  method ShareRedirect(store: TokenStore, h: Headers, token: string, quote: string -> string)
    returns (r: SharePage)
    modifies store
    ensures store.now == old(store.now) && store.audits == old(store.audits)
    ensures old(store.Valid()) ==> store.Valid()
    ensures var m := old(store.tokens);
            if token == "" then
              r == ErrorPage("Lien invalide", MsgInvalidToken, 400) && store.tokens == m
            else if token !in m then
              r == ErrorPage("Lien expiré", MsgExpiredToken, 410) && store.tokens == m
            else if store.now >= m[token].expiresAt then
              r == ErrorPage("Lien expiré", MsgExpiredToken, 410) && store.tokens == m - {token}
            else if m[token].resources == [] then
              r == ErrorPage("Aucune étude", MsgNoStudy, 400) && store.tokens == m
            else if StudyUidOf(m[token]) == "" then
              r == ErrorPage("Étude invalide", MsgInvalidStudy, 400) && store.tokens == m
            else
              var o := IncrementUsage(m, token, store.now);
              store.tokens == o.tokens
              && r == if o.allowed then Redirect(ViewerUrl(h, StudyUidOf(m[token]), token, store.now, quote))
                      else ErrorPage("Lien expiré", MsgUsageLimit, 410)
    ensures r.Redirect? ==> token in store.tokens
                            && store.tokens[token].currentUses == old(store.tokens)[token].currentUses + 1
  {
    if token == "" {
      return ErrorPage("Lien invalide", MsgInvalidToken, 400);
    }
    var data := store.GetToken(token);
    if data.None? {
      return ErrorPage("Lien expiré", MsgExpiredToken, 410);
    }
    if store.now >= data.value.expiresAt {
      store.DeleteToken(token);
      return ErrorPage("Lien expiré", MsgExpiredToken, 410);
    }
    if data.value.resources == [] {
      return ErrorPage("Aucune étude", MsgNoStudy, 400);
    }
    var studyUid := StudyUidOf(data.value);
    if studyUid == "" {
      return ErrorPage("Étude invalide", MsgInvalidStudy, 400);
    }
    var allowed := store.IncrementTokenUsage(token);
    if !allowed {
      return ErrorPage("Lien expiré", MsgUsageLimit, 410);
    }
    return Redirect(ViewerUrl(h, studyUid, token, store.now, quote));
  }
}
