# Share-token authorization for a DICOM imaging platform, in Dafny

This project models the auth service of a small medical-imaging platform. An
Orthanc imaging server asks the service, on every request, whether the caller
may proceed. Callers are either a logged-in user whose group ("admin",
"doctor" or "external") arrives as the token value, or the holder of a share
token. A share token is a random id naming a capability record in a
key-value store. The record lists the granted resources, an expiry time, a
use limit and a use counter.

The model covers:

- **the token store** (`store.dfy`, class `Store.TokenStore`): the
  `token:<id>` records and `audit:revoke:*` entries as two maps, and the
  service clock as a field. It has the get, store, delete, count-a-use and
  store-audit primitives. Its invariant `Valid` says that every stored record
  is below its limit (`current_uses < max_uses`).
- **the record and the use counter** (`tokens.dfy`): the token record, the
  audit record, the configuration defaults, and `IncrementUsage`, the pure
  specification of the read-modify-write that counts one use. Lemmas follow
  a token through repeated uses to its limit.
- **the decision rules** (`access.dfy`):
  - the role matrix for user sessions;
  - the resource matcher for share tokens;
  - the bearer prefix, admin check, base URL and profile helpers.
- **the request handlers** (`service.dfy`): validate, decode, create,
  revoke, list, statistics and the share-link redirect. Each is a method on
  the store. Its postcondition gives the answer and the new store for
  every branch. Two orders are left open: the order of the per-type list
  in the statistics, and the order of listed tokens created at the same
  time.
- **the listing and statistics arithmetic** (`listing.dfy`):
  - remaining lifetime;
  - newest-first order, proved sorted and a permutation;
  - usage buckets;
  - per-type counts, proved to count exactly the stored tokens.
- **the token-management page's display helpers** (`token_manager_view.dfy`).
- **the viewer's token injection into DICOMweb and WADO requests**
  (`ohif_rewrite.dfy`).

Time is whole seconds, held in `TokenStore.now`. The random UUID of a new
token is a parameter (`freshId`), and so is URL-encoding (`quote`). HTTP,
JSON and HTML rendering are not modelled. Each handler receives the header
map and body fields it would read, and returns the fields it would answer
with.

`decode_token` answers `<base>/share/?token=<token>`; `share_redirect`
builds the viewer link (see `Service.DecodeToken` and `Service.ShareRedirect`).

## Model

| member | source | states |
|---|---|---|
| Tokens.Field | services/auth-service/auth_service.py:301-303 | a resource identifier is read under its PascalCase key, then its kebab-case key, then the default |
| Tokens.Put | services/auth-service/auth_service.py:78-82 | a record is written only while its remaining lifetime `expires_at - now` is positive; otherwise the store is unchanged |
| Tokens.IncrementUsage | services/auth-service/auth_service.py:95-113 | a use is allowed iff the token is stored and its counter plus one stays below the limit; a refused stored token is deleted; an allowed one is written back with the counter one higher (skipped when its lifetime is over); no other key changes |
| Tokens.IncrementKeepsLimit | services/auth-service/auth_service.py:101-106 | counting a use never leaves a stored record at or over its limit |
| Tokens.AbsentTokenStaysRefused | services/auth-service/auth_service.py:97-99 | once a token is gone, every later use is refused and it stays gone |
| Tokens.UsageLimitBoundary | services/auth-service/auth_service.py:95-113 | on a live token with `c` of `n` uses, call `i+1` is allowed iff `c+i+1 < n`, and the token survives `k` calls iff `c+k < n` (limit 3: two uses, the third refused and deleted) |
| Store.TokenStore.GetToken | services/auth-service/auth_service.py:84-89 | present exactly when the id is stored, with the stored record |
| Store.TokenStore.StoreToken | services/auth-service/auth_service.py:78-82 | the token map becomes `Put` of the old one; audits and clock unchanged |
| Store.TokenStore.DeleteToken | services/auth-service/auth_service.py:91-93 | the id is removed and nothing else changes; deleting an absent id is a no-op |
| Store.TokenStore.IncrementTokenUsage | services/auth-service/auth_service.py:95-113 | the answer and the new token map are those of `IncrementUsage`; the store invariant is preserved |
| Store.TokenStore.StoreAudit | services/auth-service/auth_service.py:513-514 | exactly one audit key is set; tokens unchanged |
| Access.CheckPermissionForRole | services/auth-service/auth_service.py:268-283 | admin may do anything; doctor may get/post at imaging or system level, and put iff the URI mentions "tokens"; external may only get at an imaging level; any other role nothing |
| Access.RolesAreNested | services/auth-service/auth_service.py:268-283 | whatever external may do, doctor may; whatever doctor may do, admin may |
| Access.AnyCovers | services/auth-service/auth_service.py:300-316 | the loop over resources answers yes iff some granted resource covers the request |
| Access.CheckResourceAccess | services/auth-service/auth_service.py:285-316 | share tokens never grant a non-get; at system level only `/system`, `/plugins` and `/dicom-web/servers` URIs; otherwise iff some resource matches an identifier or is a study/series above the requested level |
| Access.StudyTokenOpensAnySeriesOrInstance | services/auth-service/auth_service.py:309-312 | a token for one study opens any series or instance for reading, whatever its identifiers |
| Access.MissingUidMatchesEmptyUid | services/auth-service/auth_service.py:302-307 | a granted resource without a DICOM UID matches every read whose DICOM UID is empty |
| Access.NormalizeBearerToken | services/auth-service/auth_service.py:129-131 | exactly one leading "Bearer " is removed, and nothing else changes |
| Access.VerifyAdminAuth | services/auth-service/auth_service.py:122-127 | allowed iff the Remote-Groups header contains "admin", answering Remote-User or "unknown"; otherwise 403 |
| Access.GetBaseUrl | services/auth-service/auth_service.py:133-137 | the URL is exactly `<scheme>://<host>`: https exactly when X-Forwarded-Proto is "https", else http, then the Host header (default "localhost") |
| Access.UserProfile | services/auth-service/auth_service.py:318-344 | a group mentioning "admin" gets "Administrator" with all ten permissions; else one mentioning "doctor" gets "Doctor" with view, download, upload, share, send and edit-labels; else "External User" with view and download; validity 60 s; hence delete and modify iff admin, share iff admin or doctor |
| Service.ValidateToken | services/auth-service/auth_service.py:210-266 | session markers follow the role matrix with a 300 s validity and leave the store alone; an unknown id is denied; an expired one is denied and deleted; otherwise one use is counted and, if allowed, the resource check decides with a 60 s validity; the store invariant is preserved |
| Service.DecodeToken | services/auth-service/auth_service.py:346-387 | "unknown", "expired" (deleting the record) or "invalid" (no resources), else the token type and `<base>/share/?token=<token>`; never counts a use and never changes a remaining record |
| Service.EffectiveValidity | services/auth-service/auth_service.py:405-409 | no validity gives 7 days; 0 ("unlimited") gives one year; any other value is kept; the result is never 0 |
| Service.CreateToken | services/auth-service/auth_service.py:389-444 | without both identity headers, 401 and no change; otherwise an external-role record with no uses and limit 50 is put under the fresh id, written only while its lifetime is positive; the URL is absent exactly for instant links, else the share link |
| Service.AuditKey | services/auth-service/auth_service.py:513 | the key is `audit:revoke:`, then the token id, a colon and the revocation time in decimal |
| Service.AuditKeysDistinct | services/auth-service/auth_service.py:513 | two revocations with a different token id or time never share an audit key |
| Service.Authenticated | services/auth-service/auth_service.py:393-397 | true iff both Remote-User and Remote-Groups are present and non-empty |
| Service.RevokeToken | services/auth-service/auth_service.py:487-524 | non-admins get 403, unknown ids 404, with no change; otherwise exactly one audit entry (90-day retention) records the token, and the token is deleted |
| Service.ListTokens | services/auth-service/auth_service.py:446-485 | admins only (403); every stored token appears, each with its record and `max(0, expires_at - now)` seconds; the count is the number stored; newest first |
| Service.TokenStats | services/auth-service/auth_service.py:526-565 | admins only (403); a zero use limit fails (500); otherwise the totals, per-type counts and low/medium/high buckets count exactly the stored tokens, and both breakdowns add up to the total; a type is listed iff some stored token has it; on a store that keeps its invariant an admin always gets an answer |
| Service.ShareRedirect | services/auth-service/auth_service.py:610-672 | missing token 400; unknown 410; expired 410 and deleted; no resources 400; blank study UID 400; a use refused at the limit 410 with the usage-limit message; else a redirect to the viewer for that study, with the counter one higher |
| Service.StudyUidOf | services/auth-service/auth_service.py:633 | the first resource's "DicomUid" (empty when absent) with surrounding whitespace removed: a block of it with only whitespace before and after it, not starting or ending with whitespace, empty iff it is all whitespace |
| Service.ViewerUrl | services/auth-service/auth_service.py:642-647 | the link starts with the base URL, `/ohif/viewer?StudyInstanceUIDs=` and the encoded study UID, then exactly `&token=<token>` and then exactly `&_cb=<now>`: the prefix, the token part at its fixed position, the suffix and the total length leave no room for other text |
| Listing.Listed | services/auth-service/auth_service.py:463-464 | remaining seconds are never negative, are 0 iff the token has expired, and otherwise reach exactly its expiry |
| Listing.InsertNewestFirst | services/auth-service/auth_service.py:480 | inserting into a newest-first list keeps it newest first and adds exactly one element |
| Listing.SortNewestFirst | services/auth-service/auth_service.py:480 | the result is a permutation of the rows, ordered by creation time, newest first |
| Listing.BucketOf | services/auth-service/auth_service.py:550-556 | low iff uses are under 33% of the limit, high iff at least 66%; no use is low and a used-up token is high |
| Listing.Bump | services/auth-service/auth_service.py:546-547 | one more for the token's type, the same for every other type, one more in all; no type listed twice |
| Listing.CountToken | services/auth-service/auth_service.py:543-556 | one more token in all and for its type; exactly one bucket grows, low iff under 33% of the limit, high iff at least 66% |
| Listing.TalliesNothing | services/auth-service/auth_service.py:532-534 | the initial counters describe an empty set of tokens |
| Listing.TallyStep | services/auth-service/auth_service.py:539-556 | counting one more token keeps every counter exact |
| Listing.TalliedTypes | services/auth-service/auth_service.py:546-547 | an exact tally lists exactly the types of the tokens it counted |
| TokenManagerView.SplitDuration | services/auth-service/static/token-manager.js:64-66 | whole days, hours under 24 and minutes under 60 that add up to the duration to within a minute |
| TokenManagerView.DurationBadge | services/auth-service/static/token-manager.js:61-77 | negative means "Expiré" in red; green above a day, orange above an hour, red otherwise; days and hours from a day on, hours and minutes from an hour on, minutes below |
| TokenManagerView.FormatDuration | services/auth-service/static/token-manager.js:61-77 | exactly the badge of DurationBadge rendered as a span: a negative duration gives the red "Expiré" badge; otherwise the badge class is green above a day, orange above an hour, red otherwise |
| TokenManagerView.ExpirationReason | services/auth-service/static/token-manager.js:100-108 | a used-up counter reads "Limite atteinte" whatever the time; else no time left reads "Temps écoulé"; else "Révoqué" |
| TokenManagerView.PropertyOr | services/auth-service/static/token-manager.js:82-83 | JavaScript `a \|\| b`: an absent or empty property falls through to the fallback |
| TokenManagerView.DisplayedId | services/auth-service/static/token-manager.js:83 | the DICOM UID if set and non-empty, else the Orthanc id if set and non-empty, else "N/A"; never empty |
| TokenManagerView.ResourceLabelOf | services/auth-service/static/token-manager.js:80-86 | no resources gives no label; otherwise the first resource's level (default study) in capitals and the first min(16, length) characters of its identifier |
| TokenManagerView.OnlyFirstResourceDescribed | services/auth-service/static/token-manager.js:81-82 | resources after the first never change the description |
| TokenManagerView.GetResourceDescription | services/auth-service/static/token-manager.js:80-86 | "Aucune ressource" for no resources; otherwise muted small text starting `LEVEL: id` and ending `...` |
| TokenManagerView.IsSuspiciousUsage | services/auth-service/static/token-manager.js:89-97 | never for a token with no creation time or no use; otherwise suspicious iff more than ten uses per hour elapsed (at least one hour counted) or at least 50 uses within four hours |
| OhifRewrite.Separator | services/ohif/config/app-config.js:111 | `&` exactly when the URL already has a `?`, else `?` |
| OhifRewrite.XhrUrl | services/ohif/config/app-config.js:108-113 | a URL with a token, or not a relative DICOMweb/WADO path, is unchanged; otherwise it gets `token=<token>` appended; the original is always a prefix; absolute URLs are never touched |
| OhifRewrite.WithTokenCarriesToken | services/ohif/config/app-config.js:111-112 | a rewritten URL contains `token=` |
| OhifRewrite.FetchUrl | services/ohif/config/app-config.js:120-127 | a URL with a token, or not a relative DICOMweb/WADO path, is unchanged; otherwise it gets `token=<token>` appended |
| OhifRewrite.OverridesAgree | services/ohif/config/app-config.js:121-126 | the fetch override rewrites every string URL exactly as the XMLHttpRequest override does |
| OhifRewrite.RewriteIsIdempotent | services/ohif/config/app-config.js:108-113 | rewriting a rewritten URL changes nothing |

## Left out

- HTTP, JSON and HTML: request parsing, response bodies, the HTML templates and the icons on error pages are not modelled. Each handler works on the header map and body fields it reads.
- `verify_basic_auth` (HTTP Basic check with a constant-time compare) is left out. The handlers behind it are modelled as if the check passed.
- `get_settings_roles`, the two HTML interface pages and `/health` return fixed content and are not modelled.
- Key-value store TTLs: records are never evicted by time in the model. Validation, decoding and the share redirect check expiry themselves. Revocation, the listing and the statistics do not.
- Service.RevokeToken: a record past its expiry that the model still holds is revoked with an Ok answer and an audit entry. The real store would already have evicted it and answered 404.
- Service.ListTokens and Service.TokenStats: records past their expiry still appear, listed with 0 seconds left and counted. The real store would already have evicted them.
- Concurrency: requests are sequential in the model. The read-modify-write in `increment_token_usage` is not atomic in the source, so two concurrent uses can both be counted as one. That race is not modelled.
- `SCAN` cursor pagination is modelled as one pass over the set of stored ids. The model also takes each key's id to be the key minus its `token:` prefix, whereas `key.replace("token:", "")` (services/auth-service/auth_service.py:457, 540) removes every occurrence. The two differ only for an id that itself contains `token:`. Ids are uuid4 strings, which never do.
- Time is an integer number of seconds. The source uses floating-point `time.time()` for `expires_at`, `created_at` and comparisons, and truncates with `int(...)` only for TTLs, audit keys, the cache-buster and `remaining_seconds`.
- Listing.BucketOf: exact rational comparison stands in for the source's floating-point percentage; the two can differ only at rounding boundaries.
- The random UUID of a new token is the `freshId` parameter. URL-encoding is the `quote` parameter.
- `created_at_formatted` (local-time `strftime`) in the token list is not modelled.
- `dict.get` defaults on stored records are not modelled: 999999 or 50 uses, type "unknown", and 0 uses. Every stored record is written whole by `create_token`, so these defaults are unreachable. The record's fields are therefore mandatory in the model.
- Service.CreateToken: the body's `Id`/`id`, `Resources`/`resources` and `ValidityDuration`/`validity-duration` key fallbacks are taken as already resolved. A `null` validity, which would make the source raise, is not modelled. `ExpirationDate` is read but unused by the source.
- Header names are case-sensitive map keys. Real HTTP headers are not case-sensitive.
- Configuration comes from environment variables in the source. The model fixes every value at its default: 50 uses, 7 days, 300 s and 60 s cache validity, 90-day audit retention, one year for "unlimited", and the French UI messages.
- Listing.SortNewestFirst: the source's sort is stable, so tokens created at the same time keep their scan order. The model only promises some newest-first permutation.
- Text.Strip and Text.ToUpper cover ASCII whitespace and ASCII letters only. Here ASCII whitespace includes the separators U+001C to U+001F, which `str.strip` removes. Python's `str.strip` and JavaScript's `toUpperCase` also handle other Unicode characters.
- Service.StudyUidOf: a DicomUid made only of non-ASCII whitespace (U+0085, U+00A0, U+2000 to U+200A, U+3000 and the like) is kept by the model. `str.strip` would empty it, and the share link would then be refused as an invalid study. DICOM UIDs are ASCII digits and dots, so this does not arise for real identifiers.
- Logging is left out: the `logger` calls of `revoke_token` (services/auth-service/auth_service.py:510) and the debug lines of `validate_token` (services/auth-service/auth_service.py:222-225) change no state and no answer.
- TokenManagerView.IsSuspiciousUsage uses whole seconds for the current time, where the page uses `Date.now()` milliseconds. The rate test `uses / max(hours, 1) > 10` is stated as `uses * 3600 > 10 * max(seconds, 3600)`, which is the same comparison without the division.
- TokenManagerView.ResourceLabelOf takes a list of resources. The page's check for a missing `resources` property is not modelled, because the service always sends one.
- TokenManagerView.DurationBadge takes whole seconds. The service only ever sends whole seconds.
- The page's DOM handling, API calls, confirmation dialogs and date formatting are left out, and so is the rest of the viewer configuration. Only the token-injection rule of the viewer configuration is modelled, and the fetch override only for string URLs (a `Request` object passes through untouched).
- The user-management and password-generation scripts are not part of this model.
