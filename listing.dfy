/** What the two administrative read-outs compute from the stored tokens:
    the rows of the token list with their remaining lifetime, the newest-first
    order they are returned in, and the counters of the statistics. */
module Listing {
  import opened Tokens

  /** One row of the token list: the record, its id and the seconds it has left. */
  datatype ListedToken = ListedToken(id: string, token: TokenRecord, remainingSeconds: int)

  /** `remaining_seconds = max(0, expires_at - now)` */
  function Listed(id: string, t: TokenRecord, now: int): (e: ListedToken)
    ensures e.id == id && e.token == t
    ensures e.remainingSeconds >= 0
    ensures e.remainingSeconds == 0 <==> now >= t.expiresAt
    ensures e.remainingSeconds > 0 ==> now + e.remainingSeconds == t.expiresAt
  {
    ListedToken(id, t, if t.expiresAt - now > 0 then t.expiresAt - now else 0)
  }

  /** Creation times never increase along the list. */
  predicate NewestFirst(s: seq<ListedToken>) {
    forall i, j :: 0 <= i < j < |s| ==> s[i].token.createdAt >= s[j].token.createdAt
  }

  /** A row no older than the head of a newest-first list can go in front of it. */
  lemma ConsNewestFirst(x: ListedToken, s: seq<ListedToken>)
    requires NewestFirst(s)
    requires s == [] || x.token.createdAt >= s[0].token.createdAt
    ensures NewestFirst([x] + s)
  {
    var r := [x] + s;
    forall i, j | 0 <= i < j < |r|
      ensures r[i].token.createdAt >= r[j].token.createdAt
    {
      if i == 0 {
        assert r[j] == s[j - 1];
        assert s[0].token.createdAt >= s[j - 1].token.createdAt;
      } else {
        assert r[i] == s[i - 1] && r[j] == s[j - 1];
      }
    }
  }

  lemma TailNewestFirst(s: seq<ListedToken>)
    requires NewestFirst(s) && s != []
    ensures NewestFirst(s[1..])
  {
    forall i, j | 0 <= i < j < |s[1..]|
      ensures s[1..][i].token.createdAt >= s[1..][j].token.createdAt
    {
      assert s[1..][i] == s[i + 1] && s[1..][j] == s[j + 1];
    }
  }

  function InsertNewestFirst(e: ListedToken, s: seq<ListedToken>): (r: seq<ListedToken>)
    requires NewestFirst(s)
    ensures |r| == |s| + 1
    ensures NewestFirst(r)
    ensures multiset(r) == multiset(s) + multiset{e}
    ensures r[0] == e || (s != [] && r[0] == s[0])
  {
    if s == [] || e.token.createdAt >= s[0].token.createdAt then
      ConsNewestFirst(e, s);
      [e] + s
    else
      TailNewestFirst(s);
      var rest := InsertNewestFirst(e, s[1..]);
      assert s[1..] != [] ==> s[1..][0] == s[1];
      ConsNewestFirst(s[0], rest);
      assert s == [s[0]] + s[1..];
      [s[0]] + rest
  }

  /** `tokens.sort(key=created_at, reverse=True)`: the same rows, newest first. */
  function SortNewestFirst(s: seq<ListedToken>): (r: seq<ListedToken>)
    ensures NewestFirst(r)
    ensures multiset(r) == multiset(s)
  {
    if s == [] then []
    else
      assert s == [s[0]] + s[1..];
      InsertNewestFirst(s[0], SortNewestFirst(s[1..]))
  }

  /** A permutation keeps the length and the set of elements. */
  lemma PermutationKeepsElements(s: seq<ListedToken>, r: seq<ListedToken>)
    requires multiset(r) == multiset(s)
    ensures |r| == |s|
    ensures forall x :: x in r <==> x in s
  {
    assert |multiset(r)| == |multiset(s)|;
    forall x ensures x in r <==> x in s {
      assert x in r <==> x in multiset(r);
      assert x in s <==> x in multiset(s);
    }
  }

  datatype UsageBucket = Low | Medium | High

  /** The usage bucket of `current_uses / max_uses * 100`: below 33 is low,
      below 66 medium, the rest high. Undefined for a limit of zero, which
      the service would divide by. */
  function BucketOf(current: int, max: int): (b: UsageBucket)
    requires max != 0
    ensures max > 0 ==> (b == Low <==> 100 * current < 33 * max)
    ensures max > 0 ==> (b == High <==> 100 * current >= 66 * max)
    ensures max > 0 && current <= 0 ==> b == Low
    ensures max > 0 && current >= max ==> b == High
  {
    if max > 0 then
      if 100 * current < 33 * max then Low
      else if 100 * current < 66 * max then Medium
      else High
    else
      // dividing by a negative limit flips both comparisons
      if 100 * current > 33 * max then Low
      else if 100 * current > 66 * max then Medium
      else High
  }

  predicate InBucket(t: TokenRecord, b: UsageBucket) {
    t.maxUses != 0 && BucketOf(t.currentUses, t.maxUses) == b
  }

  /** The ids among `ids` whose token falls in bucket `b`. */
  function IdsInBucket(m: map<string, TokenRecord>, ids: set<string>, b: UsageBucket): set<string> {
    set id | id in ids && id in m && InBucket(m[id], b)
  }

  /** The ids among `ids` whose token has type `ty`. */
  function IdsOfType(m: map<string, TokenRecord>, ids: set<string>, ty: string): set<string> {
    set id | id in ids && id in m && m[id].tokenType == ty
  }

  lemma IdsInBucketGrow(m: map<string, TokenRecord>, ids: set<string>, k: string, b: UsageBucket)
    requires k in m && k !in ids
    ensures |IdsInBucket(m, ids + {k}, b)| == |IdsInBucket(m, ids, b)| + (if InBucket(m[k], b) then 1 else 0)
  {
    if InBucket(m[k], b) {
      assert IdsInBucket(m, ids + {k}, b) == IdsInBucket(m, ids, b) + {k};
    } else {
      assert IdsInBucket(m, ids + {k}, b) == IdsInBucket(m, ids, b);
    }
  }

  lemma IdsOfTypeGrow(m: map<string, TokenRecord>, ids: set<string>, k: string, ty: string)
    requires k in m && k !in ids
    ensures |IdsOfType(m, ids + {k}, ty)| == |IdsOfType(m, ids, ty)| + (if m[k].tokenType == ty then 1 else 0)
  {
    if m[k].tokenType == ty {
      assert IdsOfType(m, ids + {k}, ty) == IdsOfType(m, ids, ty) + {k};
    } else {
      assert IdsOfType(m, ids + {k}, ty) == IdsOfType(m, ids, ty);
    }
  }

  /** `tokens_by_type`, a dictionary kept in insertion order: a list of (type, count) pairs. */
  type TypeCounts = seq<(string, int)>

  /** `tokens_by_type.get(ty, 0)` */
  function CountOf(counts: TypeCounts, ty: string): (n: int)
    ensures ty !in TypesOf(counts) ==> n == 0
  {
    if counts == [] then 0
    else if counts[0].0 == ty then counts[0].1
    else CountOf(counts[1..], ty)
  }

  function SumCounts(counts: TypeCounts): int {
    if counts == [] then 0 else counts[0].1 + SumCounts(counts[1..])
  }

  /** The types listed in `counts`. */
  function TypesOf(counts: TypeCounts): set<string> {
    if counts == [] then {} else {counts[0].0} + TypesOf(counts[1..])
  }

  /** No type is listed twice. */
  predicate DistinctTypes(counts: TypeCounts) {
    counts == [] || (counts[0].0 !in TypesOf(counts[1..]) && DistinctTypes(counts[1..]))
  }

  /** `tokens_by_type[ty] = tokens_by_type.get(ty, 0) + 1`: one more for `ty`,
      the same for every other type, one more in all, and each type still listed once. */
  function Bump(counts: TypeCounts, ty: string): (r: TypeCounts)
    ensures forall u :: CountOf(r, u) == CountOf(counts, u) + (if u == ty then 1 else 0)
    ensures SumCounts(r) == SumCounts(counts) + 1
    ensures TypesOf(r) == TypesOf(counts) + {ty}
    ensures DistinctTypes(counts) ==> DistinctTypes(r)
  {
    if counts == [] then [(ty, 1)]
    else if counts[0].0 == ty then
      var r := [(ty, counts[0].1 + 1)] + counts[1..];
      assert r[1..] == counts[1..];
      r
    else
      var rest := Bump(counts[1..], ty);
      var r := [counts[0]] + rest;
      assert r[1..] == rest;
      r
  }

  /** The answer of the statistics: tokens stored, tokens per type, tokens per usage bucket. */
  datatype Stats = Stats(totalActive: int, byType: TypeCounts, low: int, medium: int, high: int)

  /** The loop body of `token_stats` for one token. */
  function CountToken(s: Stats, t: TokenRecord): (r: Stats)
    requires t.maxUses != 0
    ensures r.totalActive == s.totalActive + 1
    ensures forall u :: CountOf(r.byType, u) == CountOf(s.byType, u) + (if u == t.tokenType then 1 else 0)
    ensures r.low >= s.low && r.medium >= s.medium && r.high >= s.high
    ensures r.low + r.medium + r.high == s.low + s.medium + s.high + 1
    ensures t.maxUses > 0 ==> (r.low == s.low + 1 <==> 100 * t.currentUses < 33 * t.maxUses)
    ensures t.maxUses > 0 ==> (r.high == s.high + 1 <==> 100 * t.currentUses >= 66 * t.maxUses)
  {
    var b := BucketOf(t.currentUses, t.maxUses);
    Stats(s.totalActive + 1, Bump(s.byType, t.tokenType),
          s.low + (if b == Low then 1 else 0),
          s.medium + (if b == Medium then 1 else 0),
          s.high + (if b == High then 1 else 0))
  }

  /** The types of the tokens of `m` with ids in `ids`. */
  function TypesIn(m: map<string, TokenRecord>, ids: set<string>): set<string> {
    set id | id in ids && id in m :: m[id].tokenType
  }

  /** `s` counts exactly the tokens of `m` with ids in `ids`: the total, each
      type, each bucket, with the buckets and the types adding up to the total.
      Every listed type has been counted at least once. */
  ghost predicate Tallies(m: map<string, TokenRecord>, ids: set<string>, s: Stats) {
    && s.totalActive == |ids|
    && (forall ty :: ty in TypesOf(s.byType) ==> CountOf(s.byType, ty) > 0)
    && s.low + s.medium + s.high == s.totalActive
    && SumCounts(s.byType) == s.totalActive
    && DistinctTypes(s.byType)
    && (forall ty :: CountOf(s.byType, ty) == |IdsOfType(m, ids, ty)|)
    && s.low == |IdsInBucket(m, ids, Low)|
    && s.medium == |IdsInBucket(m, ids, Medium)|
    && s.high == |IdsInBucket(m, ids, High)|
  }

  lemma TalliesNothing(m: map<string, TokenRecord>)
    ensures Tallies(m, {}, Stats(0, [], 0, 0, 0))
  {
    forall ty ensures CountOf([], ty) == |IdsOfType(m, {}, ty)| {
      assert IdsOfType(m, {}, ty) == {};
    }
    assert IdsInBucket(m, {}, Low) == {} && IdsInBucket(m, {}, Medium) == {} && IdsInBucket(m, {}, High) == {};
  }

  /** Counting one more token keeps the tally exact. */
  lemma TallyStep(m: map<string, TokenRecord>, ids: set<string>, k: string, s: Stats)
    requires Tallies(m, ids, s) && k in m && k !in ids && m[k].maxUses != 0
    ensures Tallies(m, ids + {k}, CountToken(s, m[k]))
  {
    IdsInBucketGrow(m, ids, k, Low);
    IdsInBucketGrow(m, ids, k, Medium);
    IdsInBucketGrow(m, ids, k, High);
    forall ty ensures CountOf(CountToken(s, m[k]).byType, ty) == |IdsOfType(m, ids + {k}, ty)| {
      IdsOfTypeGrow(m, ids, k, ty);
    }
  }

  /** A tally lists exactly the types of the tokens it counted. */
  lemma TalliedTypes(m: map<string, TokenRecord>, ids: set<string>, s: Stats)
    requires Tallies(m, ids, s)
    ensures TypesOf(s.byType) == TypesIn(m, ids)
  {
    forall ty | ty in TypesOf(s.byType) ensures ty in TypesIn(m, ids) {
      var id :| id in IdsOfType(m, ids, ty);
    }
    forall ty | ty in TypesIn(m, ids) ensures ty in TypesOf(s.byType) {
      var id :| id in ids && id in m && m[id].tokenType == ty;
      assert id in IdsOfType(m, ids, ty);
    }
  }
}
