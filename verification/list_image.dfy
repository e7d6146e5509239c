/**
 * `ListImage`: newest-first pages of image rows with a `createdAt` cursor.
 * Pages are specified on the set of rows: `NewestFirst` orders a set by
 * descending `createdAt` (ties in any order, as the database may return
 * them), `Page` takes the first `limit` rows older than the cursor, and
 * `WalkYields` says what a client receives when it follows `nextCursor`
 * until it is null.
 */
module ListImage {
  import opened Wrappers
  import opened Text
  import opened Http
  import opened Database
  import opened BearerAuth

  /** The `cursor` query: absent or empty, not parseable as an integer, or parsed. */
  datatype CursorParam = NoCursor | Unparsable | CursorAt(n: int)

  datatype ListRequest = ListRequest(authorization: Option<string>, verb: string, limit: NumParam, cursor: CursorParam)

  /**
   * The reply: a page with its next cursor; for an API-key caller the query
   * filtered on the column `ownerUUID`, which the image table does not
   * declare, so its result is not modelled; or an error.
   */
  datatype ListOutcome =
    | Listed(images: seq<Image>, nextCursor: Option<int>)
    | OwnerScopedQuery(owner: string, cursor: int, limit: int)
    | Refused(status: int, code: ErrorCode)

  /** `+(limit ?? "10")` checked against [1, 100]. */
  function PageSize(p: NumParam): (r: Option<int>)
    ensures r.Some? ==> 1 <= r.value <= 100
    ensures p.Absent? ==> r == Some(10)
    ensures p.Num? && 1 <= p.n <= 100 ==> r == Some(p.n)
    ensures p.NaN? || (p.Num? && (p.n < 1 || p.n > 100)) ==> r.None?
  {
    match p
    case Absent => Some(10)
    case NaN => None
    case Num(n) => if 1 <= n <= 100 then Some(n) else None
  }

  ghost predicate Descending(s: seq<Image>) {
    forall i, j :: 0 <= i < j < |s| ==> s[i].createdAt >= s[j].createdAt
  }

  ghost predicate StrictlyDescending(s: seq<Image>) {
    forall i, j :: 0 <= i < j < |s| ==> s[i].createdAt > s[j].createdAt
  }

  ghost predicate NoDuplicates(s: seq<Image>) {
    forall i, j :: 0 <= i < j < |s| ==> s[i] != s[j]
  }

  /** No two rows were created in the same millisecond. */
  ghost predicate DistinctTimes(rows: set<Image>) {
    forall x, y :: x in rows && y in rows && x.createdAt == y.createdAt ==> x == y
  }

  /** Every row was created after the epoch, so its time is a truthy cursor. */
  ghost predicate AfterEpoch(rows: set<Image>) {
    forall x :: x in rows ==> x.createdAt > 0
  }

  ghost predicate IsNewest(m: Image, rows: set<Image>) {
    forall y :: y in rows ==> y.createdAt <= m.createdAt
  }

  lemma {:induction false} NewestExists(rows: set<Image>)
    requires rows != {}
    ensures exists m :: m in rows && IsNewest(m, rows)
    decreases |rows|
  {
    var x :| x in rows;
    if rows != {x} {
      NewestExists(rows - {x});
      var m :| m in rows - {x} && IsNewest(m, rows - {x});
      if x.createdAt > m.createdAt {
        assert IsNewest(x, rows);
      } else {
        assert IsNewest(m, rows);
      }
    } else {
      assert IsNewest(x, rows);
    }
  }

  /** r lists every row of the set exactly once, newest first. */
  ghost predicate OrderedAs(r: seq<Image>, rows: set<Image>) {
    && |r| == |rows|
    && (forall x :: x in r <==> x in rows)
    && Descending(r)
    && NoDuplicates(r)
  }

  /** Every finite set of rows has a newest-first listing: the newest row, then the rest. */
  lemma {:induction false} OrderExists(rows: set<Image>)
    ensures exists r :: OrderedAs(r, rows)
    decreases |rows|
  {
    if rows == {} {
      assert OrderedAs([], rows);
    } else {
      NewestExists(rows);
      var m :| m in rows && IsNewest(m, rows);
      OrderExists(rows - {m});
      var tail :| OrderedAs(tail, rows - {m});
      var r := [m] + tail;
      forall i, j | 0 <= i < j < |r|
        ensures r[i].createdAt >= r[j].createdAt && r[i] != r[j]
      {
        assert r[j] == tail[j - 1] && r[j] in rows - {m};
        if i > 0 {
          assert r[i] == tail[i - 1];
        }
      }
      assert OrderedAs(r, rows);
    }
  }

  /** `ORDER BY createdAt DESC` over a set of rows; rows with equal times come in any order. */
  ghost function NewestFirst(rows: set<Image>): (r: seq<Image>)
    ensures OrderedAs(r, rows)
  {
    OrderExists(rows);
    var r :| OrderedAs(r, rows);
    r
  }

  /** `WHERE createdAt < cursor`, with no filter for a falsy (0) cursor. */
  ghost function Candidates(rows: set<Image>, cursor: int): set<Image> {
    set x | x in rows && (cursor == 0 || x.createdAt < cursor)
  }

  /** `findAll` with the cursor filter, `ORDER BY createdAt DESC`, `LIMIT limit`. */
  ghost function Page(rows: set<Image>, cursor: int, limit: int): seq<Image>
    requires limit >= 1
  {
    Take(NewestFirst(Candidates(rows, cursor)), limit)
  }

  /**
   * A page holds min(limit, #candidates) candidates, newest first, each once,
   * and every candidate left out is no newer than the page's last row.
   */
  lemma PageIsNewest(rows: set<Image>, cursor: int, limit: int)
    requires limit >= 1
    ensures var p := Page(rows, cursor, limit);
      && |p| == (if |Candidates(rows, cursor)| <= limit then |Candidates(rows, cursor)| else limit)
      && (forall x :: x in p ==> x in rows && (cursor == 0 || x.createdAt < cursor))
      && Descending(p) && NoDuplicates(p)
      && (forall x :: x in rows && (cursor == 0 || x.createdAt < cursor) && x !in p
            ==> |p| == limit && x.createdAt <= p[|p| - 1].createdAt)
  {
    TakeNewest(NewestFirst(Candidates(rows, cursor)), limit);
  }

  /** The first n elements of s (all of s when it is shorter). */
  ghost function Take(s: seq<Image>, n: int): seq<Image>
    requires n >= 0
  {
    if |s| <= n then s else s[..n]
  }

  /** A prefix of a newest-first sequence holds its newest rows. */
  lemma TakeNewest(s: seq<Image>, n: int)
    requires Descending(s) && NoDuplicates(s) && n >= 1
    ensures var p := Take(s, n);
      && |p| == (if |s| <= n then |s| else n)
      && (forall x :: x in p ==> x in s)
      && Descending(p) && NoDuplicates(p)
      && (forall x :: x in s && x !in p ==> |p| == n && x.createdAt <= p[|p| - 1].createdAt)
  {
    var p := Take(s, n);
    forall x | x in s && x !in p
      ensures |p| == n && x.createdAt <= p[|p| - 1].createdAt
    {
      var j :| 0 <= j < |s| && s[j] == x;
      assert j >= n;
    }
  }

  /** `images.length === limit ? last.createdAt : null`. */
  function NextCursor(page: seq<Image>, limit: int): (r: Option<int>)
    requires limit >= 1
    ensures r.Some? <==> |page| == limit
    ensures r.Some? ==> r.value == page[|page| - 1].createdAt
  {
    if |page| == limit then Some(page[|page| - 1].createdAt) else None
  }

  /** A full page's cursor leaves fewer candidates behind. */
  lemma CandidatesShrink(rows: set<Image>, cursor: int, limit: int)
    requires limit >= 1 && AfterEpoch(rows)
    requires NextCursor(Page(rows, cursor, limit), limit).Some?
    ensures |Candidates(rows, NextCursor(Page(rows, cursor, limit), limit).value)| < |Candidates(rows, cursor)|
  {
    var page := Page(rows, cursor, limit);
    PageIsNewest(rows, cursor, limit);
    var last := page[|page| - 1];
    var next := Candidates(rows, last.createdAt);
    var here := Candidates(rows, cursor);
    assert last in here;
    assert next <= here - {last};
    SubsetSmaller(next, here - {last});
  }

  lemma {:induction false} SubsetSmaller(a: set<Image>, b: set<Image>)
    requires a <= b
    ensures |a| <= |b|
    decreases |b|
  {
    if a != {} {
      var x :| x in a;
      SubsetSmaller(a - {x}, b - {x});
    }
  }

  /**
   * `seen` is what a client receives when it follows `nextCursor` from
   * `cursor` until it is null: the pages, concatenated.
   */
  ghost predicate WalkYields(rows: set<Image>, cursor: int, limit: int, seen: seq<Image>)
    requires limit >= 1 && AfterEpoch(rows)
    decreases |Candidates(rows, cursor)|
  {
    var page := Page(rows, cursor, limit);
    match NextCursor(page, limit)
    case None => seen == page
    case Some(next) =>
      CandidatesShrink(rows, cursor, limit);
      && |page| <= |seen|
      && seen[..|page|] == page
      && WalkYields(rows, next, limit, seen[|page|..])
  }

  /** The handler, from the header check to the reply (list-image lines 6-106). */
  ghost function ListImages(cfg: Config, keys: map<string, ApiKey>, images: map<string, Image>, req: ListRequest): (r: ListOutcome)
    requires KeyedById(images) && KeyedByUuid(keys) && KeyStringsUnique(keys) && TokensUnique(images)
    ensures r.Refused? ==> r.status in {400, 401, 405}
    ensures r.OwnerScopedQuery? ==> 1 <= r.limit <= 100
    ensures !r.Refused? ==> IdentifyBearer(cfg, keys, images, req.authorization).Done?
  {
    match IdentifyBearer(cfg, keys, images, req.authorization)
    case Fail(status, code) => Refused(status, code)
    case Done(who) =>
      if req.verb != "GET" then Refused(405, MethodNotAllowed)
      else
        match PageSize(req.limit)
        case None => Refused(400, InvalidQuery)
        case Some(limit) =>
          if req.cursor.Unparsable? then Refused(400, InvalidQuery)
          else
            var cursor := if req.cursor.CursorAt? then req.cursor.n else 0;
            match who
            case TokenBearer(image) => Listed([image], None)
            case KeyBearer(u) => OwnerScopedQuery(u, cursor, limit)
            case _ =>
              var page := Page(images.Values, cursor, limit);
              Listed(page, NextCursor(page, limit))
  }

  /** The header is checked before anything else: missing is 401 MissingAuthorization, not "Bearer ..." is 401 InvalidAuthorization. */
  lemma ListHeaderChecked(cfg: Config, keys: map<string, ApiKey>, images: map<string, Image>, req: ListRequest)
    requires KeyedById(images) && KeyedByUuid(keys) && KeyStringsUnique(keys) && TokensUnique(images)
    ensures req.authorization.None? ==> ListImages(cfg, keys, images, req) == Refused(401, MissingAuthorization)
    ensures req.authorization.Some? && !StartsWith(req.authorization.value, BearerPrefix)
      ==> ListImages(cfg, keys, images, req) == Refused(401, InvalidAuthorization)
  {
  }

  /** A failed identification is the reply, before the verb or anything else is looked at. */
  lemma ListIdentityRefusal(cfg: Config, keys: map<string, ApiKey>, images: map<string, Image>, req: ListRequest)
    requires KeyedById(images) && KeyedByUuid(keys) && KeyStringsUnique(keys) && TokensUnique(images)
    requires IdentifyBearer(cfg, keys, images, req.authorization).Fail?
    ensures var id := IdentifyBearer(cfg, keys, images, req.authorization);
      ListImages(cfg, keys, images, req) == Refused(id.status, id.code)
  {
  }

  /**
   * A "kona_sk_" secret that is no key's, or a "kona_ri_" token that is no
   * image's, is 401 InvalidAuthorization (unless it is the master key).
   */
  lemma ListUnknownTokenRefused(cfg: Config, keys: map<string, ApiKey>, images: map<string, Image>, req: ListRequest,
                              token: string)
    requires KeyedById(images) && KeyedByUuid(keys) && KeyStringsUnique(keys) && TokensUnique(images)
    requires req.authorization == Some(BearerPrefix + token) && !IsMaster(cfg, token)
    requires || (StartsWith(token, ApiKeyPrefix) && forall u :: u in keys ==> keys[u].key != token)
             || (StartsWith(token, RevocationPrefix) && forall id :: id in images ==> images[id].revokationToken != Some(token))
    ensures ListImages(cfg, keys, images, req) == Refused(401, InvalidAuthorization)
  {
    assert BearerToken(BearerPrefix + token) == token;
  }

  /** An accepted caller using any verb but GET gets 405; the verb is looked at only after the header. */
  lemma ListOnlyGet(cfg: Config, keys: map<string, ApiKey>, images: map<string, Image>, req: ListRequest)
    requires KeyedById(images) && KeyedByUuid(keys) && KeyStringsUnique(keys) && TokensUnique(images)
    requires IdentifyBearer(cfg, keys, images, req.authorization).Done?
    ensures ListImages(cfg, keys, images, req) == Refused(405, MethodNotAllowed) <==> req.verb != "GET"
  {
  }

  /** A GET whose limit is NaN or outside [1, 100], or whose cursor does not parse, is 400 InvalidQuery. */
  lemma ListQueryChecked(cfg: Config, keys: map<string, ApiKey>, images: map<string, Image>, req: ListRequest)
    requires KeyedById(images) && KeyedByUuid(keys) && KeyStringsUnique(keys) && TokensUnique(images)
    requires IdentifyBearer(cfg, keys, images, req.authorization).Done? && req.verb == "GET"
    ensures (req.limit.NaN? || (req.limit.Num? && (req.limit.n < 1 || req.limit.n > 100)) || req.cursor.Unparsable?)
      <==> ListImages(cfg, keys, images, req) == Refused(400, InvalidQuery)
  {
  }

  /**
   * The master key, and equally any bearer token with neither the API-key
   * nor the revocation prefix, lists from all images: the page the cursor
   * and limit select (see `PageIsNewest`) and its next cursor.
   */
  lemma UnscopedListing(cfg: Config, keys: map<string, ApiKey>, images: map<string, Image>, req: ListRequest, token: string)
    requires KeyedById(images) && KeyedByUuid(keys) && KeyStringsUnique(keys) && TokensUnique(images)
    requires req.authorization == Some(BearerPrefix + token)
    requires IsMaster(cfg, token) || (!StartsWith(token, ApiKeyPrefix) && !StartsWith(token, RevocationPrefix))
    requires req.verb == "GET" && PageSize(req.limit).Some? && !req.cursor.Unparsable?
    ensures var r := ListImages(cfg, keys, images, req);
      && r.Listed?
      && r.images == Page(images.Values, if req.cursor.CursorAt? then req.cursor.n else 0, PageSize(req.limit).value)
      && r.nextCursor == NextCursor(r.images, PageSize(req.limit).value)
  {
    assert BearerToken(req.authorization.value) == token;
  }

  /** A revocation-token caller is shown that token's image alone, with no next cursor. */
  lemma TokenCallerSeesOwnImage(cfg: Config, keys: map<string, ApiKey>, images: map<string, Image>, req: ListRequest,
                                id: string, token: string)
    requires KeyedById(images) && KeyedByUuid(keys) && KeyStringsUnique(keys) && TokensUnique(images)
    requires req.authorization == Some(BearerPrefix + token)
    requires !IsMaster(cfg, token) && StartsWith(token, RevocationPrefix)
    requires id in images && images[id].revokationToken == Some(token)
    requires req.verb == "GET" && PageSize(req.limit).Some? && !req.cursor.Unparsable?
    ensures ListImages(cfg, keys, images, req) == Listed([images[id]], None)
  {
    assert BearerToken(req.authorization.value) == token;
    assert !StartsWith(token, ApiKeyPrefix) by { assert token[5] == 'r' && ApiKeyPrefix[5] == 's'; }
  }

  /** An API-key caller's listing is the query scoped to that key's uuid. */
  lemma KeyCallerScoped(cfg: Config, keys: map<string, ApiKey>, images: map<string, Image>, req: ListRequest, u: string)
    requires KeyedById(images) && KeyedByUuid(keys) && KeyStringsUnique(keys) && TokensUnique(images)
    requires u in keys && req.authorization == Some(BearerPrefix + keys[u].key)
    requires !IsMaster(cfg, keys[u].key) && StartsWith(keys[u].key, ApiKeyPrefix)
    requires req.verb == "GET" && PageSize(req.limit).Some? && !req.cursor.Unparsable?
    ensures ListImages(cfg, keys, images, req)
      == OwnerScopedQuery(u, if req.cursor.CursorAt? then req.cursor.n else 0, PageSize(req.limit).value)
  {
    assert BearerToken(req.authorization.value) == keys[u].key;
  }

  /** The cursor a client holds after k rows of the newest-first order. */
  ghost function CursorAfter(order: seq<Image>, k: int): int
    requires 0 <= k <= |order|
  {
    if k == 0 then 0 else order[k - 1].createdAt
  }

  lemma StrictWhenDistinct(rows: set<Image>)
    requires DistinctTimes(rows)
    ensures StrictlyDescending(NewestFirst(rows))
  {
    var r := NewestFirst(rows);
    forall i, j | 0 <= i < j < |r|
      ensures r[i].createdAt > r[j].createdAt
    {
      assert r[i] in rows && r[j] in rows && r[i] != r[j];
    }
  }

  /** Two strictly descending sequences with the same rows are equal. */
  lemma {:induction false} StrictlyDescendingUnique(a: seq<Image>, b: seq<Image>)
    requires StrictlyDescending(a) && StrictlyDescending(b)
    requires forall x :: x in a <==> x in b
    ensures a == b
    decreases |a|
  {
    assert |b| > 0 ==> b[0] in b;
    if |a| != 0 {
      assert a[0] in b;
      var j :| 0 <= j < |b| && b[j] == a[0];
      assert b[0] in a;
      var i :| 0 <= i < |a| && a[i] == b[0];
      assert a[0].createdAt >= a[i].createdAt;
      assert j == 0;
      forall x
        ensures x in a[1..] <==> x in b[1..]
      {
        if x in a[1..] {
          var k :| 1 <= k < |a| && a[k] == x;
          assert x != a[0];
          assert x in b;
          var l :| 0 <= l < |b| && b[l] == x;
          assert l != 0;
        }
        if x in b[1..] {
          var k :| 1 <= k < |b| && b[k] == x;
          assert x != b[0];
          assert x in a;
          var l :| 0 <= l < |a| && a[l] == x;
          assert l != 0;
        }
      }
      StrictlyDescendingUnique(a[1..], b[1..]);
      assert a == [a[0]] + a[1..];
      assert b == [b[0]] + b[1..];
    }
  }

  lemma SuffixStrict(order: seq<Image>, k: int)
    requires StrictlyDescending(order) && 0 <= k <= |order|
    ensures StrictlyDescending(order[k..])
  {
    forall i, j | 0 <= i < j < |order| - k
      ensures order[k..][i].createdAt > order[k..][j].createdAt
    {
      assert order[k..][i] == order[k + i] && order[k..][j] == order[k + j];
    }
  }

  /** In a strictly newest-first order, the rows older than the k-th row are those after it. */
  lemma OlderAreAfter(order: seq<Image>, k: int, x: Image)
    requires StrictlyDescending(order) && 1 <= k <= |order|
    requires x in order
    ensures x.createdAt < order[k - 1].createdAt <==> x in order[k..]
  {
    var j :| 0 <= j < |order| && order[j] == x;
    if j < k {
      assert order[j].createdAt >= order[k - 1].createdAt;
    } else {
      assert x == order[k..][j - k];
    }
    if x in order[k..] {
      var l :| k <= l < |order| && order[l] == x;
      assert order[k - 1].createdAt > order[l].createdAt;
    }
  }

  /** The rows older than the k-th row are exactly the rest of the newest-first order. */
  lemma SuffixIsCandidates(rows: set<Image>, k: int)
    requires DistinctTimes(rows) && AfterEpoch(rows)
    requires 0 <= k <= |NewestFirst(rows)|
    ensures NewestFirst(Candidates(rows, CursorAfter(NewestFirst(rows), k))) == NewestFirst(rows)[k..]
  {
    var order := NewestFirst(rows);
    var cands := Candidates(rows, CursorAfter(order, k));
    var sorted := NewestFirst(cands);
    StrictWhenDistinct(rows);
    assert DistinctTimes(cands);
    StrictWhenDistinct(cands);
    SuffixStrict(order, k);
    if k > 0 {
      assert order[k - 1] in rows;
      assert CursorAfter(order, k) != 0;
      forall x
        ensures x in sorted <==> x in order[k..]
      {
        if x in order {
          OlderAreAfter(order, k, x);
        }
      }
    }
    StrictlyDescendingUnique(sorted, order[k..]);
  }

  /** The page after the k-th row is the next `limit` rows of the newest-first order. */
  lemma PageAfter(rows: set<Image>, limit: int, k: int)
    requires DistinctTimes(rows) && AfterEpoch(rows) && limit >= 1
    requires 0 <= k <= |NewestFirst(rows)|
    ensures Page(rows, CursorAfter(NewestFirst(rows), k), limit) == Take(NewestFirst(rows)[k..], limit)
  {
    SuffixIsCandidates(rows, k);
  }

  /** Taking `limit` rows from position k of a sequence. */
  lemma TakeSlice(order: seq<Image>, limit: int, k: int)
    requires limit >= 1 && 0 <= k <= |order|
    ensures k + limit <= |order| ==> Take(order[k..], limit) == order[k..k + limit]
    ensures k + limit > |order| ==> Take(order[k..], limit) == order[k..]
  {
    if k + limit <= |order| {
      assert order[k..][..limit] == order[k..k + limit];
      if |order| == k + limit {
        assert order[k..] == order[k..k + limit];
      }
    }
  }

  /** A full page followed by what the walk from its cursor yields is what the walk yields. */
  lemma WalkCons(rows: set<Image>, cursor: int, limit: int, next: int, rest: seq<Image>, seen: seq<Image>)
    requires limit >= 1 && AfterEpoch(rows)
    requires NextCursor(Page(rows, cursor, limit), limit) == Some(next)
    requires WalkYields(rows, next, limit, rest)
    requires seen == Page(rows, cursor, limit) + rest
    ensures WalkYields(rows, cursor, limit, seen)
  {
    var page := Page(rows, cursor, limit);
    assert seen[..|page|] == page;
    assert seen[|page|..] == rest;
  }

  /** A full page after the k-th row leads on to the walk after the (k + limit)-th row. */
  lemma FullPageStep(rows: set<Image>, limit: int, k: int)
    requires DistinctTimes(rows) && AfterEpoch(rows) && limit >= 1
    requires 0 <= k && k + limit <= |NewestFirst(rows)|
    requires WalkYields(rows, CursorAfter(NewestFirst(rows), k + limit), limit, NewestFirst(rows)[k + limit..])
    ensures WalkYields(rows, CursorAfter(NewestFirst(rows), k), limit, NewestFirst(rows)[k..])
  {
    var order := NewestFirst(rows);
    FullPageAt(rows, limit, k);
    ConsSlice(order, k, limit, Page(rows, CursorAfter(order, k), limit));
    WalkCons(rows, CursorAfter(order, k), limit, CursorAfter(order, k + limit), order[k + limit..], order[k..]);
  }

  /** A page that starts after the k newest rows and is full is the next `limit` rows of the order. */
  lemma FullPageAt(rows: set<Image>, limit: int, k: int)
    requires DistinctTimes(rows) && AfterEpoch(rows) && limit >= 1
    requires 0 <= k && k + limit <= |NewestFirst(rows)|
    ensures Page(rows, CursorAfter(NewestFirst(rows), k), limit) == NewestFirst(rows)[k..k + limit]
    ensures NextCursor(Page(rows, CursorAfter(NewestFirst(rows), k), limit), limit)
      == Some(CursorAfter(NewestFirst(rows), k + limit))
  {
    var order := NewestFirst(rows);
    var page := Page(rows, CursorAfter(order, k), limit);
    assert page == order[k..k + limit] by {
      PageAfter(rows, limit, k);
      TakeSlice(order, limit, k);
    }
    assert page[limit - 1] == order[k + limit - 1];
  }

  lemma ConsSlice(s: seq<Image>, k: int, n: int, front: seq<Image>)
    requires 0 <= k && k + n <= |s| && n >= 0
    requires front == s[k..k + n]
    ensures s[k..] == front + s[k + n..]
  {
  }

  /** A short page after the k-th row is the rest of the order and ends the walk. */
  lemma ShortPageStep(rows: set<Image>, limit: int, k: int)
    requires DistinctTimes(rows) && AfterEpoch(rows) && limit >= 1
    requires 0 <= k <= |NewestFirst(rows)| < k + limit
    ensures WalkYields(rows, CursorAfter(NewestFirst(rows), k), limit, NewestFirst(rows)[k..])
  {
    var order := NewestFirst(rows);
    PageAfter(rows, limit, k);
    TakeSlice(order, limit, k);
  }

  /** Following the cursor from after the k-th row yields the rest of the newest-first order. */
  lemma {:induction false} WalkFrom(rows: set<Image>, limit: int, k: int)
    requires DistinctTimes(rows) && AfterEpoch(rows) && limit >= 1
    requires 0 <= k <= |NewestFirst(rows)|
    ensures WalkYields(rows, CursorAfter(NewestFirst(rows), k), limit, NewestFirst(rows)[k..])
    decreases |NewestFirst(rows)| - k
  {
    if k + limit <= |NewestFirst(rows)| {
      WalkFrom(rows, limit, k + limit);
      FullPageStep(rows, limit, k);
    } else {
      ShortPageStep(rows, limit, k);
    }
  }

  /**
   * When no two rows share a creation time and all are after the epoch, a
   * client starting without a cursor receives every row exactly once,
   * newest first.
   */
  lemma WalkListsEverything(rows: set<Image>, limit: int)
    requires DistinctTimes(rows) && AfterEpoch(rows) && limit >= 1
    ensures WalkYields(rows, 0, limit, NewestFirst(rows))
    ensures |NewestFirst(rows)| == |rows| && (forall x :: x in NewestFirst(rows) <==> x in rows)
    ensures NoDuplicates(NewestFirst(rows)) && StrictlyDescending(NewestFirst(rows))
  {
    WalkFrom(rows, limit, 0);
    assert NewestFirst(rows)[0..] == NewestFirst(rows);
    StrictWhenDistinct(rows);
  }

  /** What a walk yields is determined by where it starts. */
  lemma {:induction false} WalkDeterministic(rows: set<Image>, cursor: int, limit: int, a: seq<Image>, b: seq<Image>)
    requires limit >= 1 && AfterEpoch(rows)
    requires WalkYields(rows, cursor, limit, a) && WalkYields(rows, cursor, limit, b)
    ensures a == b
    decreases |Candidates(rows, cursor)|
  {
    var page := Page(rows, cursor, limit);
    if NextCursor(page, limit).Some? {
      CandidatesShrink(rows, cursor, limit);
      WalkDeterministic(rows, NextCursor(page, limit).value, limit, a[|page|..], b[|page|..]);
      assert a == a[..|page|] + a[|page|..];
      assert b == b[..|page|] + b[|page|..];
    }
  }
}
