/** The view repository as it runs: Redis commands and one Postgres transaction, without interleaving. */
module ViewRepo {
  import opened Views
  import opened ViewSync
  import opened ViewBatch

  class Repo {
    const redisUp: bool
    var redis: Redis
    var rows: map<VideoId, int>    // videos.views
    ghost var visits: seq<Visit>   // all visits since Redis was empty

    /**
     * Dedup keys and buckets are those of the visits so far (counters also change by syncing), and every member of a
     * bucket has been viewed.
     */
    ghost predicate Valid()
      reads this
    {
      && redis.dedup == Views.Run(visits).dedup && redis.buckets == Views.Run(visits).buckets
      && forall d, v :: d in redis.buckets && v in redis.buckets[d].scores ==> redis.buckets[d].scores[v] > 0
    }

    constructor (redisUp: bool, rows: map<VideoId, int>)
      ensures Valid() && this.redisUp == redisUp && this.rows == rows && redis == EMPTY && visits == []
    {
      this.redisUp, this.rows, redis := redisUp, rows, EMPTY;
      visits := [];
    }

    /** `RecordView`, and its fallback to the database when there is no Redis. */
    method RecordView(viewer: Viewer, now: int) returns (recorded: bool, views: int)
      requires Valid()
      modifies this
      ensures Valid()
      ensures redisUp ==>
        && recorded == IsNew(old(redis), Visit(now, viewer))
        && redis == Views.Step(old(redis), Visit(now, viewer))
        && views == Get(redis.counters, viewer.video) && rows == old(rows)
        && visits == old(visits) + [Visit(now, viewer)]
        && redis.counters ==
           (if recorded then old(redis.counters)[viewer.video := Get(old(redis.counters), viewer.video) + 1]
            else old(redis.counters))
        && (Ordered(old(visits)) ==>
              (recorded <==> forall x :: x in Recorded(old(visits)) && x.viewer == viewer ==> x.at + 60_000 <= now))
      ensures !redisUp ==>
        && recorded && views == 1 && redis == old(redis) && visits == old(visits)
        && rows == AddAll(old(rows), map[viewer.video := 1])
    {
      var v := viewer.video;
      if !redisUp {
        if v in rows {
          rows := rows[v := rows[v] + 1];
        }
        return true, 1;
      }
      OneMoreVisit(visits, redis, Visit(now, viewer));
      NewIffFree(visits, redis, Visit(now, viewer));
      visits := visits + [Visit(now, viewer)];
      if viewer in redis.dedup && now < redis.dedup[viewer] {
        return false, Get(redis.counters, v);
      }
      redis := redis.(dedup := redis.dedup[viewer := now + DEDUP_TTL]);
      redis := redis.(counters := redis.counters[v := Get(redis.counters, v) + 1]);
      var day := DayOf(now);
      var scores := Scores(redis, day, now);
      redis := redis.(buckets := redis.buckets[day := Bucket(scores[v := Get(scores, v) + 1], now + BUCKET_TTL)]);
      return true, redis.counters[v];
    }

    /** `GetPendingViews`: scan every counter, keep the positive ones. */
    method GetPendingViews() returns (pending: map<VideoId, int>)
      ensures redisUp ==> pending == map v | v in redis.counters && redis.counters[v] > 0 :: redis.counters[v]
      ensures !redisUp ==> pending == map[]
    {
      pending := map[];
      if !redisUp {
        return;
      }
      var todo := redis.counters.Keys;
      while todo != {}
        invariant todo <= redis.counters.Keys
        invariant pending == map v | v in redis.counters && v !in todo && redis.counters[v] > 0 :: redis.counters[v]
      {
        var v :| v in todo;
        todo := todo - {v};
        if redis.counters[v] > 0 {
          pending := pending[v := redis.counters[v]];
        }
      }
    }

    /**
     * `SyncBatchViewsToPostgres`. Redis is decremented as the statements run, the rows change only on commit. So when
     * the commit fails, or an UPDATE among `failing` is reached, exactly the videos done so far are taken out of
     * Redis without being credited.
     */
    method SyncBatch(pending: map<VideoId, int>, begins: bool, failing: set<VideoId>, commits: bool)
      returns (ok: bool, ghost order: seq<VideoId>)
      modifies this`redis, this`rows
      ensures ok <==> pending == map[] || (begins && failing !! pending.Keys && commits)
      ensures Once(order, pending) && (forall v :: v in order ==> v !in failing) && (!begins ==> order == [])
      ensures begins && failing !! pending.Keys ==> forall v :: v in pending ==> v in order
      ensures redis.dedup == old(redis.dedup) && redis.buckets == old(redis.buckets)
      ensures redis.counters == Left(redisUp, old(redis.counters), pending, order)
      ensures rows == if ok then AddAll(old(rows), pending) else old(rows)
    {
      order := [];
      BatchStarts(redis.counters, rows, pending, order);
      if pending == map[] {
        assert rows == AddAll(rows, pending);
        return true, order;
      }
      if !begins {
        return false, order;
      }
      hide Once, Opened, Subtracted, AddAll;
      var tx;
      ok, tx, order := Statements(pending, failing);
      ok := ok && commits;
      if ok {
        OpenedAll(rows, pending, order);
        rows := AddAll(rows, tx);
      }
    }

    /** The loop of the batch, up to its end or to a failing UPDATE. */
    method Statements(pending: map<VideoId, int>, failing: set<VideoId>)
      returns (all: bool, tx: map<VideoId, int>, ghost order: seq<VideoId>)
      modifies this`redis
      ensures all <==> forall v :: v in pending ==> v !in failing
      ensures Once(order, pending) && (forall v :: v in order ==> v !in failing)
      ensures all ==> forall v :: v in pending ==> v in order
      ensures tx == Opened(rows, pending, order)
      ensures redis == old(redis).(counters := Left(redisUp, old(redis.counters), pending, order))
    {
      order := [];
      BatchStarts(redis.counters, rows, pending, order);
      hide Once, Opened, Subtracted, Left;
      tx := map[];
      var todo := pending.Keys;
      while todo != {}
        invariant Once(order, pending)
        invariant forall v :: v in pending <==> v in order || v in todo
        invariant forall v :: v in todo ==> v !in order
        invariant forall v :: v in order ==> v !in failing
        invariant tx == Opened(rows, pending, order)
        invariant redis == old(redis).(counters := Left(redisUp, old(redis.counters), pending, order))
        decreases |todo|
      {
        var v :| v in todo;
        if v in failing {
          return false, tx, order;
        }
        todo := todo - {v};
        tx, order := UpdateOne(v, pending, tx, order, old(redis.counters));
      }
      all := true;
    }

    /** UPDATE in the open transaction, then DECRBY. */
    method UpdateOne(v: VideoId, pending: map<VideoId, int>, tx: map<VideoId, int>, ghost order: seq<VideoId>,
                     ghost start: map<VideoId, int>)
      returns (open: map<VideoId, int>, ghost longer: seq<VideoId>)
      requires Once(order, pending) && v in pending && v !in order && tx == Opened(rows, pending, order)
      requires redis.counters == Left(redisUp, start, pending, order)
      modifies this`redis
      ensures Once(longer, pending) && forall x :: x in longer <==> x in order || x == v
      ensures open == Opened(rows, pending, longer)
      ensures redis == old(redis).(counters := Left(redisUp, start, pending, longer))
    {
      hide Once, Opened, Subtracted;
      StatementDone(start, rows, pending, order, v);
      open, longer := tx, order + [v];
      if v in rows {
        open := open[v := pending[v]];
      }
      if redisUp {
        redis := redis.(counters := Add(redis.counters, v, -pending[v]));
      }
    }

    /** The sums of the last `days` buckets, or today's bucket itself when only one day is asked for. */
    method TrendingScores(now: int, days: nat) returns (scores: map<VideoId, int>)
      requires Valid() && days > 0
      ensures forall v :: Get(scores, v) == UnionScore(redis, now, days, v)
      ensures forall v :: v in scores ==> scores[v] > 0
    {
      if days == 1 {
        scores := Scores(redis, DayOf(now), now);
        forall v ensures Get(scores, v) == UnionScore(redis, now, days, v) {
          OneDayPath(redis, now, v);
        }
        return;
      }
      scores := map[];
      for i := 0 to days
        invariant forall v :: Get(scores, v) == UnionScore(redis, now, i, v)
        invariant forall v :: v in scores ==> scores[v] > 0
      {
        var bucket := Scores(redis, DayOf(now) - i, now);
        scores := Plus(scores, bucket);
      }
    }

    /**
     * `GetTrendingVideoIDs`: the highest scores first, equal ones in reverse order of the ids, at most `limit` of
     * them. Up to nine days back the scores are the views counted in the last `days` days.
     */
    method GetTrendingVideoIDs(now: int, days: int, limit: int) returns (ids: seq<VideoId>)
      requires Valid()
      ensures !redisUp || days <= 0 || limit <= 0 ==> ids == []
      ensures redisUp && days > 0 && limit > 0 ==>
        exists scores :: ScoresAre(scores, redis, now, days) && IsTop(scores, limit, ids)
      ensures redisUp && 0 < days <= BUCKET_DAYS && limit > 0 ==>
        exists scores :: CountsAre(scores, visits, now, days) && IsTop(scores, limit, ids)
    {
      ids := [];
      if !redisUp || days <= 0 || limit <= 0 {
        return;
      }
      hide UnionScore, IsTop;
      var scores := TrendingScores(now, days);
      ids := Highest(scores, limit);
      assert ScoresAre(scores, redis, now, days);
      if days <= BUCKET_DAYS {
        ScoresAreCounts(scores, visits, redis, now, days);
      }
    }
  }

  lemma NewIffFree(visits: seq<Visit>, redis: Redis, visit: Visit)
    requires redis.dedup == Views.Run(visits).dedup
    ensures Ordered(visits) ==>
      (IsNew(redis, visit) <==>
         forall x :: x in Recorded(visits) && x.viewer == visit.viewer ==> x.at + 60_000 <= visit.at)
  {
    if Ordered(visits) {
      CountedIff(visits, visit);
    }
  }

  lemma OneMoreVisit(visits: seq<Visit>, redis: Redis, visit: Visit)
    requires redis.dedup == Views.Run(visits).dedup && redis.buckets == Views.Run(visits).buckets
    ensures var r, t := Views.Run(visits + [visit]), Views.Step(redis, visit);
      t.dedup == r.dedup && t.buckets == r.buckets
  {
    assert (visits + [visit])[..|visits|] == visits;
  }

  /** `scores` holds exactly the videos counted on the last `days` days, with the number of their counted views. */
  ghost predicate CountsAre(scores: map<VideoId, int>, visits: seq<Visit>, now: int, days: nat) {
    && (forall v :: v in scores ==> scores[v] > 0)
    && forall v :: Get(scores, v) == CountDays(Recorded(visits), v, DayOf(now), days)
  }

  lemma ScoresAreCounts(scores: map<VideoId, int>, visits: seq<Visit>, redis: Redis, now: int, days: nat)
    requires ScoresAre(scores, redis, now, days) && days <= BUCKET_DAYS && redis.buckets == Views.Run(visits).buckets
    ensures CountsAre(scores, visits, now, days)
  {
    forall v ensures Get(scores, v) == CountDays(Recorded(visits), v, DayOf(now), days) {
      SameBuckets(redis, Views.Run(visits), now, days, v);
      TrendingWindowExact(visits, now, days, v);
    }
  }

  lemma {:induction false} SameBuckets(a: Redis, b: Redis, now: int, k: nat, v: VideoId)
    requires a.buckets == b.buckets
    ensures UnionScore(a, now, k, v) == UnionScore(b, now, k, v)
  {
    if k > 0 {
      SameBuckets(a, b, now, k - 1, v);
    }
  }

  /** `scores` holds exactly the videos with a positive union score, under that score. */
  ghost predicate ScoresAre(scores: map<VideoId, int>, redis: Redis, now: int, days: nat) {
    && (forall v :: v in scores ==> scores[v] > 0)
    && forall v :: Get(scores, v) == UnionScore(redis, now, days, v)
  }

  /** Lexicographic order of members. */
  predicate Less(a: VideoId, b: VideoId) {
    b != [] && (a == [] || a[0] < b[0] || (a[0] == b[0] && Less(a[1..], b[1..])))
  }

  /** The order of a sorted set from its high end: by score, then by member, both descending. */
  predicate Ranks(scores: map<VideoId, int>, a: VideoId, b: VideoId)
    requires a in scores && b in scores
  {
    scores[a] > scores[b] || (scores[a] == scores[b] && Less(b, a))
  }

  lemma {:induction false} LessTotal(a: VideoId, b: VideoId)
    ensures a == b || Less(a, b) || Less(b, a)
    ensures !(Less(a, b) && Less(b, a)) && !Less(a, a)
  {
    if a != [] && b != [] {
      LessTotal(a[1..], b[1..]);
      assert a == [a[0]] + a[1..] && b == [b[0]] + b[1..];
    }
    if a != [] {
      LessTotal(a[1..], a[1..]);
    }
  }

  lemma {:induction false} LessTransitive(a: VideoId, b: VideoId, c: VideoId)
    requires Less(a, b) && Less(b, c)
    ensures Less(a, c)
  {
    if a != [] && a[0] == b[0] == c[0] {
      LessTransitive(a[1..], b[1..], c[1..]);
    }
  }

  /** `ids` are the first members of a sorted set, from its high end, at most `limit` of them. */
  predicate IsTop(scores: map<VideoId, int>, limit: nat, ids: seq<VideoId>) {
    && |ids| <= limit
    && (forall i :: 0 <= i < |ids| ==> ids[i] in scores)
    && (forall i, j :: 0 <= i < j < |ids| ==> Ranks(scores, ids[i], ids[j]))
    && (forall v, i :: v in scores && v !in ids && 0 <= i < |ids| ==> Ranks(scores, ids[i], v))
    && (|ids| < limit ==> forall v :: v in scores ==> v in ids)
  }

  lemma RanksOneWay(scores: map<VideoId, int>, a: VideoId, b: VideoId)
    requires a in scores && b in scores && Ranks(scores, a, b)
    ensures a != b && !Ranks(scores, b, a)
  {
    LessTotal(a, b);
  }

  /** What comes after position `n`, or nowhere, ranks below the member at `n`. */
  lemma RanksBelow(scores: map<VideoId, int>, limit: nat, ids: seq<VideoId>, n: nat, v: VideoId)
    requires IsTop(scores, limit, ids) && n < |ids| && v in scores && v !in ids[..n] && v != ids[n]
    ensures Ranks(scores, ids[n], v)
  {
    if v in ids {
      var j :| 0 <= j < |ids| && ids[j] == v;
      assert j >= n;
    }
  }

  lemma {:induction false} TopPrefix(scores: map<VideoId, int>, limit: nat, a: seq<VideoId>, b: seq<VideoId>, n: nat)
    requires IsTop(scores, limit, a) && IsTop(scores, limit, b) && n <= |a| && n <= |b|
    ensures a[..n] == b[..n]
  {
    hide Ranks;
    if n > 0 {
      var m := n - 1;
      TopPrefix(scores, limit, a, b, m);
      NotBefore(scores, limit, a, m);
      NotBefore(scores, limit, b, m);
      if a[m] != b[m] {
        RanksBelow(scores, limit, a, m, b[m]);
        RanksOneWay(scores, a[m], b[m]);
        RanksBelow(scores, limit, b, m, a[m]);
      }
    }
  }

  lemma NotBefore(scores: map<VideoId, int>, limit: nat, ids: seq<VideoId>, n: nat)
    requires IsTop(scores, limit, ids) && n < |ids|
    ensures ids[n] !in ids[..n]
  {
    hide Ranks;
    if ids[n] in ids[..n] {
      var j :| 0 <= j < n && ids[j] == ids[n];
      RanksOneWay(scores, ids[j], ids[n]);
    }
  }

  /** The listing is determined by the scores. */
  lemma TopUnique(scores: map<VideoId, int>, limit: nat, a: seq<VideoId>, b: seq<VideoId>)
    requires IsTop(scores, limit, a) && IsTop(scores, limit, b) && |a| <= |b|
    ensures a == b
  {
    hide Ranks;
    TopPrefix(scores, limit, a, b, |a|);
    assert b[..|a|] == a;
    if |a| < |b| {
      NotBefore(scores, limit, b, |a|);
    }
  }

  /** ZREVRANGE. */
  method Highest(scores: map<VideoId, int>, limit: nat) returns (ids: seq<VideoId>)
    ensures IsTop(scores, limit, ids)
  {
    hide Ranks;
    ids := [];
    var left := scores.Keys;
    while left != {} && |ids| < limit
      invariant |ids| <= limit
      invariant forall v :: v in left <==> v in scores && v !in ids
      invariant forall i :: 0 <= i < |ids| ==> ids[i] in scores
      invariant forall i, j :: 0 <= i < j < |ids| ==> Ranks(scores, ids[i], ids[j])
      invariant forall v, i :: v in left && 0 <= i < |ids| ==> Ranks(scores, ids[i], v)
      decreases |left|
    {
      var best := Best(scores, left);
      ids := ids + [best];
      left := left - {best};
    }
  }

  /** The member that ranks above all others of `among`. */
  method Best(scores: map<VideoId, int>, among: set<VideoId>) returns (best: VideoId)
    requires among != {} && among <= scores.Keys
    ensures best in among && forall v :: v in among && v != best ==> Ranks(scores, best, v)
  {
    best :| best in among;
    var todo := among - {best};
    while todo != {}
      invariant best in among && todo <= among
      invariant forall v :: v in among && v !in todo && v != best ==> Ranks(scores, best, v)
    {
      var v :| v in todo;
      todo := todo - {v};
      LessTotal(v, best);
      if Ranks(scores, v, best) {
        forall u | u in among && u !in todo && u != v && u != best ensures Ranks(scores, v, u) {
          if Less(u, best) && Less(best, v) {
            LessTransitive(u, best, v);
          }
        }
        best := v;
      }
    }
  }
}
