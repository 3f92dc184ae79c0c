/**
 * The Redis side of internal/repo/persistent/view/view.go: sixty-second deduplication, pending counters and daily
 * trending buckets. Times are in milliseconds.
 */
module Views {

  type VideoId = string

  const DEDUP_TTL: int := 60_000
  const DAY: int := 86_400_000
  const BUCKET_DAYS: int := 9
  const BUCKET_TTL: int := BUCKET_DAYS * DAY

  /** The key of one viewer of one video: `view_dedup:<video>:<fingerprint>`. */
  datatype Viewer = Viewer(video: VideoId, fingerprint: string)

  /** A daily sorted set and the time at which Redis drops it. */
  datatype Bucket = Bucket(scores: map<VideoId, int>, expiresAt: int)

  datatype Redis = Redis(dedup: map<Viewer, int>, counters: map<VideoId, int>, buckets: map<int, Bucket>)

  const EMPTY := Redis(map[], map[], map[])

  datatype Visit = Visit(at: int, viewer: Viewer)

  function Get(m: map<VideoId, int>, v: VideoId): int {
    if v in m then m[v] else 0
  }

  function DayOf(at: int): int {
    at / DAY
  }

  /** Whether `SETNX` succeeds: the viewer has no unexpired dedup key. */
  predicate IsNew(r: Redis, visit: Visit) {
    visit.viewer in r.dedup ==> r.dedup[visit.viewer] <= visit.at
  }

  /** The scores of a daily bucket as a reader sees them; an expired bucket reads as missing. */
  function Scores(r: Redis, day: int, now: int): map<VideoId, int> {
    if day in r.buckets && now < r.buckets[day].expiresAt then r.buckets[day].scores else map[]
  }

  /** `RecordView` of a new view: dedup key, counter, and today's bucket with a fresh TTL. */
  function Record(r: Redis, visit: Visit): Redis {
    var v, day := visit.viewer.video, DayOf(visit.at);
    var scores := Scores(r, day, visit.at);
    Redis(r.dedup[visit.viewer := visit.at + DEDUP_TTL],
          r.counters[v := Get(r.counters, v) + 1],
          r.buckets[day := Bucket(scores[v := Get(scores, v) + 1], visit.at + BUCKET_TTL)])
  }

  function Step(r: Redis, visit: Visit): Redis {
    if IsNew(r, visit) then Record(r, visit) else r
  }

  function Run(visits: seq<Visit>): Redis {
    if visits == [] then EMPTY else Step(Run(visits[..|visits| - 1]), visits[|visits| - 1])
  }

  /** The visits that were counted, in order. */
  function Recorded(visits: seq<Visit>): seq<Visit> {
    if visits == [] then []
    else
      var init, last := visits[..|visits| - 1], visits[|visits| - 1];
      Recorded(init) + if IsNew(Run(init), last) then [last] else []
  }

  predicate Ordered(visits: seq<Visit>) {
    forall i, j :: 0 <= i < j < |visits| ==> visits[i].at <= visits[j].at
  }

  lemma OrderedInit(visits: seq<Visit>)
    requires Ordered(visits) && visits != []
    ensures Ordered(visits[..|visits| - 1])
  {
  }

  lemma {:induction false} RecordedAreVisits(visits: seq<Visit>)
    ensures forall v :: v in Recorded(visits) ==> v in visits
  {
    if visits != [] {
      RecordedAreVisits(visits[..|visits| - 1]);
    }
  }

  // ---------------------------------------------------------------- deduplication

  /** A viewer's dedup key outlives every view counted for it by sixty seconds. */
  lemma {:induction false} DedupCovers(visits: seq<Visit>)
    requires Ordered(visits)
    ensures forall x :: x in Recorded(visits) ==>
      x.viewer in Run(visits).dedup && x.at + DEDUP_TTL <= Run(visits).dedup[x.viewer]
  {
    if visits != [] {
      var init, last := visits[..|visits| - 1], visits[|visits| - 1];
      OrderedInit(visits);
      DedupCovers(init);
      RecordedAreVisits(init);
      forall x | x in Recorded(visits)
        ensures x.viewer in Run(visits).dedup && x.at + DEDUP_TTL <= Run(visits).dedup[x.viewer]
      {
        if x in Recorded(init) {
          assert x in init;
          var i :| 0 <= i < |init| && init[i] == x;
          assert x == visits[i] && x.at <= last.at;
        }
      }
    }
  }

  /** A dedup key was left by a counted view and lives for sixty seconds after it. */
  lemma {:induction false} DedupIsLastCounted(visits: seq<Visit>, viewer: Viewer)
    ensures viewer in Run(visits).dedup ==>
      exists x :: x in Recorded(visits) && x.viewer == viewer && Run(visits).dedup[viewer] == x.at + DEDUP_TTL
  {
    if visits != [] {
      var init, last := visits[..|visits| - 1], visits[|visits| - 1];
      DedupIsLastCounted(init, viewer);
      if viewer in Run(init).dedup {
        var x :| x in Recorded(init) && x.viewer == viewer && Run(init).dedup[viewer] == x.at + DEDUP_TTL;
        assert x in Recorded(visits);
      }
      assert IsNew(Run(init), last) ==> last in Recorded(visits);
    }
  }

  /**
   * Every run: a visit is counted exactly when every counted view of the same viewer is at least a minute, 60,000 ms,
   * before it; otherwise the counted views stay as they were.
   */
  lemma CountedIff(init: seq<Visit>, last: Visit)
    requires Ordered(init)
    ensures var free := forall x :: x in Recorded(init) && x.viewer == last.viewer ==> x.at + 60_000 <= last.at;
      && (IsNew(Run(init), last) <==> free)
      && Recorded(init + [last]) == if free then Recorded(init) + [last] else Recorded(init)
  {
    hide Recorded;
    DedupCovers(init);
    DedupIsLastCounted(init, last.viewer);
    RecordedNext(init, last);
  }

  lemma RecordedNext(init: seq<Visit>, last: Visit)
    ensures Recorded(init + [last]) == Recorded(init) + if IsNew(Run(init), last) then [last] else []
  {
    assert (init + [last])[..|init|] == init;
  }

  /** How many counted views a video has. */
  function CountAll(xs: seq<Visit>, v: VideoId): nat {
    if xs == [] then 0 else CountAll(xs[..|xs| - 1], v) + if xs[|xs| - 1].viewer.video == v then 1 else 0
  }

  /** Every run: the pending counter of a video is the number of its counted views. */
  lemma {:induction false} CountersExact(visits: seq<Visit>, v: VideoId)
    ensures Get(Run(visits).counters, v) == CountAll(Recorded(visits), v)
  {
    if visits != [] {
      var init, last := visits[..|visits| - 1], visits[|visits| - 1];
      var xs := Recorded(init);
      CountersExact(init, v);
      assert (xs + [last])[..|xs|] == xs;
      assert xs + [] == xs;
    }
  }

  /** Days are those of UTC, 86,400,000 ms each. */
  lemma DayIs(at: int)
    ensures DayOf(at) * 86_400_000 <= at < (DayOf(at) + 1) * 86_400_000
  {
  }

  predicate Spaced(xs: seq<Visit>, viewer: Viewer) {
    forall i, j :: 0 <= i < j < |xs| && xs[i].viewer == viewer == xs[j].viewer ==> xs[i].at + DEDUP_TTL <= xs[j].at
  }

  /** In every run, two counted views of one viewer are at least sixty seconds apart. */
  lemma {:induction false} RecordedViewsAreSpaced(visits: seq<Visit>, viewer: Viewer)
    requires Ordered(visits)
    ensures Spaced(Recorded(visits), viewer)
  {
    if visits != [] {
      var init, last := visits[..|visits| - 1], visits[|visits| - 1];
      OrderedInit(visits);
      RecordedViewsAreSpaced(init, viewer);
      DedupCovers(init);
      var xs := Recorded(init);
      assert forall i :: 0 <= i < |xs| ==> xs[i] in xs;
    }
  }

  /** The counted views of `viewer` in the closed window from `lo` to `hi`. */
  function InWindow(xs: seq<Visit>, viewer: Viewer, lo: int, hi: int): seq<Visit> {
    if xs == [] then []
    else InWindow(xs[..|xs| - 1], viewer, lo, hi) +
         var x := xs[|xs| - 1]; if x.viewer == viewer && lo <= x.at <= hi then [x] else []
  }

  lemma {:induction false} WindowSpaced(xs: seq<Visit>, viewer: Viewer, lo: int, hi: int)
    requires Spaced(xs, viewer)
    ensures var w := InWindow(xs, viewer, lo, hi);
      && Spaced(w, viewer)
      && (forall i :: 0 <= i < |w| ==> w[i] in xs && w[i].viewer == viewer && lo <= w[i].at <= hi)
  {
    if xs != [] {
      var init, x := xs[..|xs| - 1], xs[|xs| - 1];
      WindowSpaced(init, viewer, lo, hi);
      var v := InWindow(init, viewer, lo, hi);
      forall i | 0 <= i < |v| && x.viewer == viewer ensures v[i].at + DEDUP_TTL <= x.at {
        var m :| 0 <= m < |init| && init[m] == v[i];
        assert xs[m] == v[i];
      }
    }
  }

  lemma {:induction false} SpacedSpan(w: seq<Visit>, viewer: Viewer)
    requires Spaced(w, viewer) && w != []
    requires forall i :: 0 <= i < |w| ==> w[i].viewer == viewer
    ensures w[0].at + (|w| - 1) * DEDUP_TTL <= w[|w| - 1].at
  {
    if |w| > 1 {
      SpacedSpan(w[..|w| - 1], viewer);
    }
  }

  /** A closed window of `t` milliseconds holds at most floor(t / 60 s) + 1 counted views of one viewer. */
  lemma WindowBound(visits: seq<Visit>, viewer: Viewer, lo: int, t: nat)
    requires Ordered(visits)
    ensures |InWindow(Recorded(visits), viewer, lo, lo + t)| <= t / DEDUP_TTL + 1
  {
    RecordedViewsAreSpaced(visits, viewer);
    WindowSpaced(Recorded(visits), viewer, lo, lo + t);
    var w := InWindow(Recorded(visits), viewer, lo, lo + t);
    if w != [] {
      SpacedSpan(w, viewer);
      assert (|w| - 1) * DEDUP_TTL <= t;
    }
  }

  // ---------------------------------------------------------------- trending windows

  /** Counted views of `v` on the days after `day - k` up to `day`. */
  function CountDays(xs: seq<Visit>, v: VideoId, day: int, k: nat): nat {
    if xs == [] then 0
    else
      var x := xs[|xs| - 1];
      CountDays(xs[..|xs| - 1], v, day, k)
      + if x.viewer.video == v && day - k < DayOf(x.at) <= day then 1 else 0
  }

  /** The score of `v` in the union of the last `k` daily buckets, as `ZUNIONSTORE` adds them up. */
  function UnionScore(r: Redis, now: int, k: nat, v: VideoId): int {
    if k == 0 then 0
    else UnionScore(r, now, k - 1, v) + Get(Scores(r, DayOf(now) - (k - 1), now), v)
  }

  /** Buckets hold the counts of their day and outlive it by eight days. */
  ghost predicate BucketsExact(visits: seq<Visit>) {
    var r := Run(visits);
    && (forall d :: d in r.buckets ==> d * DAY + BUCKET_TTL <= r.buckets[d].expiresAt)
    && (forall d, v :: Get(RawScores(r, d), v) == CountDays(Recorded(visits), v, d, 1))
  }

  function RawScores(r: Redis, d: int): map<VideoId, int> {
    if d in r.buckets then r.buckets[d].scores else map[]
  }

  lemma DayBounds(at: int)
    ensures DayOf(at) * DAY <= at < (DayOf(at) + 1) * DAY
  {
  }

  lemma {:induction false} RunKeepsBuckets(visits: seq<Visit>)
    ensures BucketsExact(visits)
  {
    if visits != [] {
      var init, last := visits[..|visits| - 1], visits[|visits| - 1];
      RunKeepsBuckets(init);
      if IsNew(Run(init), last) {
        RecordKeepsBuckets(init, last);
        assert init + [last] == visits;
      } else {
        assert Recorded(visits) == Recorded(init);
      }
    }
  }

  lemma RecordKeepsBuckets(init: seq<Visit>, last: Visit)
    requires BucketsExact(init) && IsNew(Run(init), last)
    ensures BucketsExact(init + [last])
  {
    hide CountDays, Recorded, DayOf;
    var visits := init + [last];
    assert visits[..|visits| - 1] == init && visits[|visits| - 1] == last;
    var r, r', xs := Run(init), Run(visits), Recorded(init);
    assert r' == Record(r, last);
    RecordedGrows(init, last);
    RecordBuckets(r, last);
    forall d, v ensures Get(RawScores(r', d), v) == CountDays(Recorded(visits), v, d, 1) {
      CountOneMore(xs, last, v, d, 1);
      assert Get(RawScores(r, d), v) == CountDays(xs, v, d, 1);
    }
  }

  lemma RecordedGrows(init: seq<Visit>, last: Visit)
    requires IsNew(Run(init), last)
    ensures Recorded(init + [last]) == Recorded(init) + [last]
  {
    assert (init + [last])[..|init|] == init;
  }

  /** A new view adds one to its video in the bucket of its day, and to nothing else, and extends the bucket. */
  lemma RecordBuckets(r: Redis, last: Visit)
    requires forall d :: d in r.buckets ==> d * DAY + BUCKET_TTL <= r.buckets[d].expiresAt
    ensures var r' := Record(r, last);
      && (forall d :: d in r'.buckets ==> d * DAY + BUCKET_TTL <= r'.buckets[d].expiresAt)
      && (forall d, v :: Get(RawScores(r', d), v) ==
                         Get(RawScores(r, d), v) + if d == DayOf(last.at) && v == last.viewer.video then 1 else 0)
  {
    var day := DayOf(last.at);
    DayBounds(last.at);
    assert Scores(r, day, last.at) == RawScores(r, day);
  }

  lemma CountOneMore(xs: seq<Visit>, x: Visit, v: VideoId, day: int, k: nat)
    ensures CountDays(xs + [x], v, day, k)
         == CountDays(xs, v, day, k) + if x.viewer.video == v && day - k < DayOf(x.at) <= day then 1 else 0
  {
    assert (xs + [x])[..|xs|] == xs;
  }

  lemma {:induction false} CountOneDayMore(xs: seq<Visit>, v: VideoId, day: int, k: nat)
    ensures CountDays(xs, v, day, k + 1) == CountDays(xs, v, day, k) + CountDays(xs, v, day - k, 1)
  {
    hide DayOf;
    if xs != [] {
      CountOneDayMore(xs[..|xs| - 1], v, day, k);
    }
  }

  /** No bucket of the last nine days has expired. */
  lemma RecentBucketAlive(visits: seq<Visit>, now: int, k: nat)
    requires BucketsExact(visits) && k < BUCKET_DAYS
    ensures Scores(Run(visits), DayOf(now) - k, now) == RawScores(Run(visits), DayOf(now) - k)
  {
    DayBounds(now);
  }

  /**
   * In every run, the union over the last `k <= 9` days scores each video by exactly its counted views of those
   * days.
   */
  lemma {:induction false} TrendingWindowExact(visits: seq<Visit>, now: int, k: nat, v: VideoId)
    requires k <= BUCKET_DAYS
    ensures UnionScore(Run(visits), now, k, v) == CountDays(Recorded(visits), v, DayOf(now), k)
  {
    if k == 0 {
      NoDays(Recorded(visits), v, DayOf(now));
    } else {
      TrendingWindowExact(visits, now, k - 1, v);
      RunKeepsBuckets(visits);
      RecentBucketAlive(visits, now, k - 1);
      CountOneDayMore(Recorded(visits), v, DayOf(now), k - 1);
    }
  }

  lemma {:induction false} NoDays(xs: seq<Visit>, v: VideoId, day: int)
    ensures CountDays(xs, v, day, 0) == 0
  {
    if xs != [] {
      NoDays(xs[..|xs| - 1], v, day);
    }
  }

  /** More than nine days are too many: a view at the start of day 0 is gone when day 9 starts. */
  lemma TenDaysTooMany(viewer: Viewer, k: nat)
    requires k > BUCKET_DAYS
    ensures var visits := [Visit(0, viewer)];
      && Ordered(visits)
      && CountDays(Recorded(visits), viewer.video, DayOf(BUCKET_TTL), k) == 1
      && UnionScore(Run(visits), BUCKET_TTL, k, viewer.video) == 0
  {
    var visit := Visit(0, viewer);
    var visits := [visit];
    assert visits[..0] == [];
    assert Run(visits[..0]) == EMPTY;
    assert Run(visits) == Record(EMPTY, visit);
    assert Recorded(visits[..0]) == [];
    assert Recorded(visits) == [visit];
    assert CountDays([visit][..0], viewer.video, DayOf(BUCKET_TTL), k) == 0;
    assert Run(visits).buckets.Keys == {0};
    NothingLeft(Run(visits), BUCKET_TTL, k, viewer.video);
  }

  /** In every run and at every time, the union over the last `k` days counts the views of those days. */
  ghost predicate WindowIsExact(k: nat) {
    forall visits, now, v :: Ordered(visits) ==>
      UnionScore(Run(visits), now, k, v) == CountDays(Recorded(visits), v, DayOf(now), k)
  }

  /** Trending windows are exact up to nine days and no further. */
  lemma WindowExactIff(k: nat)
    ensures WindowIsExact(k) <==> k <= BUCKET_DAYS
  {
    if k <= BUCKET_DAYS {
      forall visits, now, v
        ensures UnionScore(Run(visits), now, k, v) == CountDays(Recorded(visits), v, DayOf(now), k)
      {
        TrendingWindowExact(visits, now, k, v);
      }
    } else {
      var viewer := Viewer("v", "f");
      TenDaysTooMany(viewer, k);
      assert Ordered([Visit(0, viewer)]);
    }
  }

  lemma {:induction false} NothingLeft(r: Redis, now: int, k: nat, v: VideoId)
    requires forall d :: d in r.buckets ==> r.buckets[d].expiresAt <= now
    ensures UnionScore(r, now, k, v) == 0
  {
    if k > 0 {
      NothingLeft(r, now, k - 1, v);
    }
  }

  /** The one-day path reads the bucket that a union of one bucket would copy. */
  lemma OneDayPath(r: Redis, now: int, v: VideoId)
    ensures UnionScore(r, now, 1, v) == Get(Scores(r, DayOf(now), now), v)
  {
    assert UnionScore(r, now, 0, v) == 0;
  }
}
