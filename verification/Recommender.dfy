/** The recommendation use case: training passes that publish a model, and the feed ranked with it. */
module Recommender {
  import opened Wrappers
  import opened Factorization
  import opened Trainer
  import opened Pages
  import Ranking

  type Video = Ranking.Video

  const CATEGORY_BOOST := 1_000_000.0

  // ---------------------------------------------------------------- scores

  datatype Rec = Rec(video: Video, score: real)

  /** Who is asking: preferred categories, and the user's vector in the published model if it has one. */
  datatype Viewer = Viewer(preferred: set<string>, factors: Option<Vec>)

  /** The model a feed is ranked with: none, or the published video vectors. */
  type Model = Option<map<string, Vec>>

  function Score(model: Model, who: Viewer, v: Video): real {
    match model
    case None => if v.category in who.preferred then 1.0 + CATEGORY_BOOST else 1.0
    case Some(videos) =>
      v.views as real * 0.1 +
      match who.factors
      case Some(p) => if v.id in videos && |videos[v.id]| == |p| then Dot(p, videos[v.id]) else 0.0
      case None => if v.category in who.preferred then CATEGORY_BOOST else 0.0
  }

  function Scored(model: Model, who: Viewer, videos: seq<Video>): (recs: seq<Rec>)
    ensures |recs| == |videos|
    ensures forall i :: 0 <= i < |videos| ==> recs[i] == Rec(videos[i], Score(model, who, videos[i]))
  {
    if videos == [] then []
    else
      var n := |videos| - 1;
      Scored(model, who, videos[..n]) + [Rec(videos[n], Score(model, who, videos[n]))]
  }

  predicate Descending(recs: seq<Rec>) {
    forall i, j :: 0 <= i < j < |recs| ==> recs[i].score >= recs[j].score
  }

  /** A list `sort.Slice` may produce: it is not stable, so equal scores come in any order. */
  ghost predicate IsRanking(model: Model, who: Viewer, videos: seq<Video>, all: seq<Rec>) {
    multiset(all) == multiset(Scored(model, who, videos)) && Descending(all)
  }

  // ---------------------------------------------------------------- sorting

  method Insert(recs: seq<Rec>, r: Rec) returns (out: seq<Rec>)
    requires Descending(recs)
    ensures Descending(out) && multiset(out) == multiset(recs) + multiset{r}
  {
    var i := 0;
    while i < |recs| && recs[i].score >= r.score
      invariant i <= |recs| && forall j :: 0 <= j < i ==> recs[j].score >= r.score
    {
      i := i + 1;
    }
    out := recs[..i] + [r] + recs[i..];
    assert recs == recs[..i] + recs[i..];
  }

  /** Stands for `sort.Slice` by descending score; callers know only that the result is a sorted permutation. */
  method SortByScore(recs: seq<Rec>) returns (sorted: seq<Rec>)
    ensures Descending(sorted) && multiset(sorted) == multiset(recs)
  {
    sorted := [];
    for n := 0 to |recs|
      invariant Descending(sorted) && multiset(sorted) == multiset(recs[..n])
    {
      assert recs[..n + 1] == recs[..n] + [recs[n]];
      sorted := Insert(sorted, recs[n]);
    }
    assert recs[..|recs|] == recs;
  }

  // ---------------------------------------------------------------- training passes and what they publish

  datatype Outcome = FetchFailed | NoInteractions | Diverged | Trained(xs: seq<Interaction>)

  /** The interactions of the pass whose model is being served, if any. */
  function Serving(passes: seq<Outcome>): Option<seq<Interaction>> {
    if passes == [] then None
    else
      match passes[|passes| - 1]
      case Trained(xs) => Some(xs)
      case NoInteractions => None
      case _ => Serving(passes[..|passes| - 1])
  }

  /** 0.1 times the growth factor of the service to the number of updates of a pass over `xs`. */
  function PassBound(xs: seq<Interaction>): real {
    Mul(0.1, Power(1.4998, 50 * |xs|))
  }

  lemma ServingStep(passes: seq<Outcome>, o: Outcome)
    ensures Serving(passes + [o]) ==
      match o case Trained(xs) => Some(xs) case NoInteractions => None case _ => Serving(passes)
  {
    assert (passes + [o])[..|passes|] == passes;
  }

  class UseCase {
    const factors: nat
    const gamma: real
    const lambda: real
    const epochs: nat
    var trainedIsEmpty: bool
    var userVec: Option<Table>
    var videoVec: Option<Table>
    ghost var passes: seq<Outcome>

    /**
     * Both vector maps come from the same pass, with exactly its ids as keys, and all vectors have `factors` entries.
     */
    ghost predicate Valid()
      reads this
    {
      && (trainedIsEmpty ==> userVec == None)
      && (userVec.Some? <==> Serving(passes).Some?) && (videoVec.Some? <==> Serving(passes).Some?)
      && (Serving(passes).Some? ==>
            && Separate(userVec.value, videoVec.value, factors)
            && userVec.value.Keys == Users(Serving(passes).value)
            && videoVec.value.Keys == Videos(Serving(passes).value))
    }

    /** No served entry is beyond 0.1 times 1.4998 to the number of updates of its pass. */
    ghost predicate Bounded()
      requires Valid()
      reads this, if userVec.Some? then userVec.value.Values else {}
      reads if videoVec.Some? then videoVec.value.Values else {}
    {
      && gamma == 0.01 && lambda == 0.02 && epochs == 50
      && (Serving(passes).Some? ==> Within(Contents(userVec.value, videoVec.value), PassBound(Serving(passes).value)))
    }

    constructor ()
      ensures Valid() && Bounded() && factors == 10 && gamma == 0.01 && lambda == 0.02 && epochs == 50 && passes == []
    {
      factors, gamma, lambda, epochs := 10, 0.01, 0.02, 50;
      trainedIsEmpty, userVec, videoVec := false, None, None;
      passes := [];
    }

    function TrainingRates(): Rates {
      Rates(gamma, lambda, Some(MAX_SGD_ERROR))
    }

    /** A training pass on fresh matrices. */
    method TrainFresh(xs: seq<Interaction>, drawP: (nat, nat) -> real, drawQ: (nat, nat) -> real)
      returns (users: Table, videos: Table, ghost start: Factors)
      requires gamma == 0.01 && lambda == 0.02 && epochs == 50
      requires forall i, f :: 0.0 <= drawP(i, f) < 1.0
      requires forall i, f :: 0.0 <= drawQ(i, f) < 1.0
      ensures users.Keys == Users(xs) && videos.Keys == Videos(xs)
      ensures fresh(users.Values) && fresh(videos.Values) && Separate(users, videos, factors)
      ensures Shaped(start, factors) && Covers(start, xs) && Within(start, 0.1)
      ensures Contents(users, videos) == Epochs(start, factors, xs, TrainingRates(), epochs)
      ensures Within(Contents(users, videos), PassBound(xs))
    {
      hide Separate, Contents, Within, Shaped, Covers, Epochs, PassBound, Users, Videos;
      users, videos, start := TrainMatrices(xs, factors, TrainingRates(), epochs, drawP, drawQ);
      PublishedWithin(start, factors, xs);
    }

    /**
     * `train`. A failed fetch or a diverged result keeps what is served, with its vectors untouched; an empty fetch
     * withdraws it; otherwise fresh vectors replace it, those of clamped gradient descent from small values. `finite`
     * is the verdict of the float check, which exact numbers always pass.
     */
    method Train(fetched: Option<seq<Interaction>>, finite: bool, drawP: (nat, nat) -> real, drawQ: (nat, nat) -> real)
      returns (ok: bool, ghost start: Factors)
      requires Valid() && Bounded()
      requires forall i, f :: 0.0 <= drawP(i, f) < 1.0
      requires forall i, f :: 0.0 <= drawQ(i, f) < 1.0
      modifies this
      ensures Valid() && Bounded()
      ensures ok <==> fetched.Some? && (fetched.value == [] || finite)
      ensures !ok ==> userVec == old(userVec) && videoVec == old(videoVec) && trainedIsEmpty == old(trainedIsEmpty)
      ensures passes == old(passes) + [if fetched == None then FetchFailed
                                       else if fetched.value == [] then NoInteractions
                                       else if !finite then Diverged
                                       else Trained(fetched.value)]
      ensures ok && fetched.value == [] ==> userVec == None && videoVec == None && trainedIsEmpty
      ensures ok && fetched.value != [] ==> userVec.Some? && videoVec.Some? && !trainedIsEmpty
      ensures ok && fetched.value != [] ==>
        && userVec.value.Keys == Users(fetched.value) && videoVec.value.Keys == Videos(fetched.value)
      ensures ok && fetched.value != [] ==>
        && fresh(userVec.value.Values) && fresh(videoVec.value.Values)
        && Shaped(start, factors) && Covers(start, fetched.value) && Within(start, 0.1)
        && Contents(userVec.value, videoVec.value) == Epochs(start, factors, fetched.value, TrainingRates(), epochs)
    {
      hide Separate, Contents, Within, Shaped, Covers, Epochs, PassBound, Users, Videos, Serving, TrainingRates;
      start := Factors(map[], map[]);
      ServingStep(passes, if fetched == None then FetchFailed else if fetched.value == [] then NoInteractions
                          else if !finite then Diverged else Trained(fetched.value));
      if fetched == None {
        passes := passes + [FetchFailed];
        return false, start;
      }
      if fetched.value == [] {
        userVec, videoVec, trainedIsEmpty := None, None, true;
        passes := passes + [NoInteractions];
        return true, start;
      }
      var users, videos;
      users, videos, start := TrainFresh(fetched.value, drawP, drawQ);
      if !finite {
        passes := passes + [Diverged];
        return false, start;
      }
      userVec, videoVec, trainedIsEmpty := Some(users), Some(videos), false;
      passes := passes + [Trained(fetched.value)];
      return true, start;
    }

    ghost function ServedModel(): Model
      requires Valid()
      reads this, if videoVec.Some? then videoVec.value.Values else {}
    {
      if userVec == None then None else Some(map id | id in videoVec.value :: videoVec.value[id][..])
    }

    ghost function ServedViewer(preferred: set<string>, user: string): Viewer
      requires Valid()
      reads this, if userVec.Some? then userVec.value.Values else {}
    {
      Viewer(preferred, if userVec.Some? && user in userVec.value then Some(userVec.value[user][..]) else None)
    }

    /** The vector of a known user fits every served video vector. */
    lemma ServedFits(preferred: set<string>, user: string)
      requires Valid() && userVec.Some? && user in userVec.value
      ensures ServedModel().Some? && ServedViewer(preferred, user).factors.Some?
      ensures Fits(ServedModel().value, ServedViewer(preferred, user).factors.value)
    {
    }

    /** The score of one video, with the prediction loop over the cached vectors. */
    method ScoreOne(v: Video, preferred: set<string>, user: string) returns (score: real)
      requires Valid()
      ensures score == Score(ServedModel(), ServedViewer(preferred, user), v)
    {
      if trainedIsEmpty || userVec == None {
        score := 1.0;
        if v.category in preferred {
          score := score + CATEGORY_BOOST;
        }
        return;
      }
      score := v.views as real * 0.1;
      if user in userVec.value {
        if v.id in videoVec.value {
          var pred := DotRows(userVec.value[user], videoVec.value[v.id]);
          score := score + pred;
        }
      } else if v.category in preferred {
        score := score + CATEGORY_BOOST;
      }
    }

    lemma EmptyServesNothing()
      requires Valid()
      ensures trainedIsEmpty ==> userVec == None
    {
    }

    /** The scoring loop over the fetched videos. */
    method ScoreAll(videos: seq<Video>, preferred: set<string>, user: string) returns (recs: seq<Rec>)
      requires Valid()
      ensures recs == Scored(ServedModel(), ServedViewer(preferred, user), videos)
    {
      hide Valid, Score, ServedModel, ServedViewer;
      recs := [];
      ghost var model, who := ServedModel(), ServedViewer(preferred, user);
      for n := 0 to |videos|
        invariant recs == Scored(model, who, videos[..n])
      {
        assert videos[..n + 1][..n] == videos[..n];
        var score := ScoreOne(videos[n], preferred, user);
        recs := recs + [Rec(videos[n], score)];
      }
      assert videos[..|videos|] == videos;
    }

    /**
     * `GetPersonalizedFeed`: one page of a ranking of all fetched videos by score. `total` counts the database rows,
     * which the page count uses only while no model is served.
     */
    method GetPersonalizedFeed(videos: seq<Video>, total: nat, preferred: set<string>, user: string, page: int,
                               limit: int)
      returns (items: seq<Rec>, totalItems: nat, totalPages: nat, ghost all: seq<Rec>)
      requires Valid()
      ensures IsRanking(ServedModel(), ServedViewer(preferred, user), videos, all)
      ensures items == Paginate(all, page, limit)
      ensures totalItems == if userVec == None then total else |videos|
      ensures totalPages == TotalPages(totalItems, limit)
    {
      hide Valid, Score, ServedModel, ServedViewer, Paginate, TotalPages;
      var recs := ScoreAll(videos, preferred, user);
      var sorted := SortByScore(recs);
      all := sorted;
      items := Paginate(sorted, page, limit);
      EmptyServesNothing();
      totalItems := if trainedIsEmpty || userVec == None then total else |recs|;
      totalPages := TotalPages(totalItems, limit);
    }
  }

  /**
   * The published entries, with the service's own rates and epochs: within 0.1 times 1.4998 to the number of updates.
   */
  lemma PublishedWithin(start: Factors, k: nat, xs: seq<Interaction>)
    requires Shaped(start, k) && Covers(start, xs) && Within(start, 0.1)
    ensures Within(Epochs(start, k, xs, Rates(0.01, 0.02, Some(MAX_SGD_ERROR)), 50), PassBound(xs))
  {
    hide Within, Epochs, Power, Mul;
    ServiceBound(start, k, xs, 0.01, 0.02, 50);
    assert 1.0 - 0.01 * 0.02 + MAX_SGD_ERROR * 0.01 == 1.4998;
  }

  // ---------------------------------------------------------------- the feed as a permutation

  function VideosOf(recs: seq<Rec>): (vs: seq<Video>)
    ensures |vs| == |recs|
    ensures forall i :: 0 <= i < |recs| ==> vs[i] == recs[i].video
  {
    seq(|recs|, i requires 0 <= i < |recs| => recs[i].video)
  }

  lemma VideosOfJoin(a: seq<Rec>, r: Rec, b: seq<Rec>)
    ensures multiset(VideosOf(a + [r] + b)) == multiset(VideosOf(a + b)) + multiset{r.video}
  {
    hide VideosOf;
    assert VideosOf(a + [r] + b) == VideosOf(a) + [r.video] + VideosOf(b);
    assert VideosOf(a + b) == VideosOf(a) + VideosOf(b);
  }

  lemma Without<T>(a: seq<T>, b: seq<T>, x: T) returns (l: seq<T>, r: seq<T>)
    requires multiset(a + [x]) == multiset(b)
    ensures b == l + [x] + r && multiset(a) == multiset(l + r)
  {
    assert x in multiset(b) by {
      assert (a + [x])[|a|] == x;
    }
    var i :| 0 <= i < |b| && b[i] == x;
    l, r := b[..i], b[i + 1..];
    assert b == l + [x] + r;
    var rest := multiset(l) + multiset(r);
    assert multiset(b) == rest + multiset{x};
    assert multiset(a) + multiset{x} == rest + multiset{x};
    Cancel(multiset(a), rest, x);
  }

  lemma Cancel<T>(a: multiset<T>, b: multiset<T>, x: T)
    requires a + multiset{x} == b + multiset{x}
    ensures a == b
  {
    assert a == a + multiset{x} - multiset{x};
    assert b == b + multiset{x} - multiset{x};
  }

  /** Equal multisets of records have equal multisets of videos. */
  lemma {:induction false} SameVideos(a: seq<Rec>, b: seq<Rec>)
    requires multiset(a) == multiset(b)
    ensures multiset(VideosOf(a)) == multiset(VideosOf(b))
    decreases |a|
  {
    hide VideosOf;
    if a == [] {
      assert |b| == |multiset(b)| == |multiset(a)| == 0;
    } else {
      var n := |a| - 1;
      assert a == a[..n] + [a[n]] + [];
      assert a[..n] + [] == a[..n];
      var l, r := Without(a[..n], b, a[n]);
      SameVideos(a[..n], l + r);
      VideosOfJoin(a[..n], a[n], []);
      VideosOfJoin(l, a[n], r);
    }
  }

  /** The feed shows every fetched video exactly once, in non-increasing score, each with its own score. */
  lemma FeedIsPermutation(model: Model, who: Viewer, videos: seq<Video>, all: seq<Rec>)
    requires IsRanking(model, who, videos, all)
    ensures multiset(VideosOf(all)) == multiset(videos) && |all| == |videos| && Descending(all)
    ensures forall i :: 0 <= i < |all| ==> all[i].score == Score(model, who, all[i].video)
  {
    hide Score;
    var scored := Scored(model, who, videos);
    SameVideos(all, scored);
    assert VideosOf(scored) == videos;
    assert |all| == |multiset(all)| == |multiset(scored)|;
    forall i | 0 <= i < |all| ensures all[i].score == Score(model, who, all[i].video) {
      assert all[i] in multiset(scored);
    }
  }

  /** The pages of a served feed put together are the whole ranking, and later pages are empty. */
  lemma FeedPagesPartition(model: Model, who: Viewer, videos: seq<Video>, all: seq<Rec>, limit: nat)
    requires IsRanking(model, who, videos, all) && limit >= 1
    ensures FirstPages(all, TotalPages(|videos|, limit), limit) == all
    ensures forall page :: page > TotalPages(|videos|, limit) ==> Paginate(all, page, limit) == []
  {
    FeedIsPermutation(model, who, videos, all);
    PagesPartition(all, limit);
  }

  // ---------------------------------------------------------------- a user the model knows

  /** The user's vector fits every video vector of the model, as in each published one. */
  predicate Fits(videos: map<string, Vec>, p: Vec) {
    forall id :: id in videos ==> |videos[id]| == |p|
  }

  /**
   * The scores of a known user: a tenth of the views plus the product of the two vectors for a video the model has, and
   * the views alone for one it lacks; preferences do not count.
   */
  lemma KnownUserScores(videos: map<string, Vec>, p: Vec, preferred: set<string>, v: Video)
    requires Fits(videos, p)
    ensures var s := Score(Some(videos), Viewer(preferred, Some(p)), v);
      && (v.id in videos ==> s == v.views as real * 0.1 + Dot(p, videos[v.id]))
      && (v.id !in videos ==> s == v.views as real * 0.1)
  {
  }

  /**
   * In the feed of a known user, of two videos that the model has, with equal views, the one with the larger product
   * comes first; of one it has and one it lacks, the first comes first exactly if its product makes up for the views.
   */
  lemma LargerProductComesFirst(videos: map<string, Vec>, p: Vec, preferred: set<string>, fetched: seq<Video>,
                                all: seq<Rec>, i: nat, j: nat)
    requires Fits(videos, p) && IsRanking(Some(videos), Viewer(preferred, Some(p)), fetched, all)
    requires i < |all| && j < |all|
    ensures var v, w := all[i].video, all[j].video;
      && (v.id in videos && w.id in videos && v.views == w.views && Dot(p, videos[v.id]) > Dot(p, videos[w.id]) ==>
            i < j)
      && (v.id in videos && w.id !in videos && Dot(p, videos[v.id]) > (w.views - v.views) as real * 0.1 ==> i < j)
      && (v.id in videos && w.id !in videos && Dot(p, videos[v.id]) < (w.views - v.views) as real * 0.1 ==> j < i)
      && (v.id !in videos && w.id !in videos && v.views > w.views ==> i < j)
  {
    var model, who := Some(videos), Viewer(preferred, Some(p));
    var v, w := all[i].video, all[j].video;
    hide Score, Dot;
    FeedIsPermutation(model, who, fetched, all);
    KnownUserScores(videos, p, preferred, v);
    KnownUserScores(videos, p, preferred, w);
    assert all[i].score > all[j].score ==> i < j;
    assert all[j].score > all[i].score ==> j < i;
    Tenths(v.views, w.views);
  }

  lemma Tenths(a: int, b: int)
    ensures (b - a) as real * 0.1 == b as real * 0.1 - a as real * 0.1
  {
  }

  // ---------------------------------------------------------------- cold start

  /** No model, or a model that does not know the user: preferences decide. */
  predicate ColdStart(model: Model, who: Viewer) {
    model == None || who.factors == None
  }

  /** In a cold start, when a preferred video outranks another one: always without a model, else by a view-count gap. */
  lemma PreferredOutranksIff(model: Model, who: Viewer, v: Video, w: Video)
    requires ColdStart(model, who) && v.category in who.preferred && w.category !in who.preferred
    ensures Score(model, who, v) > Score(model, who, w) <==> model == None || w.views < v.views + 10_000_000
  {
  }

  /** Between videos that are both preferred, or both not, a model ranks by views; without one they are equal. */
  lemma SamePreferenceIff(model: Model, who: Viewer, v: Video, w: Video)
    requires ColdStart(model, who) && (v.category in who.preferred <==> w.category in who.preferred)
    ensures Score(model, who, v) > Score(model, who, w) <==> model != None && v.views > w.views
  {
  }

  /** In both cold starts every preferred video precedes every other one with fewer than 10,000,000 views. */
  lemma PreferredComeFirst(model: Model, who: Viewer, videos: seq<Video>, all: seq<Rec>, i: nat, j: nat)
    requires IsRanking(model, who, videos, all) && ColdStart(model, who)
    requires i < |all| && j < |all|
    requires all[i].video.category in who.preferred && all[i].video.views >= 0
    requires all[j].video.category !in who.preferred && all[j].video.views < 10_000_000
    ensures i < j
  {
    FeedIsPermutation(model, who, videos, all);
    PreferredOutranksIff(model, who, all[i].video, all[j].video);
  }

  /**
   * The boost does not dominate every view count: with a model, an unviewed preferred video ranks below another one
   * that has more than ten million views.
   */
  lemma BoostCanLose(model: Model, who: Viewer, v: Video, w: Video)
    requires model.Some? && who.factors == None && v.category in who.preferred && w.category !in who.preferred
    requires v.views == 0 && w.views > 10_000_000
    ensures Score(model, who, w) > Score(model, who, v)
  {
  }
}
