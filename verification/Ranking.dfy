/** Re-ranking of trending ids in internal/usecase/video/video.go. */
module Ranking {
  import opened Wrappers
  import opened Pages

  datatype Video = Video(id: string, category: string, views: int, complete: bool, isPublic: bool, isReel: bool)

  /** The videos table by id. */
  type Table = map<string, Video>

  predicate TableOk(db: Table) {
    forall id :: id in db ==> db[id].id == id
  }

  predicate Visible(db: Table, id: string) {
    id in db && db[id].complete && db[id].isPublic
  }

  /** Visible, and a reel where only reels are asked for. */
  predicate Wanted(db: Table, id: string, reelsOnly: bool) {
    Visible(db, id) && (reelsOnly ==> db[id].isReel)
  }

  /** What `GetByIDs` may return: the visible rows among `ids`, once each, in any order. */
  predicate IsFetch(db: Table, ids: seq<string>, rows: seq<Video>) {
    && (forall i :: 0 <= i < |rows| ==> rows[i].id in ids && Visible(db, rows[i].id) && rows[i] == db[rows[i].id])
    && (forall i, j :: 0 <= i < j < |rows| ==> rows[i].id != rows[j].id)
    && (forall i :: 0 <= i < |ids| && Visible(db, ids[i]) ==> exists r :: 0 <= r < |rows| && rows[r].id == ids[i])
  }

  /** The reference ranking: the visible ids in rank order, reels only where asked. */
  function Ranked(db: Table, ids: seq<string>, reelsOnly: bool): seq<Video> {
    if ids == [] then []
    else
      var id := ids[|ids| - 1];
      Ranked(db, ids[..|ids| - 1], reelsOnly) +
      if Wanted(db, id, reelsOnly) then [db[id]] else []
  }

  function Ids(videos: seq<Video>): seq<string> {
    seq(|videos|, i requires 0 <= i < |videos| => videos[i].id)
  }

  /** The loop that fills `byID`. */
  method IndexById(db: Table, ids: seq<string>, rows: seq<Video>, reelsOnly: bool) returns (byID: map<string, Video>)
    requires IsFetch(db, ids, rows)
    ensures forall i :: 0 <= i < |ids| ==> (ids[i] in byID <==> Wanted(db, ids[i], reelsOnly))
    ensures forall id :: id in byID ==> id in db && byID[id] == db[id]
  {
    byID := map[];
    for n := 0 to |rows|
      invariant forall id :: id in byID ==> Visible(db, id) && byID[id] == db[id] && (reelsOnly ==> db[id].isReel)
      invariant forall m :: 0 <= m < n ==> (rows[m].id in byID <==> reelsOnly ==> rows[m].isReel)
    {
      if !reelsOnly || rows[n].isReel {
        byID := byID[rows[n].id := rows[n]];
      }
    }
    forall i | 0 <= i < |ids|
      ensures ids[i] in byID <==> Wanted(db, ids[i], reelsOnly)
    {
      if Visible(db, ids[i]) {
        var r :| 0 <= r < |rows| && rows[r].id == ids[i];
        assert rows[r] == db[ids[i]];
      }
    }
  }

  /** Both loops: whatever order the rows came in, the result is in rank order. */
  method Rerank(db: Table, ids: seq<string>, rows: seq<Video>, reelsOnly: bool) returns (ranked: seq<Video>)
    requires IsFetch(db, ids, rows)
    ensures ranked == Ranked(db, ids, reelsOnly)
  {
    var byID := IndexById(db, ids, rows, reelsOnly);
    ranked := [];
    assert ids[..0] == [];
    for n := 0 to |ids|
      invariant ranked == Ranked(db, ids[..n], reelsOnly)
    {
      assert ids[..n + 1][..n] == ids[..n];
      if ids[n] in byID {
        ranked := ranked + [byID[ids[n]]];
      }
    }
    assert ids[..|ids|] == ids;
  }

  datatype Feed =
    | Recency                                       // the fallback listing
    | Page(items: seq<Video>, total: nat, totalPages: nat)
    | OutOfRange                                    // the slice expression fails
    | FetchFailed                                   // the error of GetByIDs

  function ToFeed(ranked: seq<Video>, page: int, limit: int): Feed {
    match SlicePage(ranked, page, limit)
    case None => OutOfRange
    case Some(items) => Page(items, |ranked|, TotalPages(|ranked|, limit))
  }

  /** `GetTrending`, given the ids Redis ranked and the rows the database returned for them, if it did. */
  method GetTrending(db: Table, ids: seq<string>, rows: Option<seq<Video>>, page: int, limit: int) returns (feed: Feed)
    requires rows.Some? ==> IsFetch(db, ids, rows.value)
    ensures feed == if ids == [] then Recency
                    else if rows == None then FetchFailed
                    else ToFeed(Ranked(db, ids, false), page, limit)
  {
    if ids == [] {
      return Recency;
    }
    if rows == None {
      return FetchFailed;
    }
    var ranked := Rerank(db, ids, rows.value, false);
    return ToFeed(ranked, page, limit);
  }

  /**
   * `GetReelsFeed`: two fetches. A failed first fetch, or one without reels, falls back to recency; the second one
   * asks only for the reels found, and its failure is an error.
   */
  method GetReelsFeed(db: Table, ids: seq<string>, first: Option<seq<Video>>, second: Option<seq<Video>>,
                      page: int, limit: int)
    returns (feed: Feed)
    requires TableOk(db)
    requires first.Some? ==> IsFetch(db, ids, first.value)
    requires first.Some? && second.Some? ==> IsFetch(db, Ids(Ranked(db, ids, true)), second.value)
    ensures feed == if first == None || Ranked(db, ids, true) == [] then Recency
                    else if second == None then FetchFailed
                    else ToFeed(Ranked(db, ids, true), page, limit)
  {
    var reels: seq<Video> := [];
    if ids != [] && first.Some? {
      reels := Rerank(db, ids, first.value, true);
    }
    if |reels| == 0 {
      return Recency;
    }
    if second == None {
      return FetchFailed;
    }
    var ranked := Rerank(db, Ids(reels), second.value, false);
    RankedIsVisible(db, ids, true);
    RankedTwice(db, reels);
    return ToFeed(ranked, page, limit);
  }

  lemma {:induction false} RankedIsVisible(db: Table, ids: seq<string>, reelsOnly: bool)
    requires TableOk(db)
    ensures forall i :: 0 <= i < |Ranked(db, ids, reelsOnly)| ==>
      var v := Ranked(db, ids, reelsOnly)[i];
      Visible(db, v.id) && db[v.id] == v && v.id in ids && (reelsOnly ==> v.isReel)
  {
    if ids != [] {
      RankedIsVisible(db, ids[..|ids| - 1], reelsOnly);
    }
  }

  /** Ranking the ids of videos that are visible gives back those videos. */
  lemma {:induction false} RankedTwice(db: Table, videos: seq<Video>)
    requires forall i :: 0 <= i < |videos| ==> Visible(db, videos[i].id) && db[videos[i].id] == videos[i]
    ensures Ranked(db, Ids(videos), false) == videos
  {
    if videos != [] {
      var n := |videos| - 1;
      RankedTwice(db, videos[..n]);
      assert Ids(videos)[..n] == Ids(videos[..n]);
      assert videos[..n] + [videos[n]] == videos;
    }
  }

  /** `at` lists, in increasing order, exactly the positions of the wanted ids, and `ranked` their videos. */
  predicate IsFilter(db: Table, ids: seq<string>, reelsOnly: bool, ranked: seq<Video>, at: seq<nat>) {
    && |at| == |ranked|
    && (forall i, j :: 0 <= i < j < |at| ==> at[i] < at[j])
    && (forall i :: 0 <= i < |at| ==> at[i] < |ids| && ids[at[i]] in db && ranked[i] == db[ids[at[i]]])
    && (forall n :: 0 <= n < |ids| ==> (n in at <==> Wanted(db, ids[n], reelsOnly)))
  }

  lemma FilterGrows(db: Table, ids: seq<string>, reelsOnly: bool, ranked: seq<Video>, at: seq<nat>, id: string)
    requires IsFilter(db, ids, reelsOnly, ranked, at)
    ensures Wanted(db, id, reelsOnly) ==> IsFilter(db, ids + [id], reelsOnly, ranked + [db[id]], at + [|ids|])
    ensures !Wanted(db, id, reelsOnly) ==> IsFilter(db, ids + [id], reelsOnly, ranked, at)
  {
    assert |ids| !in at;
    var ids' := ids + [id];
    assert forall n :: 0 <= n < |ids| ==> ids'[n] == ids[n];
    if Wanted(db, id, reelsOnly) {
      var at' := at + [|ids|];
      assert forall n: nat :: n in at' <==> n in at || n == |ids|;
    }
  }

  /** The reference is the order-preserving filter of the ranked ids. */
  lemma {:induction false} RankedIsFilter(db: Table, ids: seq<string>, reelsOnly: bool) returns (at: seq<nat>)
    ensures IsFilter(db, ids, reelsOnly, Ranked(db, ids, reelsOnly), at)
  {
    if ids == [] {
      at := [];
    } else {
      hide IsFilter;
      var last := |ids| - 1;
      var before := RankedIsFilter(db, ids[..last], reelsOnly);
      FilterGrows(db, ids[..last], reelsOnly, Ranked(db, ids[..last], reelsOnly), before, ids[last]);
      assert ids[..last] + [ids[last]] == ids;
      at := if Wanted(db, ids[last], reelsOnly) then before + [last] else before;
      assert Ranked(db, ids[..last], reelsOnly) + [] == Ranked(db, ids[..last], reelsOnly);
    }
  }

  /** Nothing but complete public videos, and reels only where asked, is ever on a page. */
  lemma {:induction false} RankedIsPublic(db: Table, ids: seq<string>, reelsOnly: bool)
    ensures forall v :: v in Ranked(db, ids, reelsOnly) ==> v.complete && v.isPublic && (reelsOnly ==> v.isReel)
  {
    if ids != [] {
      RankedIsPublic(db, ids[..|ids| - 1], reelsOnly);
    }
  }

  lemma PageIsPublic(db: Table, ids: seq<string>, reelsOnly: bool, page: int, limit: int)
    ensures var feed := ToFeed(Ranked(db, ids, reelsOnly), page, limit);
      feed.Page? ==> forall v :: v in feed.items ==> v.complete && v.isPublic && (reelsOnly ==> v.isReel)
  {
    RankedIsPublic(db, ids, reelsOnly);
  }

  /** Trending pages 1 to `totalPages` put together are the whole ranking; later pages are empty. */
  lemma TrendingPagesPartition(db: Table, ids: seq<string>, reelsOnly: bool, limit: nat)
    requires limit >= 1
    ensures var ranked := Ranked(db, ids, reelsOnly);
      && (forall page :: page >= 1 ==>
            ToFeed(ranked, page, limit) == Page(Paginate(ranked, page, limit), |ranked|, TotalPages(|ranked|, limit)))
      && FirstPages(ranked, TotalPages(|ranked|, limit), limit) == ranked
      && forall page :: page > TotalPages(|ranked|, limit) ==> Paginate(ranked, page, limit) == []
  {
    var ranked := Ranked(db, ids, reelsOnly);
    forall page | page >= 1
      ensures ToFeed(ranked, page, limit) == Page(Paginate(ranked, page, limit), |ranked|, TotalPages(|ranked|, limit))
    {
      SliceIsPaginate(ranked, page, limit);
    }
    PagesPartition(ranked, limit);
  }
}
