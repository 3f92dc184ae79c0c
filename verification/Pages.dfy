/** Page arithmetic of the mappers and the two ways the use cases cut a page out of a ranked list. */
module Pages {
  import opened Wrappers

  /** `TotalPages` of `ToVideoPageResponse` and `ToPersonalizedFeedPageResponse`. */
  function TotalPages(total: nat, limit: int): (n: nat)
    ensures limit > 0 ==> (n - 1) * limit < total <= n * limit || (total == 0 && n == 0)
    ensures limit <= 0 ==> n == 0
  {
    if limit > 0 then (total + limit - 1) / limit else 0
  }

  /** The slice `GetTrending` and `GetReelsFeed` take; `None` where Go's slice bounds are out of range. */
  function SlicePage<T>(ranked: seq<T>, page: int, limit: int): Option<seq<T>> {
    var offset := (page - 1) * limit;
    if offset >= |ranked| then Some([])
    else
      var end := if offset + limit > |ranked| then |ranked| else offset + limit;
      if 0 <= offset <= end then Some(ranked[offset..end]) else None
  }

  /** `paginate`. */
  function Paginate<T>(recs: seq<T>, page: int, limit: int): seq<T> {
    if limit <= 0 then recs
    else
      var start := ((if page < 1 then 1 else page) - 1) * limit;
      StartIsNatural(if page < 1 then 1 else page, limit);
      if start >= |recs| then []
      else recs[start..if start + limit > |recs| then |recs| else start + limit]
  }

  lemma StartIsNatural(page: int, limit: int)
    requires page >= 1 && limit >= 1
    ensures (page - 1) * limit >= 0
  {
  }

  /** A page before the first is the first one, and without a limit every page is the whole list. */
  lemma PagesOutOfRange<T>(recs: seq<T>, page: int, limit: int)
    ensures page < 1 ==> Paginate(recs, page, limit) == Paginate(recs, 1, limit)
    ensures limit <= 0 ==> Paginate(recs, page, limit) == recs
  {
  }

  /** The first `n` pages, one after the other. */
  function FirstPages<T>(recs: seq<T>, n: nat, limit: int): seq<T> {
    if n == 0 then [] else FirstPages(recs, n - 1, limit) + Paginate(recs, n, limit)
  }

  function Min(a: nat, b: nat): nat {
    if a < b then a else b
  }

  lemma {:induction false} FirstPagesArePrefix<T>(recs: seq<T>, n: nat, limit: nat)
    requires limit >= 1
    ensures FirstPages(recs, n, limit) == recs[..Min(n * limit, |recs|)]
  {
    if n > 0 {
      FirstPagesArePrefix(recs, n - 1, limit);
      var start := (n - 1) * limit;
      assert n * limit == start + limit;
    } else {
      assert n * limit == 0;
    }
  }

  /** Pages 1 to `TotalPages` are the list, in order and without overlap; every later page is empty. */
  lemma PagesPartition<T>(recs: seq<T>, limit: nat)
    requires limit >= 1
    ensures FirstPages(recs, TotalPages(|recs|, limit), limit) == recs
    ensures forall page :: page > TotalPages(|recs|, limit) ==> Paginate(recs, page, limit) == []
    ensures forall page :: 1 <= page < TotalPages(|recs|, limit) ==> |Paginate(recs, page, limit)| == limit
  {
    hide TotalPages, Paginate, FirstPages;
    var n := TotalPages(|recs|, limit);
    FirstPagesArePrefix(recs, n, limit);
    assert recs[..|recs|] == recs;
    forall page | page > n ensures Paginate(recs, page, limit) == [] {
      PageBeyond(recs, n, page, limit);
    }
    forall page | 1 <= page < n ensures |Paginate(recs, page, limit)| == limit {
      PageBefore(recs, n, page, limit);
    }
  }

  lemma PageBeyond<T>(recs: seq<T>, n: nat, page: int, limit: nat)
    requires limit >= 1 && |recs| <= n * limit && page > n
    ensures Paginate(recs, page, limit) == []
  {
    Monotone(n, page - 1, limit);
  }

  lemma PageBefore<T>(recs: seq<T>, n: nat, page: int, limit: nat)
    requires limit >= 1 && (n - 1) * limit < |recs| && 1 <= page < n
    ensures |Paginate(recs, page, limit)| == limit
  {
    Monotone(page, n - 1, limit);
    assert page * limit == (page - 1) * limit + limit;
  }

  lemma Monotone(a: int, b: int, limit: nat)
    requires a <= b
    ensures a * limit <= b * limit
  {
  }

  /** The two cuts agree on every page from the first; `SlicePage` never fails there. */
  lemma SliceIsPaginate<T>(ranked: seq<T>, page: int, limit: int)
    requires page >= 1 && limit >= 1
    ensures SlicePage(ranked, page, limit) == Some(Paginate(ranked, page, limit))
  {
    StartIsNatural(page, limit);
  }

  /** Exactly when the slice is out of range: an offset before the end of the list with a negative part. */
  lemma SliceFailsIff<T>(ranked: seq<T>, page: int, limit: int)
    ensures SlicePage(ranked, page, limit) == None
        <==> (page - 1) * limit < |ranked| && ((page - 1) * limit < 0 || limit < 0)
  {
  }
}
