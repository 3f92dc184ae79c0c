/**
 * Comments on videos: the parent check at creation, the forest it maintains, and what the counting queries add up to.
 */
module Comments {
  import opened Wrappers
  import opened Pages

  datatype Comment = Comment(id: string, video: string, user: string, content: string, parent: Option<string>)

  /** The comments table in insertion order, which is the order of `created_at`. */
  type Table = seq<Comment>

  datatype Error = InvalidParentId | DuplicateId | QueryFailed

  // ---------------------------------------------------------------- the table

  /** `GetByID`. */
  function Find(t: Table, id: string): (r: Option<Comment>)
    ensures r.Some? ==> r.value in t && r.value.id == id
    ensures r == None ==> forall c :: c in t ==> c.id != id
  {
    if t == [] then None
    else
      var n := |t| - 1;
      if t[n].id == id then Some(t[n]) else Find(t[..n], id)
  }

  predicate ParentAccepted(t: Table, c: Comment) {
    c.parent == None || (var p := Find(t, c.parent.value); p.Some? && p.value.video == c.video)
  }

  /** `CreateComment`; a repeated id is refused by the primary key. */
  function Create(t: Table, c: Comment): Result<Table, Error> {
    if !ParentAccepted(t, c) then Err(InvalidParentId)
    else if Find(t, c.id).Some? then Err(DuplicateId)
    else Ok(t + [c])
  }

  /** The table after a series of requests, refused ones having no effect. */
  function Run(requests: seq<Comment>): Table {
    if requests == [] then []
    else
      var n := |requests| - 1;
      var t := Run(requests[..n]);
      match Create(t, requests[n])
      case Ok(next) => next
      case Err(_) => t
  }

  /** Every id occurs once and every reply comes after a comment of the same video that it names. */
  predicate Forest(t: Table) {
    if t == [] then true
    else
      var n := |t| - 1;
      Forest(t[..n]) && ParentAccepted(t[..n], t[n]) && Find(t[..n], t[n].id) == None
  }

  predicate IsParent(p: Comment, c: Comment) {
    c.parent == Some(p.id) && c.video == p.video
  }

  /** Ids are distinct, and each reply follows its parent, on the same video. */
  predicate Ordered(t: Table) {
    && (forall i, j :: 0 <= i < j < |t| ==> t[i].id != t[j].id)
    && (forall j :: 0 <= j < |t| && t[j].parent.Some? ==> exists i :: 0 <= i < j && IsParent(t[i], t[j]))
  }

  lemma FindIsIndex(t: Table, i: nat)
    requires i < |t| && forall j, k :: 0 <= j < k < |t| ==> t[j].id != t[k].id
    ensures Find(t, t[i].id) == Some(t[i])
  {
    var c := Find(t, t[i].id);
    assert t[i] in t;
    var j :| 0 <= j < |t| && t[j] == c.value;
  }

  lemma AcceptedIff(t: Table, c: Comment)
    requires Ordered(t) && c.parent.Some?
    ensures ParentAccepted(t, c) <==> exists i :: 0 <= i < |t| && IsParent(t[i], c)
  {
    hide Find;
    if ParentAccepted(t, c) {
      var i :| 0 <= i < |t| && t[i] == Find(t, c.parent.value).value;
      assert IsParent(t[i], c);
    }
    if i :| 0 <= i < |t| && IsParent(t[i], c) {
      FindIsIndex(t, i);
    }
  }

  lemma OrderedAppend(t: Table, c: Comment)
    requires Ordered(t)
    ensures Ordered(t + [c]) <==>
      && (c.parent.Some? ==> exists i :: 0 <= i < |t| && IsParent(t[i], c))
      && forall i :: 0 <= i < |t| ==> t[i].id != c.id
  {
    var next := t + [c];
    assert next[|t|] == c && forall i :: 0 <= i < |t| ==> next[i] == t[i];
    if Ordered(next) && c.parent.Some? {
      var i :| 0 <= i < |t| && IsParent(next[i], next[|t|]);
      assert IsParent(t[i], c);
    }
    if c.parent.Some? {
      if i :| 0 <= i < |t| && IsParent(t[i], c) {
        assert IsParent(next[i], next[|t|]);
      }
    }
    forall j | 0 <= j < |t| && next[j].parent.Some? ensures exists i :: 0 <= i < j && IsParent(next[i], next[j]) {
      var i :| 0 <= i < j && IsParent(t[i], t[j]);
      assert IsParent(next[i], next[j]);
    }
  }

  lemma OrderedPrefix(t: Table, n: nat)
    requires Ordered(t) && n <= |t|
    ensures Ordered(t[..n])
  {
    var s := t[..n];
    forall j | 0 <= j < n && s[j].parent.Some? ensures exists i :: 0 <= i < j && IsParent(s[i], s[j]) {
      var i :| 0 <= i < j && IsParent(t[i], t[j]);
      assert IsParent(s[i], s[j]);
    }
  }

  /** A forest seen as a whole table. */
  lemma {:induction false} ForestMeans(t: Table)
    ensures Forest(t) <==> Ordered(t)
  {
    hide Ordered, ParentAccepted;
    if t == [] {
      EmptyOrdered(t);
    } else {
      var n := |t| - 1;
      ForestMeans(t[..n]);
      assert t == t[..n] + [t[n]];
      if Ordered(t) {
        OrderedPrefix(t, n);
      }
      if Ordered(t[..n]) {
        OrderedAppend(t[..n], t[n]);
        AcceptedOrTop(t[..n], t[n]);
        assert forall i :: 0 <= i < n ==> t[..n][i] in t[..n];
      }
    }
  }

  lemma EmptyOrdered(t: Table)
    requires t == []
    ensures Ordered(t)
  {
  }

  lemma AcceptedOrTop(t: Table, c: Comment)
    requires Ordered(t)
    ensures ParentAccepted(t, c) <==> (c.parent.Some? ==> exists i :: 0 <= i < |t| && IsParent(t[i], c))
  {
    if c.parent.Some? {
      AcceptedIff(t, c);
    }
  }

  /** The reachable tables are exactly the forests. */
  lemma {:induction false} RunIsForest(requests: seq<Comment>)
    ensures Forest(Run(requests))
  {
    if requests != [] {
      var n := |requests| - 1;
      RunIsForest(requests[..n]);
      var t := Run(requests[..n]);
      assert (t + [requests[n]])[..|t|] == t;
    }
  }

  lemma {:induction false} ForestIsReachable(t: Table)
    requires Forest(t)
    ensures Run(t) == t
  {
    if t != [] {
      ForestIsReachable(t[..|t| - 1]);
    }
  }

  // ---------------------------------------------------------------- parent chains

  /** The `n`-th ancestor, following `parent_id` from row to row. */
  function Up(t: Table, id: string, n: nat): Option<Comment> {
    if n == 0 then Find(t, id)
    else
      var below := Up(t, id, n - 1);
      if below == None || below.value.parent == None then None else Find(t, below.value.parent.value)
  }

  /** In a forest, rows inserted later never change a chain. */
  lemma {:induction false} UpStable(t: Table, id: string, n: nat)
    requires t != [] && Forest(t) && Find(t[..|t| - 1], id).Some?
    ensures Up(t, id, n) == Up(t[..|t| - 1], id, n)
  {
    var before := t[..|t| - 1];
    if n > 0 {
      UpStable(t, id, n - 1);
      var below := Up(before, id, n - 1);
      if below.Some? {
        UpFinds(before, id, n - 1);
        ParentFound(before, below.value);
      }
    }
  }

  lemma UpFinds(t: Table, id: string, n: nat)
    ensures var c := Up(t, id, n); c.Some? ==> c.value in t && Find(t, c.value.id) == c
  {
    var c := Up(t, id, n);
    if c.Some? {
      assert c == Find(t, c.value.id) by {
        if n > 0 {
          assert Up(t, id, n - 1).Some?;
        }
      }
    }
  }

  lemma {:induction false} ParentFound(t: Table, c: Comment)
    requires Forest(t) && c in t
    ensures ParentAccepted(t, c) && Find(t, c.id) == Some(c)
  {
    var n := |t| - 1;
    if c != t[n] {
      assert c in t[..n];
      ParentFound(t[..n], c);
    }
  }

  /** Two equal points of a chain continue alike. */
  lemma {:induction false} UpShift(t: Table, id: string, a: nat, b: nat, k: nat)
    requires Up(t, id, a) == Up(t, id, b)
    ensures Up(t, id, a + k) == Up(t, id, b + k)
  {
    if k > 0 {
      UpShift(t, id, a, b, k - 1);
    }
  }

  lemma {:induction false} NothingAbove(t: Table, id: string, n: nat, m: nat)
    requires n < m && (Up(t, id, n) == None || Up(t, id, n).value.parent == None)
    ensures Up(t, id, m) == None
  {
    if n < m - 1 {
      NothingAbove(t, id, n, m - 1);
    }
  }

  /** The top-level comment of a comment's thread, found by one backward scan of the table. */
  function Root(t: Table, id: string): string {
    if t == [] then id
    else
      var n := |t| - 1;
      if t[n].id != id then Root(t[..n], id)
      else if t[n].parent == None then id
      else Root(t[..n], t[n].parent.value)
  }

  /** The chain of `id` takes `n` steps, all on `video`, to a top-level comment. */
  ghost predicate ChainTo(t: Table, id: string, n: nat, video: string, top: string) {
    && (forall m :: 0 <= m <= n ==> Up(t, id, m).Some? && Up(t, id, m).value.video == video)
    && (forall m :: 0 <= m < n ==> Up(t, id, m).value.parent != None)
    && Up(t, id, n).value.parent == None && Up(t, id, n).value.id == top
  }

  lemma {:induction false} ChainReaches(t: Table, c: Comment) returns (n: nat)
    requires Forest(t) && Find(t, c.id) == Some(c)
    ensures n < |t| && ChainTo(t, c.id, n, c.video, Root(t, c.id))
  {
    var last := |t| - 1;
    var before := t[..last];
    if c != t[last] {
      n := ChainReaches(before, c);
      forall m: nat ensures Up(t, c.id, m) == Up(before, c.id, m) {
        UpStable(t, c.id, m);
      }
    } else if c.parent == None {
      n := 0;
    } else {
      var p := Find(before, c.parent.value).value;
      var k := ChainReaches(before, p);
      n := k + 1;
      forall m: nat ensures Up(t, c.id, m + 1) == Up(before, p.id, m) {
        UpStable(t, p.id, m);
        UpFromParent(t, c, p, m);
      }
      ChainExtends(t, c, before, p, k);
    }
  }

  lemma {:induction false} UpFromParent(t: Table, c: Comment, p: Comment, m: nat)
    requires Find(t, c.id) == Some(c) && c.parent == Some(p.id)
    ensures Up(t, c.id, m + 1) == Up(t, p.id, m)
  {
    if m > 0 {
      UpFromParent(t, c, p, m - 1);
    } else {
      assert Up(t, c.id, 0) == Some(c);
    }
  }

  lemma ChainExtends(t: Table, c: Comment, s: Table, p: Comment, k: nat)
    requires Find(t, c.id) == Some(c) && c.parent == Some(p.id) && c.video == p.video
    requires ChainTo(s, p.id, k, p.video, Root(s, p.id)) && Root(t, c.id) == Root(s, p.id)
    requires forall m: nat :: Up(t, c.id, m + 1) == Up(s, p.id, m)
    ensures ChainTo(t, c.id, k + 1, c.video, Root(t, c.id))
  {
    forall m | 0 <= m <= k + 1
      ensures Up(t, c.id, m).Some? && Up(t, c.id, m).value.video == c.video
      ensures m < k + 1 ==> Up(t, c.id, m).value.parent != None
      ensures m == k + 1 ==> Up(t, c.id, m).value.parent == None && Up(t, c.id, m).value.id == Root(t, c.id)
    {
      if m > 0 {
        assert Up(t, c.id, (m - 1) + 1) == Up(s, p.id, m - 1);
      }
    }
  }

  /**
   * In every reachable table each comment's parent chain visits no row twice and ends, after fewer steps than there are
   * rows, at a top-level comment of the same video.
   */
  lemma ChainsEndAtTop(requests: seq<Comment>, c: Comment) returns (n: nat)
    requires c in Run(requests)
    ensures n < |Run(requests)| && ChainTo(Run(requests), c.id, n, c.video, Root(Run(requests), c.id))
    ensures forall m :: m > n ==> Up(Run(requests), c.id, m) == None
    ensures forall a, b :: 0 <= a < b <= n ==> Up(Run(requests), c.id, a) != Up(Run(requests), c.id, b)
  {
    var t := Run(requests);
    RunIsForest(requests);
    ParentFound(t, c);
    n := ChainReaches(t, c);
    forall m | m > n ensures Up(t, c.id, m) == None {
      NothingAbove(t, c.id, n, m);
    }
    forall a, b | 0 <= a < b <= n ensures Up(t, c.id, a) != Up(t, c.id, b) {
      NothingAbove(t, c.id, n, b + (n - a));
      if Up(t, c.id, a) == Up(t, c.id, b) {
        UpShift(t, c.id, a, b, n - a);
      }
    }
  }

  /** A comment is in the thread of a top-level comment exactly when its chain leads there. */
  lemma RootIff(t: Table, c: Comment, top: Comment)
    requires Forest(t) && c in t && top in t && top.parent == None
    ensures Root(t, c.id) == top.id <==> exists n: nat :: Up(t, c.id, n) == Some(top)
  {
    ParentFound(t, c);
    ParentFound(t, top);
    var n := ChainReaches(t, c);
    UpFinds(t, c.id, n);
    if m: nat :| Up(t, c.id, m) == Some(top) {
      assert m >= n;
      if n < m {
        NothingAbove(t, c.id, n, m);
      }
    }
  }

  // ---------------------------------------------------------------- counting

  /**
   * The WHERE clauses of the queries; `Replies` stands for the rows on a video that `AllOf` counts beside `TopLevel`.
   */
  datatype Query = AllOf(video: string) | TopLevel(video: string) | Replies(video: string) | RepliesTo(parent: string)

  predicate Matches(q: Query, c: Comment) {
    match q
    case AllOf(video) => c.video == video
    case TopLevel(video) => c.video == video && c.parent == None
    case Replies(video) => c.video == video && c.parent != None
    case RepliesTo(parent) => c.parent == Some(parent)
  }

  /** The selected rows, oldest first. */
  function Select(t: Table, q: Query): (r: Table)
    ensures forall c :: c in r <==> c in t && Matches(q, c)
  {
    if t == [] then []
    else
      var n := |t| - 1;
      Select(t[..n], q) + if Matches(q, t[n]) then [t[n]] else []
  }

  function Ids(t: Table): (r: seq<string>)
    ensures |r| == |t| && forall i :: 0 <= i < |t| ==> r[i] == t[i].id
  {
    seq(|t|, i requires 0 <= i < |t| => t[i].id)
  }

  /** The sum over `ids` of the number of direct replies, as the listing query counts them. */
  function ReplyCounts(t: Table, ids: seq<string>): nat {
    if ids == [] then 0
    else
      var n := |ids| - 1;
      ReplyCounts(t, ids[..n]) + |Select(t, RepliesTo(ids[n]))|
  }

  /** The comments among `rows` whose thread in `t` is that of `top`. */
  function InThread(t: Table, rows: Table, top: string): nat {
    if rows == [] then 0
    else
      var n := |rows| - 1;
      InThread(t, rows[..n], top) + if Root(t, rows[n].id) == top then 1 else 0
  }

  function ThreadSizes(t: Table, tops: seq<string>): nat {
    if tops == [] then 0
    else
      var n := |tops| - 1;
      ThreadSizes(t, tops[..n]) + InThread(t, t, tops[n])
  }

  /** How often the listed keys occur in `m`. */
  function Total(keys: seq<string>, m: multiset<string>): nat {
    if keys == [] then 0 else Total(keys[..|keys| - 1], m) + m[keys[|keys| - 1]]
  }

  predicate Distinct(keys: seq<string>) {
    forall i, j :: 0 <= i < j < |keys| ==> keys[i] != keys[j]
  }

  lemma {:induction false} TotalGrows(keys: seq<string>, m: multiset<string>, x: string)
    requires Distinct(keys)
    ensures Total(keys, m + multiset{x}) == Total(keys, m) + if x in keys then 1 else 0
  {
    if keys != [] {
      TotalGrows(keys[..|keys| - 1], m, x);
    }
  }

  /** Keys listed once each account for all of a sequence exactly when they cover it. */
  lemma {:induction false} CoverTotal(keys: seq<string>, xs: seq<string>)
    requires Distinct(keys)
    ensures Total(keys, multiset(xs)) <= |xs|
    ensures Total(keys, multiset(xs)) == |xs| <==> forall x :: x in xs ==> x in keys
  {
    if xs == [] {
      TotalOfNothing(keys);
    } else {
      var n := |xs| - 1;
      CoverTotal(keys, xs[..n]);
      TotalGrows(keys, multiset(xs[..n]), xs[n]);
      assert xs == xs[..n] + [xs[n]];
    }
  }

  lemma {:induction false} TotalOfNothing(keys: seq<string>)
    ensures Total(keys, multiset{}) == 0
  {
    if keys != [] {
      TotalOfNothing(keys[..|keys| - 1]);
    }
  }

  lemma {:induction false} SelectSplits(t: Table, video: string)
    ensures |Select(t, AllOf(video))| == |Select(t, TopLevel(video))| + |Select(t, Replies(video))|
  {
    if t != [] {
      SelectSplits(t[..|t| - 1], video);
    }
  }

  lemma {:induction false} DistinctIds(t: Table, q: Query)
    requires Forest(t)
    ensures Distinct(Ids(Select(t, q)))
  {
    if t != [] {
      var n := |t| - 1;
      DistinctIds(t[..n], q);
      var r := Select(t[..n], q);
      forall c | c in r ensures c.id != t[n].id {
        assert c in t[..n];
      }
      assert forall i :: 0 <= i < |r| ==> r[i] in r;
    }
  }

  /** The parents named by the replies on a video, one entry for each reply. */
  function Parents(t: Table, video: string): seq<string> {
    if t == [] then []
    else
      var n := |t| - 1;
      Parents(t[..n], video) + if Matches(Replies(video), t[n]) then [t[n].parent.value] else []
  }

  lemma {:induction false} ParentsCounted(t: Table, video: string)
    ensures |Parents(t, video)| == |Select(t, Replies(video))|
    ensures forall x :: x in Parents(t, video) ==> exists c :: c in Select(t, Replies(video)) && c.parent == Some(x)
  {
    if t != [] {
      var n := |t| - 1;
      ParentsCounted(t[..n], video);
      forall x | x in Parents(t, video) ensures exists c :: c in Select(t, Replies(video)) && c.parent == Some(x) {
        if x in Parents(t[..n], video) {
          var c :| c in Select(t[..n], Replies(video)) && c.parent == Some(x);
          assert c in Select(t, Replies(video));
        } else {
          assert t[n] in Select(t, Replies(video)) && t[n].parent == Some(x);
        }
      }
    }
  }

  lemma {:induction false} RepliesAreParents(t: Table, video: string, id: string)
    requires forall c :: c in t && c.parent == Some(id) ==> c.video == video
    ensures |Select(t, RepliesTo(id))| == multiset(Parents(t, video))[id]
  {
    if t != [] {
      RepliesAreParents(t[..|t| - 1], video, id);
    }
  }

  /** Replies stay on their parent's video. */
  lemma RepliesStay(t: Table, p: Comment)
    requires Forest(t) && p in t
    ensures forall c :: c in t && c.parent == Some(p.id) ==> c.video == p.video
  {
    ParentFound(t, p);
    forall c | c in t && c.parent == Some(p.id) ensures c.video == p.video {
      ParentFound(t, c);
    }
  }

  lemma {:induction false} ReplyCountsTotal(t: Table, video: string, rows: Table)
    requires Forest(t) && forall c :: c in rows ==> c in t && c.video == video
    ensures ReplyCounts(t, Ids(rows)) == Total(Ids(rows), multiset(Parents(t, video)))
  {
    if rows != [] {
      var n := |rows| - 1;
      ReplyCountsTotal(t, video, rows[..n]);
      assert Ids(rows)[..n] == Ids(rows[..n]);
      RepliesStay(t, rows[n]);
      RepliesAreParents(t, video, rows[n].id);
    }
  }

  /** In every reachable table: all comments of a video are its top-level ones plus everyone's direct replies. */
  lemma AllIsTopPlusReplies(requests: seq<Comment>, video: string)
    ensures var t := Run(requests);
      |Select(t, AllOf(video))| == |Select(t, TopLevel(video))| + ReplyCounts(t, Ids(Select(t, AllOf(video))))
  {
    var t := Run(requests);
    RunIsForest(requests);
    var rows := Select(t, AllOf(video));
    SelectSplits(t, video);
    ReplyCountsTotal(t, video, rows);
    DistinctIds(t, AllOf(video));
    ParentsCounted(t, video);
    forall x | x in Parents(t, video) ensures x in Ids(rows) {
      var c :| c in Select(t, Replies(video)) && c.parent == Some(x);
      ParentFound(t, c);
      RowListed(rows, Find(t, x).value);
    }
    CoverTotal(Ids(rows), Parents(t, video));
  }

  lemma RowListed(rows: Table, c: Comment)
    requires c in rows
    ensures c.id in Ids(rows)
  {
    var i :| 0 <= i < |rows| && rows[i] == c;
    assert Ids(rows)[i] == c.id;
  }

  /** No reply on the video answers another reply. */
  predicate OneLevel(t: Table, video: string) {
    forall c :: c in Select(t, Replies(video)) ==> c.parent.value in Ids(Select(t, TopLevel(video)))
  }

  /**
   * The listing shows top-level comments with their reply counts; these add up to the total of all comments exactly
   * when no reply answers another reply, which `CreateComment` does not rule out.
   */
  lemma ShownIsAllIff(requests: seq<Comment>, video: string)
    ensures var t := Run(requests);
      var shown := |Select(t, TopLevel(video))| + ReplyCounts(t, Ids(Select(t, TopLevel(video))));
      shown <= |Select(t, AllOf(video))| && (shown == |Select(t, AllOf(video))| <==> OneLevel(t, video))
  {
    var t := Run(requests);
    RunIsForest(requests);
    var tops := Select(t, TopLevel(video));
    SelectSplits(t, video);
    ReplyCountsTotal(t, video, tops);
    DistinctIds(t, TopLevel(video));
    ParentsCounted(t, video);
    CoverTotal(Ids(tops), Parents(t, video));
    forall c | c in Select(t, Replies(video)) ensures c.parent.value in Parents(t, video) {
      ParentListed(t, video, c);
    }
  }

  /** A reply to a reply is accepted, and then the header counts a comment that the listing's numbers leave out. */
  lemma NestedReplyNotShown(a: Comment, b: Comment, c: Comment)
    requires a.id != b.id && a.id != c.id && b.id != c.id && a.video == b.video == c.video
    requires a.parent == None && b.parent == Some(a.id) && c.parent == Some(b.id)
    ensures Run([a, b, c]) == [a, b, c] && !OneLevel([a, b, c], a.video)
  {
    hide Run, Select, Forest;
    NestedIsForest(a, b, c);
    ForestIsReachable([a, b, c]);
    NestedTop(a, b, c);
    assert c in Select([a, b, c], Replies(a.video));
  }

  lemma NestedIsForest(a: Comment, b: Comment, c: Comment)
    requires a.id != b.id && a.id != c.id && b.id != c.id && a.video == b.video == c.video
    requires a.parent == None && b.parent == Some(a.id) && c.parent == Some(b.id)
    ensures Forest([a, b, c])
  {
    hide Forest, Find;
    var t := [a, b, c];
    assert IsParent(t[0], t[1]) && IsParent(t[1], t[2]);
    ForestMeans(t);
  }

  lemma NestedTop(a: Comment, b: Comment, c: Comment)
    requires b.parent.Some? && c.parent.Some? && a.id != b.id
    ensures b.id !in Ids(Select([a, b, c], TopLevel(a.video)))
  {
    hide Select;
    var tops := Select([a, b, c], TopLevel(a.video));
    forall i | 0 <= i < |tops| ensures tops[i].id != b.id {
      assert tops[i] in tops;
    }
  }

  lemma {:induction false} ParentListed(t: Table, video: string, c: Comment)
    requires c in Select(t, Replies(video))
    ensures c.parent.value in Parents(t, video)
  {
    var n := |t| - 1;
    if c != t[n] {
      assert c in t[..n];
      ParentListed(t[..n], video, c);
    }
  }

  // ---------------------------------------------------------------- threads

  function Roots(t: Table, rows: Table): (r: seq<string>)
    ensures |r| == |rows| && forall i :: 0 <= i < |rows| ==> r[i] == Root(t, rows[i].id)
  {
    seq(|rows|, i requires 0 <= i < |rows| => Root(t, rows[i].id))
  }

  lemma {:induction false} InThreadIsCount(t: Table, rows: Table, top: string)
    ensures InThread(t, rows, top) == multiset(Roots(t, rows))[top]
  {
    if rows != [] {
      var n := |rows| - 1;
      InThreadIsCount(t, rows[..n], top);
      assert Roots(t, rows) == Roots(t, rows[..n]) + [Root(t, rows[n].id)];
    }
  }

  /** A thread lies on one video, so counting it there counts all of it. */
  lemma {:induction false} ThreadOnVideo(t: Table, rows: Table, video: string, top: string)
    requires forall c :: c in rows && Root(t, c.id) == top ==> c.video == video
    ensures InThread(t, rows, top) == InThread(t, Select(rows, AllOf(video)), top)
  {
    if rows != [] {
      var n := |rows| - 1;
      ThreadOnVideo(t, rows[..n], video, top);
      var r := Select(rows[..n], AllOf(video));
      if Matches(AllOf(video), rows[n]) {
        assert (r + [rows[n]])[..|r|] == r;
      } else {
        assert Select(rows, AllOf(video)) == r;
      }
    }
  }

  lemma ThreadStays(t: Table, top: Comment)
    requires Forest(t) && top in t
    ensures forall c :: c in t && Root(t, c.id) == top.id ==> c.video == top.video
  {
    ParentFound(t, top);
    forall c | c in t && Root(t, c.id) == top.id ensures c.video == top.video {
      ParentFound(t, c);
      var n := ChainReaches(t, c);
      UpFinds(t, c.id, n);
    }
  }

  lemma {:induction false} ThreadSizesTotal(t: Table, video: string, tops: Table)
    requires Forest(t) && forall c :: c in tops ==> c in t && c.video == video
    ensures ThreadSizes(t, Ids(tops)) == Total(Ids(tops), multiset(Roots(t, Select(t, AllOf(video)))))
  {
    if tops != [] {
      var n := |tops| - 1;
      ThreadSizesTotal(t, video, tops[..n]);
      assert Ids(tops)[..n] == Ids(tops[..n]);
      ThreadStays(t, tops[n]);
      ThreadOnVideo(t, t, video, tops[n].id);
      InThreadIsCount(t, Select(t, AllOf(video)), tops[n].id);
    }
  }

  /** In every reachable table: the threads of a video's top-level comments hold each of its comments exactly once. */
  lemma AllIsSumOfThreads(requests: seq<Comment>, video: string)
    ensures var t := Run(requests);
      |Select(t, AllOf(video))| == ThreadSizes(t, Ids(Select(t, TopLevel(video))))
  {
    var t := Run(requests);
    RunIsForest(requests);
    var tops, rows := Select(t, TopLevel(video)), Select(t, AllOf(video));
    ThreadSizesTotal(t, video, tops);
    DistinctIds(t, TopLevel(video));
    forall x | x in Roots(t, rows) ensures x in Ids(tops) {
      var i :| 0 <= i < |rows| && Root(t, rows[i].id) == x;
      assert rows[i] in rows;
      ParentFound(t, rows[i]);
      var n := ChainReaches(t, rows[i]);
      UpFinds(t, rows[i].id, n);
      RowListed(tops, Up(t, rows[i].id, n).value);
    }
    CoverTotal(Ids(tops), Roots(t, rows));
  }

  // ---------------------------------------------------------------- listing

  datatype Listed = Listed(comment: Comment, replyCount: nat)

  /** Newest first, each with its direct replies counted. */
  function Listing(t: Table, tops: Table): (r: seq<Listed>)
    ensures |r| == |tops|
    ensures forall i :: 0 <= i < |tops| ==>
      var c := tops[|tops| - 1 - i]; r[i] == Listed(c, |Select(t, RepliesTo(c.id))|)
  {
    if tops == [] then []
    else
      var n := |tops| - 1;
      [Listed(tops[n], |Select(t, RepliesTo(tops[n].id))|)] + Listing(t, tops[..n])
  }

  function ShownCounts(listed: seq<Listed>): nat {
    if listed == [] then 0 else 1 + listed[0].replyCount + ShownCounts(listed[1..])
  }

  lemma {:induction false} ShownCountsAre(t: Table, tops: Table)
    ensures ShownCounts(Listing(t, tops)) == |tops| + ReplyCounts(t, Ids(tops))
  {
    if tops != [] {
      var n := |tops| - 1;
      ShownCountsAre(t, tops[..n]);
      assert Ids(tops)[..n] == Ids(tops[..n]);
    }
  }

  /** Walking every page of the listing shows each top-level comment once, and adds up to the header total or not. */
  lemma CommentPages(requests: seq<Comment>, video: string, limit: nat)
    requires limit >= 1
    ensures var t := Run(requests);
      var tops := Select(t, TopLevel(video));
      var walked := FirstPages(Listing(t, tops), TotalPages(|tops|, limit), limit);
      walked == Listing(t, tops) && (ShownCounts(walked) == |Select(t, AllOf(video))| <==> OneLevel(t, video))
  {
    hide FirstPages, TotalPages, OneLevel;
    var t := Run(requests);
    var tops := Select(t, TopLevel(video));
    PagesPartition(Listing(t, tops), limit);
    ShownCountsAre(t, tops);
    ShownIsAllIff(requests, video);
  }

  // ---------------------------------------------------------------- limit and offset

  const WORD := 0x1_0000_0000_0000_0000
  const BIGINT := 0x8000_0000_0000_0000

  /** `uint64(limit)` and `uint64((page - 1) * limit)`; `None` where the database has no such number. */
  function Window(page: int, limit: int): Option<(nat, nat)> {
    var size, offset := limit % WORD, (page - 1) * limit % WORD;
    if size < BIGINT && offset < BIGINT then Some((size, offset)) else None
  }

  /** LIMIT and OFFSET. */
  function Cut<T>(all: seq<T>, size: nat, offset: nat): seq<T> {
    all[Min(offset, |all|)..Min(offset + size, |all|)]
  }

  datatype Page<T> = Page(data: seq<T>, total: nat, totalPages: nat)

  /**
   * For pages and limits from 1 on, as long as the offset is a number of the database, the window is the page; a page
   * before the first is refused, and a limit of 0 shows nothing.
   */
  lemma WindowIsPage<T>(all: seq<T>, page: int, limit: int)
    requires 0 <= limit < BIGINT && -BIGINT <= (page - 1) * limit < BIGINT
    ensures Window(page, limit).Some? <==> (page - 1) * limit >= 0
    ensures page >= 1 ==> Window(page, limit) == Some((limit, (page - 1) * limit))
    ensures page >= 1 && limit >= 1 ==> Cut(all, limit, (page - 1) * limit) == Paginate(all, page, limit)
    ensures page >= 1 && limit == 0 ==> Cut(all, limit, (page - 1) * limit) == []
  {
    var offset := (page - 1) * limit;
    Wraps(offset);
    Wraps(limit);
    if page >= 1 {
      NotNegative(page - 1, limit);
    }
  }

  lemma Wraps(x: int)
    requires -BIGINT <= x < BIGINT
    ensures x % WORD == if x >= 0 then x else x + WORD
  {
  }

  lemma NotNegative(a: nat, b: nat)
    ensures a * b >= 0
  {
  }

  // ---------------------------------------------------------------- which rows, in which order

  /** Positions of the table in the order of insertion. */
  predicate Rising(at: seq<nat>) {
    forall i, j :: 0 <= i < j < |at| ==> at[i] < at[j]
  }

  predicate Falling(at: seq<nat>) {
    forall i, j :: 0 <= i < j < |at| ==> at[i] > at[j]
  }

  /** `rows` are the rows of `t` at these positions. */
  predicate RowsAt(t: Table, at: seq<nat>, rows: Table) {
    |at| == |rows| && forall i :: 0 <= i < |at| ==> at[i] < |t| && t[at[i]] == rows[i]
  }

  /** `at` lists in order exactly the positions of the rows that match, and `rows` those rows. */
  predicate IsSelection(t: Table, q: Query, rows: Table, at: seq<nat>) {
    && Rising(at) && RowsAt(t, at, rows)
    && (forall i :: 0 <= i < |at| ==> Matches(q, t[at[i]]))
    && (forall j {:trigger j in at} :: 0 <= j < |t| && Matches(q, t[j]) ==> j in at)
  }

  lemma SelectionSkips(t: Table, c: Comment, q: Query, rows: Table, at: seq<nat>)
    requires IsSelection(t, q, rows, at) && !Matches(q, c)
    ensures IsSelection(t + [c], q, rows, at)
  {
  }

  lemma SelectionTakes(t: Table, c: Comment, q: Query, rows: Table, at: seq<nat>)
    requires IsSelection(t, q, rows, at) && Matches(q, c)
    ensures IsSelection(t + [c], q, rows + [c], at + [|t|])
  {
    var next, longer := t + [c], at + [|t|];
    forall j | 0 <= j < |next| && Matches(q, next[j]) ensures j in longer {
      if j < |t| {
        assert j in at;
      } else {
        assert longer[|at|] == j;
      }
    }
  }

  /** Selection keeps exactly the matching rows, each once, in the order of the table. */
  lemma {:induction false} SelectIsFilter(t: Table, q: Query) returns (at: seq<nat>)
    ensures IsSelection(t, q, Select(t, q), at)
  {
    at := [];
    if t != [] {
      hide IsSelection, Matches;
      var n := |t| - 1;
      at := SelectIsFilter(t[..n], q);
      assert t == t[..n] + [t[n]];
      var rows := Select(t[..n], q);
      if Matches(q, t[n]) {
        SelectionTakes(t[..n], t[n], q, rows, at);
        at := at + [n];
      } else {
        SelectionSkips(t[..n], t[n], q, rows, at);
        assert rows + [] == rows;
      }
    }
  }

  /**
   * A window of the replies to a comment is a window of exactly the rows whose parent it is, oldest first.
   */
  lemma RepliesOldestFirst(t: Table, parent: string, size: nat, offset: nat) returns (all: seq<nat>)
    ensures Rising(all)
    ensures forall j {:trigger j in all} :: 0 <= j < |t| ==> (j in all <==> t[j].parent == Some(parent))
    ensures RowsAt(t, Cut(all, size, offset), Cut(Select(t, RepliesTo(parent)), size, offset))
  {
    all := SelectIsFilter(t, RepliesTo(parent));
  }

  /** The positions of the rows whose parent is `id`. */
  function ReplyRows(t: Table, id: string): set<nat> {
    set j | 0 <= j < |t| && t[j].parent == Some(id)
  }

  function Positions(at: seq<nat>): set<nat> {
    set j | j in at
  }

  lemma {:induction false} PositionsCounted(at: seq<nat>)
    requires Rising(at)
    ensures |Positions(at)| == |at|
  {
    if at != [] {
      var n := |at| - 1;
      assert Rising(at[..n]);
      PositionsCounted(at[..n]);
      LastPosition(at);
    }
  }

  lemma LastPosition(at: seq<nat>)
    requires Rising(at) && at != []
    ensures var n := |at| - 1; Positions(at) == Positions(at[..n]) + {at[n]} && at[n] !in Positions(at[..n])
  {
    assert at == at[..|at| - 1] + [at[|at| - 1]];
  }

  lemma ReplyCountIs(t: Table, id: string)
    ensures |Select(t, RepliesTo(id))| == |ReplyRows(t, id)|
  {
    hide Select;
    var at := SelectIsFilter(t, RepliesTo(id));
    PositionsCounted(at);
    assert Positions(at) == ReplyRows(t, id);
  }

  function Backwards(at: seq<nat>): (r: seq<nat>)
    ensures |r| == |at| && forall i :: 0 <= i < |at| ==> r[i] == at[|at| - 1 - i]
  {
    seq(|at|, i requires 0 <= i < |at| => at[|at| - 1 - i])
  }

  lemma InBackwards(at: seq<nat>)
    ensures forall j {:trigger j in at} {:trigger j in Backwards(at)} :: j in Backwards(at) <==> j in at
  {
    forall j | j in at ensures j in Backwards(at) {
      var i :| 0 <= i < |at| && at[i] == j;
      assert Backwards(at)[|at| - 1 - i] == j;
    }
  }

  /**
   * A window of the comments on a video is a window of exactly its rows without a parent, newest first, each with the
   * number of rows whose parent it is.
   */
  lemma CommentsNewestFirst(t: Table, video: string, size: nat, offset: nat) returns (all: seq<nat>)
    ensures Falling(all)
    ensures forall j {:trigger j in all} :: 0 <= j < |t| ==> (j in all <==> t[j].video == video && t[j].parent == None)
    ensures var page, at := Cut(Listing(t, Select(t, TopLevel(video))), size, offset), Cut(all, size, offset);
      && |page| == |at|
      && forall i :: 0 <= i < |page| ==>
           at[i] < |t| && page[i] == Listed(t[at[i]], |ReplyRows(t, t[at[i]].id)|)
  {
    hide Select, ReplyRows, Listing;
    var tops := Select(t, TopLevel(video));
    var rising := SelectIsFilter(t, TopLevel(video));
    var listing := Listing(t, tops);
    all := Backwards(rising);
    InBackwards(rising);
    assert |listing| == |all|;
    forall i | 0 <= i < |all| ensures listing[i] == Listed(t[all[i]], |ReplyRows(t, t[all[i]].id)|) {
      ReplyCountIs(t, t[all[i]].id);
      assert all[i] == rising[|tops| - 1 - i];
    }
    var page, at := Cut(listing, size, offset), Cut(all, size, offset);
    forall i | 0 <= i < |page|
      ensures at[i] < |t| && page[i] == Listed(t[at[i]], |ReplyRows(t, t[at[i]].id)|)
    {
      assert page[i] == listing[Min(offset, |all|) + i] && at[i] == all[Min(offset, |all|) + i];
    }
  }

  // ---------------------------------------------------------------- the repository and the use case

  class Repo {
    var rows: Table

    constructor ()
      ensures rows == []
    {
      rows := [];
    }

    /** INSERT; `ok` is false when the primary key is taken. */
    method Store(c: Comment) returns (ok: bool)
      modifies this
      ensures ok <==> Find(old(rows), c.id) == None
      ensures rows == if ok then old(rows) + [c] else old(rows)
    {
      ok := Find(rows, c.id) == None;
      if ok {
        rows := rows + [c];
      }
    }

    /** The top-level rows of a video, newest first, from `offset` on and at most `limit` of them. */
    method ListByVideoID(video: string, limit: nat, offset: nat) returns (comments: seq<Listed>, total: nat)
      ensures var all := Listing(rows, Select(rows, TopLevel(video)));
        total == |all| && comments == all[Min(offset, total)..Min(offset + limit, total)]
    {
      hide Listing, Select;
      var tops := Select(rows, TopLevel(video));
      ghost var all := Listing(rows, tops);
      total := |tops|;
      comments := [];
      var i := Min(offset, total);
      while i < total && i < offset + limit
        invariant Min(offset, total) <= i <= Min(offset + limit, total)
        invariant comments == all[Min(offset, total)..i]
      {
        var c := tops[total - 1 - i];
        assert all[i] == Listed(c, |Select(rows, RepliesTo(c.id))|);
        comments := comments + [Listed(c, |Select(rows, RepliesTo(c.id))|)];
        i := i + 1;
      }
    }

    /** The direct replies to a comment, oldest first. */
    method ListRepliesByParentID(parent: string, limit: nat, offset: nat) returns (replies: seq<Comment>, total: nat)
      ensures var all := Select(rows, RepliesTo(parent));
        total == |all| && replies == all[Min(offset, total)..Min(offset + limit, total)]
    {
      var all := Select(rows, RepliesTo(parent));
      total := |all|;
      replies := [];
      var i := Min(offset, total);
      while i < total && i < offset + limit
        invariant Min(offset, total) <= i <= Min(offset + limit, total)
        invariant replies == all[Min(offset, total)..i]
      {
        replies := replies + [all[i]];
        i := i + 1;
      }
    }
  }

  class UseCase {
    const repo: Repo
    ghost var requests: seq<Comment>

    /** The table is what the requests so far have made of it. */
    ghost predicate Valid()
      reads this, repo
    {
      repo.rows == Run(requests)
    }

    constructor ()
      ensures Valid() && fresh(repo) && requests == []
    {
      repo := new Repo();
      requests := [];
    }

    /** `id` is the new UUID. */
    method CreateComment(video: string, user: string, content: string, parent: Option<string>, id: string)
      returns (r: Result<Comment, Error>)
      requires Valid()
      modifies this, repo
      ensures Valid() && requests == old(requests) + [Comment(id, video, user, content, parent)]
      ensures r.Ok? ==> r.value == Comment(id, video, user, content, parent) && repo.rows == old(repo.rows) + [r.value]
      ensures r.Err? ==> repo.rows == old(repo.rows)
      ensures r == Err(InvalidParentId) <==>
        parent.Some? && !exists p :: p in old(repo.rows) && p.id == parent.value && p.video == video
    {
      RunIsForest(requests);
      ghost var before := repo.rows;
      var c := Comment(id, video, user, content, parent);
      requests := requests + [c];
      assert requests[..|requests| - 1] == old(requests);
      if parent.Some? {
        var found := Find(repo.rows, parent.value);
        assert forall p :: p in before && p.id == parent.value ==> found == Some(p) by {
          forall p | p in before && p.id == parent.value ensures found == Some(p) {
            ParentFound(before, p);
          }
        }
        if found == None || found.value.video != video {
          return Err(InvalidParentId);
        }
      }
      var ok := repo.Store(c);
      return if ok then Ok(c) else Err(DuplicateId);
    }

    /** One page of the listing, and the total of all comments; the error is that of the list query. */
    method ListVideoComments(video: string, page: int, limit: int) returns (r: Result<(Page<Listed>, nat), Error>)
      ensures r == match Window(page, limit)
        case None => Err(QueryFailed)
        case Some((size, offset)) =>
          var all := Listing(repo.rows, Select(repo.rows, TopLevel(video)));
          Ok((Page(Cut(all, size, offset), |all|, TotalPages(|all|, limit)), |Select(repo.rows, AllOf(video))|))
    {
      hide Window, Listing, Select, TotalPages;
      var window := Window(page, limit);
      if window == None {
        return Err(QueryFailed);
      }
      var data, total := repo.ListByVideoID(video, window.value.0, window.value.1);
      var totalAll := |Select(repo.rows, AllOf(video))|;
      return Ok((Page(data, total, TotalPages(total, limit)), totalAll));
    }

    method ListReplies(parent: string, page: int, limit: int) returns (r: Result<Page<Comment>, Error>)
      ensures r == match Window(page, limit)
        case None => Err(QueryFailed)
        case Some((size, offset)) =>
          var all := Select(repo.rows, RepliesTo(parent));
          Ok(Page(Cut(all, size, offset), |all|, TotalPages(|all|, limit)))
    {
      hide Window, Listing, Select, TotalPages;
      var window := Window(page, limit);
      if window == None {
        return Err(QueryFailed);
      }
      var data, total := repo.ListRepliesByParentID(parent, window.value.0, window.value.1);
      return Ok(Page(data, total, TotalPages(total, limit)));
    }
  }
}
