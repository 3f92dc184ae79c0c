/**
 * Gradient descent in place on heap-allocated rows: the inner loops shared by the two trainers, and the index-matrix
 * trainer of internal/usecase/recommendation/recommendation.go.
 */
module Trainer {
  import opened Factorization

  // ---------------------------------------------------------------- one pair of rows

  /** The prediction loop: the dot product of two rows. */
  method DotRows(p: array<real>, q: array<real>) returns (pred: real)
    requires p.Length == q.Length
    ensures pred == Dot(p[..], q[..])
  {
    pred := 0.0;
    for f := 0 to p.Length
      invariant pred == Dot(p[..f], q[..f])
    {
      assert p[..f + 1][..f] == p[..f] && q[..f + 1][..f] == q[..f];
      pred := pred + p[f] * q[f];
    }
    assert p[..p.Length] == p[..] && q[..q.Length] == q[..];
  }

  /** The factor loop: updating in place computes both new rows from the old ones. */
  method UpdateRows(p: array<real>, q: array<real>, rates: Rates, e: real)
    requires p.Length == q.Length && p != q
    modifies p, q
    ensures p[..] == Updated(old(p[..]), old(q[..]), rates, e)
    ensures q[..] == Updated(old(q[..]), old(p[..]), rates, e)
  {
    hide UpdatedEntry;
    for f := 0 to p.Length
      invariant forall i :: 0 <= i < f ==> p[i] == UpdatedEntry(old(p[i]), old(q[i]), rates, e)
      invariant forall i :: 0 <= i < f ==> q[i] == UpdatedEntry(old(q[i]), old(p[i]), rates, e)
      invariant forall i :: f <= i < p.Length ==> p[i] == old(p[i]) && q[i] == old(q[i])
    {
      var pOld, qOld := p[f], q[f];
      p[f] := UpdatedEntry(pOld, qOld, rates, e);
      q[f] := UpdatedEntry(qOld, pOld, rates, e);
    }
  }

  /** One interaction on the rows of its user and its video. */
  method LearnRows(p: array<real>, q: array<real>, rating: real, rates: Rates)
    requires p.Length == q.Length && p != q
    modifies p, q
    ensures var e := Error(rates, rating, Dot(old(p[..]), old(q[..])));
      && p[..] == Updated(old(p[..]), old(q[..]), rates, e)
      && q[..] == Updated(old(q[..]), old(p[..]), rates, e)
  {
    var pred := DotRows(p, q);
    UpdateRows(p, q, rates, Error(rates, rating, pred));
  }

  // ---------------------------------------------------------------- rows behind ids

  type Table = map<string, array<real>>

  /** No two ids of either table share a row, and all rows have `k` entries. */
  ghost predicate Separate(users: Table, videos: Table, k: nat) {
    && (forall a :: a in users ==> users[a].Length == k)
    && (forall a :: a in videos ==> videos[a].Length == k)
    && (forall a, b :: a in users && b in users && a != b ==> users[a] != users[b])
    && (forall a, b :: a in videos && b in videos && a != b ==> videos[a] != videos[b])
    && (forall a, b :: a in users && b in videos ==> users[a] != videos[b])
  }

  /** The vectors the two tables hold. */
  ghost function Contents(users: Table, videos: Table): Factors
    reads users.Values, videos.Values
  {
    Factors(map id | id in users :: users[id][..], map id | id in videos :: videos[id][..])
  }

  /** One interaction moves the rows `p` and `q` of the ids it names and no other. */
  method LearnKeyed(p: array<real>, q: array<real>, ghost users: Table, ghost videos: Table, ghost k: nat,
                    x: Interaction, rates: Rates)
    requires Separate(users, videos, k) && x.user in users && x.video in videos
    requires users[x.user] == p && videos[x.video] == q
    modifies users.Values, videos.Values
    ensures Contents(users, videos) == Learn(old(Contents(users, videos)), k, x, rates)
  {
    hide Dot, Updated, Error;
    ghost var before := Contents(users, videos);
    LearnRows(p, q, x.rating, rates);
    ghost var after := Learn(before, k, x, rates);
    assert Contents(users, videos).users == after.users;
    assert Contents(users, videos).videos == after.videos;
  }

  lemma ContentsShaped(users: Table, videos: Table, k: nat)
    requires Separate(users, videos, k)
    ensures Shaped(Contents(users, videos), k)
    ensures Contents(users, videos).users.Keys == users.Keys && Contents(users, videos).videos.Keys == videos.Keys
  {
  }

  predicate Known(users: set<string>, videos: set<string>, xs: seq<Interaction>) {
    forall i :: 0 <= i < |xs| ==> xs[i].user in users && xs[i].video in videos
  }

  /** One epoch. */
  method TrainEpoch(users: Table, videos: Table, ghost k: nat, xs: seq<Interaction>, rates: Rates)
    requires Separate(users, videos, k) && Known(users.Keys, videos.Keys, xs)
    modifies users.Values, videos.Values
    ensures old(Shaped(Contents(users, videos), k) && Covers(Contents(users, videos), xs))
    ensures Contents(users, videos) == LearnAll(old(Contents(users, videos)), k, xs, rates)
  {
    hide Learn, LearnAll, Contents, Separate, Shaped;
    ghost var before := Contents(users, videos);
    ContentsShaped(users, videos, k);
    LearnNothing(before, k, xs, rates);
    for n := 0 to |xs|
      invariant Covers(before, xs[..n])
      invariant Contents(users, videos) == LearnAll(before, k, xs[..n], rates)
    {
      LearnOneMore(before, k, xs, rates, n);
      LearnKeyed(users[xs[n].user], videos[xs[n].video], users, videos, k, xs[n], rates);
    }
    assert xs[..|xs|] == xs;
  }

  /** The epoch loop. */
  method TrainRows(users: Table, videos: Table, ghost k: nat, xs: seq<Interaction>, rates: Rates, epochs: nat)
    requires Separate(users, videos, k) && Known(users.Keys, videos.Keys, xs)
    modifies users.Values, videos.Values
    ensures old(Shaped(Contents(users, videos), k) && Covers(Contents(users, videos), xs))
    ensures Contents(users, videos) == Epochs(old(Contents(users, videos)), k, xs, rates, epochs)
  {
    hide LearnAll, Contents, Separate;
    ghost var start := Contents(users, videos);
    ContentsShaped(users, videos, k);
    for epoch := 0 to epochs
      invariant Contents(users, videos) == Epochs(start, k, xs, rates, epoch)
    {
      TrainEpoch(users, videos, k, xs, rates);
    }
  }

  // ---------------------------------------------------------------- indexing ids

  function Users(xs: seq<Interaction>): set<string> {
    if xs == [] then {} else Users(xs[..|xs| - 1]) + {xs[|xs| - 1].user}
  }

  function Videos(xs: seq<Interaction>): set<string> {
    if xs == [] then {} else Videos(xs[..|xs| - 1]) + {xs[|xs| - 1].video}
  }

  lemma {:induction false} InteractionIds(xs: seq<Interaction>)
    ensures forall i :: 0 <= i < |xs| ==> xs[i].user in Users(xs) && xs[i].video in Videos(xs)
  {
    if xs != [] {
      InteractionIds(xs[..|xs| - 1]);
    }
  }

  /** No other ids: each one is that of an interaction. */
  lemma {:induction false} UserOccurs(xs: seq<Interaction>, id: string) returns (i: nat)
    requires id in Users(xs)
    ensures i < |xs| && xs[i].user == id
  {
    i := |xs| - 1;
    if xs[i].user != id {
      i := UserOccurs(xs[..i], id);
    }
  }

  lemma {:induction false} VideoOccurs(xs: seq<Interaction>, id: string) returns (i: nat)
    requires id in Videos(xs)
    ensures i < |xs| && xs[i].video == id
  {
    i := |xs| - 1;
    if xs[i].video != id {
      i := VideoOccurs(xs[..i], id);
    }
  }

  /** `index` is a bijection onto 0..n-1 whose inverse is `ids`. */
  ghost predicate IsIndex(index: map<string, nat>, ids: seq<string>) {
    && |ids| == |index|
    && (forall i :: 0 <= i < |ids| ==> ids[i] in index && index[ids[i]] == i)
    && (forall id :: id in index ==> index[id] < |ids| && ids[index[id]] == id)
  }

  /** One turn of the indexing loop. */
  method IndexId(index: map<string, nat>, ghost ids: seq<string>, id: string)
    returns (index': map<string, nat>, ghost ids': seq<string>)
    requires IsIndex(index, ids)
    ensures IsIndex(index', ids') && index'.Keys == index.Keys + {id}
  {
    index', ids' := index, ids;
    if id !in index {
      index' := index[id := |index|];
      ids' := ids + [id];
    }
  }

  /** Numbering users and videos in the order in which they first occur. */
  method IndexIds(xs: seq<Interaction>)
    returns (userMap: map<string, nat>, videoMap: map<string, nat>, ghost users: seq<string>, ghost videos: seq<string>)
    ensures IsIndex(userMap, users) && IsIndex(videoMap, videos)
    ensures userMap.Keys == Users(xs) && videoMap.Keys == Videos(xs)
  {
    hide IsIndex;
    userMap, videoMap, users, videos := map[], map[], [], [];
    assert IsIndex(userMap, users) && IsIndex(videoMap, videos) by {
      NothingIndexed();
    }
    assert xs[..0] == [];
    for n := 0 to |xs|
      invariant IsIndex(userMap, users) && IsIndex(videoMap, videos)
      invariant userMap.Keys == Users(xs[..n]) && videoMap.Keys == Videos(xs[..n])
    {
      assert xs[..n + 1][..n] == xs[..n];
      userMap, users := IndexId(userMap, users, xs[n].user);
      videoMap, videos := IndexId(videoMap, videos, xs[n].video);
    }
    assert xs[..|xs|] == xs;
  }

  lemma NothingIndexed()
    ensures IsIndex(map[], [])
  {
  }

  /** `n` fresh rows of `k` small values; `draw` stands for the random source. */
  method InitRows(n: nat, k: nat, draw: (nat, nat) -> real) returns (rows: seq<array<real>>)
    requires forall i, f :: 0.0 <= draw(i, f) < 1.0
    ensures |rows| == n && fresh(rows)
    ensures forall i :: 0 <= i < n ==> rows[i].Length == k && VecWithin(rows[i][..], 0.1)
    ensures forall i, f :: 0 <= i < n && 0 <= f < k ==> rows[i][f] == draw(i, f) * 0.1
    ensures forall i, j :: 0 <= i < j < n ==> rows[i] != rows[j]
  {
    rows := [];
    for i := 0 to n
      invariant |rows| == i && fresh(rows)
      invariant forall a :: 0 <= a < i ==> rows[a].Length == k && VecWithin(rows[a][..], 0.1)
      invariant forall a, f :: 0 <= a < i && 0 <= f < k ==> rows[a][f] == draw(a, f) * 0.1
      invariant forall a, b :: 0 <= a < b < i ==> rows[a] != rows[b]
    {
      var row := new real[k];
      for f := 0 to k
        modifies row
        invariant forall g :: 0 <= g < f ==> row[g] == draw(i, g) * 0.1 && Abs(row[g]) <= 0.1
      {
        row[f] := draw(i, f) * 0.1;
      }
      rows := rows + [row];
    }
  }

  predicate Indexes(rows: seq<array<real>>, index: map<string, nat>) {
    forall id :: id in index ==> index[id] < |rows|
  }

  /** The rows of a matrix by id. */
  function Keyed(rows: seq<array<real>>, index: map<string, nat>): Table
    requires Indexes(rows, index)
  {
    map id | id in index :: rows[index[id]]
  }

  /** A matrix of fresh rows for the ids of an index. */
  method InitMatrix(index: map<string, nat>, ghost ids: seq<string>, k: nat, draw: (nat, nat) -> real)
    returns (rows: seq<array<real>>)
    requires IsIndex(index, ids)
    requires forall i, f :: 0.0 <= draw(i, f) < 1.0
    ensures Indexes(rows, index) && fresh(Keyed(rows, index).Values)
    ensures var table := Keyed(rows, index);
      && (forall a :: a in table ==> table[a].Length == k && VecWithin(table[a][..], 0.1))
      && (forall a, f :: a in index && 0 <= f < k ==> table[a][f] == draw(index[a], f) * 0.1)
      && (forall a, b :: a in table && b in table && a != b ==> table[a] != table[b])
  {
    hide VecWithin;
    rows := InitRows(|index|, k, draw);
  }

  /** The epoch of the matrix trainer: rows are reached through the index maps. */
  method TrainIndexedEpoch(P: seq<array<real>>, Q: seq<array<real>>,
                           userMap: map<string, nat>, videoMap: map<string, nat>,
                           ghost users: Table, ghost videos: Table, ghost k: nat,
                           xs: seq<Interaction>, rates: Rates)
    requires Indexes(P, userMap) && Indexes(Q, videoMap)
    requires users == Keyed(P, userMap) && videos == Keyed(Q, videoMap)
    requires Separate(users, videos, k) && Known(users.Keys, videos.Keys, xs)
    modifies users.Values, videos.Values
    ensures old(Shaped(Contents(users, videos), k) && Covers(Contents(users, videos), xs))
    ensures Contents(users, videos) == LearnAll(old(Contents(users, videos)), k, xs, rates)
  {
    hide Learn, LearnAll, Contents, Separate, Shaped;
    ghost var before := Contents(users, videos);
    ContentsShaped(users, videos, k);
    LearnNothing(before, k, xs, rates);
    for n := 0 to |xs|
      invariant Covers(before, xs[..n])
      invariant Contents(users, videos) == LearnAll(before, k, xs[..n], rates)
    {
      LearnOneMore(before, k, xs, rates, n);
      var uIdx, vIdx := userMap[xs[n].user], videoMap[xs[n].video];
      LearnKeyed(P[uIdx], Q[vIdx], users, videos, k, xs[n], rates);
    }
    assert xs[..|xs|] == xs;
  }

  /** The epoch loop of the matrix trainer. */
  method TrainIndexed(P: seq<array<real>>, Q: seq<array<real>>, userMap: map<string, nat>, videoMap: map<string, nat>,
                      ghost users: Table, ghost videos: Table, ghost k: nat,
                      xs: seq<Interaction>, rates: Rates, epochs: nat)
    requires Indexes(P, userMap) && Indexes(Q, videoMap)
    requires users == Keyed(P, userMap) && videos == Keyed(Q, videoMap)
    requires Separate(users, videos, k) && Known(users.Keys, videos.Keys, xs)
    modifies users.Values, videos.Values
    ensures old(Shaped(Contents(users, videos), k) && Covers(Contents(users, videos), xs))
    ensures Contents(users, videos) == Epochs(old(Contents(users, videos)), k, xs, rates, epochs)
  {
    hide LearnAll, Contents, Separate, Keyed, Indexes;
    ghost var start := Contents(users, videos);
    ContentsShaped(users, videos, k);
    for epoch := 0 to epochs
      invariant Contents(users, videos) == Epochs(start, k, xs, rates, epoch)
    {
      TrainIndexedEpoch(P, Q, userMap, videoMap, users, videos, k, xs, rates);
    }
  }

  /** Index the ids and allocate their rows. */
  method SetUp(xs: seq<Interaction>, k: nat, drawP: (nat, nat) -> real, drawQ: (nat, nat) -> real)
    returns (P: seq<array<real>>, Q: seq<array<real>>, userMap: map<string, nat>, videoMap: map<string, nat>)
    requires forall i, f :: 0.0 <= drawP(i, f) < 1.0
    requires forall i, f :: 0.0 <= drawQ(i, f) < 1.0
    ensures Indexes(P, userMap) && Indexes(Q, videoMap) && userMap.Keys == Users(xs) && videoMap.Keys == Videos(xs)
    ensures var users, videos := Keyed(P, userMap), Keyed(Q, videoMap);
      && fresh(users.Values) && fresh(videos.Values) && Separate(users, videos, k)
      && Within(Contents(users, videos), 0.1)
  {
    hide VecWithin, IsIndex;
    ghost var userIds, videoIds;
    userMap, videoMap, userIds, videoIds := IndexIds(xs);
    P := InitMatrix(userMap, userIds, k, drawP);
    ghost var users := Keyed(P, userMap);
    Q := InitMatrix(videoMap, videoIds, k, drawQ);
    ghost var videos := Keyed(Q, videoMap);
    forall a, b | a in users && b in videos ensures users[a] != videos[b] {
      assert users[a] in users.Values && videos[b] in videos.Values;
    }
  }

  /**
   * `train`, from indexing to publishing: training the matrices P and Q through the index maps gives each id the vector
   * of the id-keyed descent.
   */
  method TrainMatrices(xs: seq<Interaction>, k: nat, rates: Rates, epochs: nat,
                       drawP: (nat, nat) -> real, drawQ: (nat, nat) -> real)
    returns (users: Table, videos: Table, ghost start: Factors)
    requires forall i, f :: 0.0 <= drawP(i, f) < 1.0
    requires forall i, f :: 0.0 <= drawQ(i, f) < 1.0
    ensures users.Keys == Users(xs) && videos.Keys == Videos(xs)
    ensures fresh(users.Values) && fresh(videos.Values) && Separate(users, videos, k)
    ensures Shaped(start, k) && Covers(start, xs) && Within(start, 0.1)
    ensures Contents(users, videos) == Epochs(start, k, xs, rates, epochs)
  {
    hide Contents, Separate, Within, Keyed, Users, Videos, Epochs;
    var P, Q, userMap, videoMap := SetUp(xs, k, drawP, drawQ);
    KeyedKeys(P, userMap);
    KeyedKeys(Q, videoMap);
    users, videos := Keyed(P, userMap), Keyed(Q, videoMap);
    start := Contents(users, videos);
    InteractionIds(xs);
    TrainIndexed(P, Q, userMap, videoMap, users, videos, k, xs, rates, epochs);
  }

  lemma KeyedKeys(rows: seq<array<real>>, index: map<string, nat>)
    requires Indexes(rows, index)
    ensures Keyed(rows, index).Keys == index.Keys
  {
  }
}
