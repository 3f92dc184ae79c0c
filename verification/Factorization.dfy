/**
 * Matrix factorization by stochastic gradient descent, on vectors keyed by user and video id, in exact real
 * arithmetic: what one training pass computes, whichever way the rows are stored.
 */
module Factorization {
  import opened Wrappers

  type Vec = seq<real>

  datatype Interaction = Interaction(user: string, video: string, rating: real)

  datatype Factors = Factors(users: map<string, Vec>, videos: map<string, Vec>)

  /** Learning rate, regularization, and the bound the error is clamped to, if any. */
  datatype Rates = Rates(gamma: real, lambda: real, limit: Option<real>)

  /** `clampFloat`. */
  function Clamp(v: real, lo: real, hi: real): (r: real)
    requires lo <= hi
    ensures lo <= r <= hi
    ensures lo <= v <= hi ==> r == v
    ensures v <= lo ==> r == lo
    ensures v >= hi ==> r == hi
  {
    if v < lo then lo else if v > hi then hi else v
  }

  function Mul(x: real, y: real): real {
    x * y
  }

  function Dot(p: Vec, q: Vec): real
    requires |p| == |q|
  {
    if p == [] then 0.0 else Dot(p[..|p| - 1], q[..|q| - 1]) + Mul(p[|p| - 1], q[|q| - 1])
  }

  function Error(rates: Rates, rating: real, pred: real): real {
    match rates.limit
    case None => rating - pred
    case Some(l) => if l < 0.0 then 0.0 else Clamp(rating - pred, -l, l)
  }

  function UpdatedEntry(x: real, y: real, rates: Rates, e: real): real {
    x + rates.gamma * (e * y - rates.lambda * x)
  }

  /** The row `p` after one update against row `q`. */
  function Updated(p: Vec, q: Vec, rates: Rates, e: real): (r: Vec)
    requires |p| == |q|
    ensures |r| == |p|
    ensures forall i :: 0 <= i < |p| ==> r[i] == UpdatedEntry(p[i], q[i], rates, e)
  {
    if p == [] then []
    else
      var n := |p| - 1;
      Updated(p[..n], q[..n], rates, e) + [UpdatedEntry(p[n], q[n], rates, e)]
  }

  /** Every vector has `k` entries. */
  predicate Shaped(f: Factors, k: nat) {
    && (forall id :: id in f.users ==> |f.users[id]| == k)
    && (forall id :: id in f.videos ==> |f.videos[id]| == k)
  }

  predicate Covers(f: Factors, xs: seq<Interaction>) {
    forall i :: 0 <= i < |xs| ==> xs[i].user in f.users && xs[i].video in f.videos
  }

  /** One interaction: both rows move at once, from their old values. */
  function Learn(f: Factors, k: nat, x: Interaction, rates: Rates): (r: Factors)
    requires Shaped(f, k) && x.user in f.users && x.video in f.videos
    ensures Shaped(r, k) && r.users.Keys == f.users.Keys && r.videos.Keys == f.videos.Keys
  {
    var p, q := f.users[x.user], f.videos[x.video];
    var e := Error(rates, x.rating, Dot(p, q));
    Factors(f.users[x.user := Updated(p, q, rates, e)], f.videos[x.video := Updated(q, p, rates, e)])
  }

  /** One epoch: the interactions in order. */
  function LearnAll(f: Factors, k: nat, xs: seq<Interaction>, rates: Rates): (r: Factors)
    requires Shaped(f, k) && Covers(f, xs)
    ensures Shaped(r, k) && r.users.Keys == f.users.Keys && r.videos.Keys == f.videos.Keys
  {
    if xs == [] then f
    else Learn(LearnAll(f, k, xs[..|xs| - 1], rates), k, xs[|xs| - 1], rates)
  }

  lemma LearnNothing(f: Factors, k: nat, xs: seq<Interaction>, rates: Rates)
    requires Shaped(f, k) && Covers(f, xs)
    ensures Covers(f, xs[..0]) && LearnAll(f, k, xs[..0], rates) == f && xs[..|xs|] == xs
  {
  }

  lemma LearnOneMore(f: Factors, k: nat, xs: seq<Interaction>, rates: Rates, n: nat)
    requires Shaped(f, k) && Covers(f, xs) && n < |xs|
    ensures Covers(f, xs[..n]) && Covers(f, xs[..n + 1])
    ensures LearnAll(f, k, xs[..n + 1], rates) == Learn(LearnAll(f, k, xs[..n], rates), k, xs[n], rates)
  {
    hide Learn;
    assert xs[..n + 1][..n] == xs[..n];
  }

  function Epochs(f: Factors, k: nat, xs: seq<Interaction>, rates: Rates, n: nat): (r: Factors)
    requires Shaped(f, k) && Covers(f, xs)
    ensures Shaped(r, k) && r.users.Keys == f.users.Keys && r.videos.Keys == f.videos.Keys
  {
    if n == 0 then f else LearnAll(Epochs(f, k, xs, rates, n - 1), k, xs, rates)
  }

  // ---------------------------------------------------------------- the product after an update

  /** The coefficient of the row itself in its update: 1 - gamma lambda. */
  function Keep(rates: Rates): real {
    1.0 - rates.gamma * rates.lambda
  }

  /** The coefficient of the other row: gamma e. */
  function Pull(rates: Rates, e: real): real {
    rates.gamma * e
  }

  function Combine(a: real, b: real, x: real, y: real): real {
    a * x + b * y
  }

  /** (a^2 + b^2) pq + ab squares: the new product as a function of the old ones. */
  function NewProduct(a: real, b: real, pq: real, squares: real): real {
    (a * a + b * b) * pq + a * b * squares
  }

  lemma ProductOfEntries(a: real, b: real, x: real, y: real)
    ensures Mul(Combine(a, b, x, y), Combine(a, b, y, x)) == NewProduct(a, b, Mul(x, y), Mul(x, x) + Mul(y, y))
  {
    var u, v := a * x, b * y;
    var s, t := a * y, b * x;
    assert (u + v) * (s + t) == u * s + u * t + v * s + v * t;
    assert u * s == a * a * (x * y);
    assert u * t == a * b * (x * x);
    assert v * s == a * b * (y * y);
    assert v * t == b * b * (x * y);
  }

  lemma NewProductAdds(a: real, b: real, d: real, n: real, dx: real, nx: real)
    ensures NewProduct(a, b, d + dx, n + nx) == NewProduct(a, b, d, n) + NewProduct(a, b, dx, nx)
  {
    var c, m := a * a + b * b, a * b;
    assert c * (d + dx) == c * d + c * dx;
    assert m * (n + nx) == m * n + m * nx;
  }

  lemma EntryIsCombination(x: real, y: real, rates: Rates, e: real)
    ensures UpdatedEntry(x, y, rates, e) == Combine(Keep(rates), Pull(rates, e), x, y)
  {
    var g, l := rates.gamma, rates.lambda;
    assert g * (e * y - l * x) == g * (e * y) - g * (l * x);
    assert g * (e * y) == g * e * y;
    assert g * (l * x) == g * l * x;
  }

  /** The product of two updated entries, given the product of the entries before them. */
  lemma EntriesExtendProduct(rates: Rates, e: real, d: real, n: real, x: real, y: real)
    ensures NewProduct(Keep(rates), Pull(rates, e), d, n)
              + Mul(UpdatedEntry(x, y, rates, e), UpdatedEntry(y, x, rates, e))
         == NewProduct(Keep(rates), Pull(rates, e), d + Mul(x, y), n + (Mul(x, x) + Mul(y, y)))
  {
    hide UpdatedEntry, NewProduct, Combine, Mul, Keep, Pull;
    var a, b := Keep(rates), Pull(rates, e);
    EntryIsCombination(x, y, rates, e);
    EntryIsCombination(y, x, rates, e);
    ProductOfEntries(a, b, x, y);
    NewProductAdds(a, b, d, n, Mul(x, y), Mul(x, x) + Mul(y, y));
  }

  /**
   * After an update with error `e` the new prediction is, over the old rows,
   * ((1 - gl)^2 + (ge)^2) P.Q + (1 - gl) ge (|P|^2 + |Q|^2).
   */
  lemma {:induction false} UpdatedProduct(p: Vec, q: Vec, rates: Rates, e: real)
    requires |p| == |q|
    ensures Dot(Updated(p, q, rates, e), Updated(q, p, rates, e))
         == NewProduct(Keep(rates), Pull(rates, e), Dot(p, q), Dot(p, p) + Dot(q, q))
  {
    hide UpdatedEntry, Keep, Pull, Mul;
    if p == [] {
      assert NewProduct(Keep(rates), Pull(rates, e), 0.0, 0.0) == 0.0;
    } else {
      hide NewProduct, Dot, Updated;
      var n := |p| - 1;
      var p0, q0, x, y := p[..n], q[..n], p[n], q[n];
      UpdatedProduct(p0, q0, rates, e);
      var p', q' := Updated(p, q, rates, e), Updated(q, p, rates, e);
      DotLast(p', q');
      DotLast(p, q);
      DotLast(p, p);
      DotLast(q, q);
      assert p'[..n] == Updated(p0, q0, rates, e) && q'[..n] == Updated(q0, p0, rates, e);
      EntriesExtendProduct(rates, e, Dot(p0, q0), Dot(p0, p0) + Dot(q0, q0), x, y);
      assert Dot(p, p) + Dot(q, q) == Dot(p0, p0) + Dot(q0, q0) + (Mul(x, x) + Mul(y, y));
    }
  }

  lemma DotLast(p: Vec, q: Vec)
    requires |p| == |q| > 0
    ensures var n := |p| - 1; Dot(p, q) == Dot(p[..n], q[..n]) + Mul(p[n], q[n])
  {
  }

  /** One more pair of entries adds its product. */
  lemma DotGrows(p: Vec, q: Vec, x: real, y: real)
    ensures Dot([], []) == 0.0
    ensures |p| == |q| ==> Dot(p + [x], q + [y]) == Dot(p, q) + x * y
  {
    if |p| == |q| {
      assert (p + [x])[..|p|] == p && (q + [y])[..|q|] == q;
    }
  }

  /** The error an update works with: rating minus prediction, or the nearer bound where that is out of bounds. */
  predicate IsError(e: real, rating: real, pred: real, limit: Option<real>) {
    match limit
    case None => e == rating - pred
    case Some(l) =>
      && (-l <= rating - pred <= l ==> e == rating - pred)
      && (rating - pred < -l ==> e == -l)
      && (rating - pred > l ==> e == l)
  }

  /**
   * What one interaction does to all factors: each entry x of the user's row, beside y of the video's, becomes
   * x + g (e y - l x), and likewise the other way round; no other row changes.
   */
  lemma LearnMovesEntries(f: Factors, k: nat, x: Interaction, rates: Rates) returns (e: real)
    requires Shaped(f, k) && x.user in f.users && x.video in f.videos
    requires rates.limit.Some? ==> rates.limit.value >= 0.0
    ensures var p, q, r := f.users[x.user], f.videos[x.video], Learn(f, k, x, rates);
      && IsError(e, x.rating, Dot(p, q), rates.limit)
      && (forall i :: 0 <= i < k ==>
            && r.users[x.user][i] == p[i] + rates.gamma * (e * q[i] - rates.lambda * p[i])
            && r.videos[x.video][i] == q[i] + rates.gamma * (e * p[i] - rates.lambda * q[i]))
      && (forall id :: id in f.users && id != x.user ==> r.users[id] == f.users[id])
      && (forall id :: id in f.videos && id != x.video ==> r.videos[id] == f.videos[id])
  {
    hide Dot, Updated;
    e := Error(rates, x.rating, Dot(f.users[x.user], f.videos[x.video]));
  }

  /** The new product with its coefficients written out. */
  lemma NewProductIs(rates: Rates, e: real, pq: real, squares: real)
    ensures var a, b := 1.0 - rates.gamma * rates.lambda, rates.gamma * e;
      NewProduct(Keep(rates), Pull(rates, e), pq, squares) == (a * a + b * b) * pq + a * b * squares
  {
  }

  /** The identity for the pair: the new prediction as a function of the old rows. */
  lemma LearnMovesOnePair(f: Factors, k: nat, x: Interaction, rates: Rates) returns (e: real)
    requires Shaped(f, k) && x.user in f.users && x.video in f.videos
    requires rates.limit.Some? ==> rates.limit.value >= 0.0
    ensures var p, q, r := f.users[x.user], f.videos[x.video], Learn(f, k, x, rates);
      var a, b := 1.0 - rates.gamma * rates.lambda, rates.gamma * e;
      && IsError(e, x.rating, Dot(p, q), rates.limit)
      && Dot(r.users[x.user], r.videos[x.video])
           == (a * a + b * b) * Dot(p, q) + a * b * (Dot(p, p) + Dot(q, q))
  {
    hide Dot, Updated, NewProduct, Keep, Pull;
    var p, q := f.users[x.user], f.videos[x.video];
    e := Error(rates, x.rating, Dot(p, q));
    UpdatedProduct(p, q, rates, e);
    NewProductIs(rates, e, Dot(p, q), Dot(p, p) + Dot(q, q));
  }

  /** Two reals of which the first is nearer to zero. */
  predicate Nearer(a: real, b: real) {
    -Abs(b) < a < Abs(b)
  }

  /** The factor by which a step without regularization changes an error d, for the prediction c and the squares n. */
  function ErrorFactor(g: real, d: real, c: real, n: real): real {
    1.0 - g * n - g * g * d * c
  }

  lemma ErrorScaled(rates: Rates, d: real, rating: real, c: real, n: real)
    requires d == rating - c && rates.lambda == 0.0
    ensures rating - NewProduct(Keep(rates), Pull(rates, d), c, n) == Mul(d, ErrorFactor(rates.gamma, d, c, n))
  {
    var g, b := rates.gamma, rates.gamma * d;
    assert Keep(rates) == 1.0 by {
      assert g * rates.lambda == 0.0;
    }
    assert NewProduct(1.0, b, c, n) == (1.0 + b * b) * c + b * n;
    assert (1.0 + b * b) * c == c + b * b * c;
    assert b * b * c == d * (g * g * d * c);
    assert b * n == d * (g * n);
  }

  lemma ScaledNearer(d: real, m: real)
    requires d != 0.0
    ensures Nearer(Mul(d, m), d) <==> -1.0 < m < 1.0
  {
    if d > 0.0 {
      assert m < 1.0 <==> d * m < d;
      assert -1.0 < m <==> -d < d * m;
    } else {
      assert m < 1.0 <==> d * m > d;
      assert -1.0 < m <==> d * m < -d;
    }
  }

  /**
   * One step without regularization and within the clamp turns the error d into d (1 - g n - g^2 d c), for the
   * prediction c and the sum n of the squared lengths; so the prediction comes nearer to the rating exactly when that
   * factor is between -1 and 1.
   */
  lemma StepTowardsRating(f: Factors, k: nat, x: Interaction, rates: Rates)
    requires Shaped(f, k) && x.user in f.users && x.video in f.videos && rates.lambda == 0.0
    requires var d := x.rating - Dot(f.users[x.user], f.videos[x.video]);
      d != 0.0 && (rates.limit.Some? ==> -rates.limit.value <= d <= rates.limit.value)
    ensures var p, q, r := f.users[x.user], f.videos[x.video], Learn(f, k, x, rates);
      var c, n := Dot(p, q), Dot(p, p) + Dot(q, q);
      var d, d' := x.rating - c, x.rating - Dot(r.users[x.user], r.videos[x.video]);
      var m := ErrorFactor(rates.gamma, d, c, n);
      d' == Mul(d, m) && (Nearer(d', d) <==> -1.0 < m < 1.0)
  {
    hide Dot, Updated, Nearer, NewProduct, Keep, Pull, ErrorFactor, Mul;
    var p, q := f.users[x.user], f.videos[x.video];
    var c, n := Dot(p, q), Dot(p, p) + Dot(q, q);
    var d := x.rating - c;
    assert Error(rates, x.rating, c) == d;
    UpdatedProduct(p, q, rates, d);
    ErrorScaled(rates, d, x.rating, c, n);
    ScaledNearer(d, ErrorFactor(rates.gamma, d, c, n));
  }

  // ---------------------------------------------------------------- whole passes are made of single steps

  /** A list of interactions is its parts one after the other. */
  lemma {:induction false} LearnAllConcat(f: Factors, k: nat, xs: seq<Interaction>, ys: seq<Interaction>, rates: Rates)
    requires Shaped(f, k) && Covers(f, xs) && Covers(f, ys)
    ensures Covers(f, xs + ys) && Covers(LearnAll(f, k, xs, rates), ys)
    ensures LearnAll(f, k, xs + ys, rates) == LearnAll(LearnAll(f, k, xs, rates), k, ys, rates)
    decreases |ys|
  {
    hide Learn, LearnAll, Shaped;
    var mid := LearnAll(f, k, xs, rates);
    assert Covers(f, xs + ys) && Covers(mid, ys);
    if ys == [] {
      assert xs + ys == xs;
      LearnNone(mid, k, ys, rates);
    } else {
      var n := |ys| - 1;
      LearnAllConcat(f, k, xs, ys[..n], rates);
      assert (xs + ys)[..|xs| + n] == xs + ys[..n];
      LearnLast(f, k, xs + ys, rates);
      LearnLast(mid, k, ys, rates);
    }
  }

  lemma LearnNone(f: Factors, k: nat, xs: seq<Interaction>, rates: Rates)
    requires Shaped(f, k) && xs == []
    ensures LearnAll(f, k, xs, rates) == f
  {
  }

  lemma LearnLast(f: Factors, k: nat, xs: seq<Interaction>, rates: Rates)
    requires Shaped(f, k) && Covers(f, xs) && xs != []
    ensures var n := |xs| - 1;
      Covers(f, xs[..n]) && LearnAll(f, k, xs, rates) == Learn(LearnAll(f, k, xs[..n], rates), k, xs[n], rates)
  {
    hide Learn, Shaped;
  }

  lemma LearnAllOne(f: Factors, k: nat, x: Interaction, rates: Rates)
    requires Shaped(f, k) && Covers(f, [x])
    ensures LearnAll(f, k, [x], rates) == Learn(f, k, x, rates)
  {
    hide Learn;
    assert [x][0] == x && [x][..0] == [];
  }

  /** Epochs add up, and one epoch is one pass over the list. */
  lemma {:induction false} EpochsAdd(f: Factors, k: nat, xs: seq<Interaction>, rates: Rates, m: nat, n: nat)
    requires Shaped(f, k) && Covers(f, xs)
    ensures Epochs(f, k, xs, rates, 1) == LearnAll(f, k, xs, rates) && Epochs(f, k, xs, rates, 0) == f
    ensures Covers(Epochs(f, k, xs, rates, m), xs)
    ensures Epochs(f, k, xs, rates, m + n) == Epochs(Epochs(f, k, xs, rates, m), k, xs, rates, n)
    decreases n
  {
    hide LearnAll, Shaped, Covers, Epochs;
    CoversByKeys(f, Epochs(f, k, xs, rates, m), xs);
    EpochsNone(f, k, xs, rates);
    EpochsNone(Epochs(f, k, xs, rates, m), k, xs, rates);
    EpochsNext(f, k, xs, rates, 0);
    if n > 0 {
      EpochsAdd(f, k, xs, rates, m, n - 1);
      EpochsNext(f, k, xs, rates, m + n - 1);
      EpochsNext(Epochs(f, k, xs, rates, m), k, xs, rates, n - 1);
    }
  }

  lemma CoversByKeys(f: Factors, g: Factors, xs: seq<Interaction>)
    requires f.users.Keys == g.users.Keys && f.videos.Keys == g.videos.Keys
    ensures Covers(f, xs) ==> Covers(g, xs)
  {
  }

  lemma EpochsNone(f: Factors, k: nat, xs: seq<Interaction>, rates: Rates)
    requires Shaped(f, k) && Covers(f, xs)
    ensures Epochs(f, k, xs, rates, 0) == f
  {
  }

  lemma EpochsNext(f: Factors, k: nat, xs: seq<Interaction>, rates: Rates, n: nat)
    requires Shaped(f, k) && Covers(f, xs)
    ensures Covers(Epochs(f, k, xs, rates, n), xs)
    ensures Epochs(f, k, xs, rates, n + 1) == LearnAll(Epochs(f, k, xs, rates, n), k, xs, rates)
  {
    hide LearnAll, Shaped;
  }

  // ---------------------------------------------------------------- how far the entries can grow

  function Abs(x: real): (a: real)
    ensures a >= 0.0
  {
    if x < 0.0 then -x else x
  }

  predicate VecWithin(v: Vec, m: real) {
    forall i :: 0 <= i < |v| ==> Abs(v[i]) <= m
  }

  predicate Within(f: Factors, m: real) {
    && (forall id :: id in f.users ==> VecWithin(f.users[id], m))
    && (forall id :: id in f.videos ==> VecWithin(f.videos[id], m))
  }

  /** How far an error clamped to the limit can pull: |gamma| limit. */
  function Reach(rates: Rates): real
    requires rates.limit.Some?
  {
    Abs(rates.gamma) * rates.limit.value
  }

  /** The factor by which one update can enlarge the largest entry: |1 - gamma lambda| + |gamma| limit, or 1. */
  function GrowthOf(rates: Rates): (g: real)
    requires rates.limit.Some?
    ensures g >= 1.0
  {
    var g := Abs(Keep(rates)) + Reach(rates);
    if g < 1.0 then 1.0 else g
  }

  /** `m` times the growth factor `g` to the power `n`. */
  function Grown(m: real, g: real, n: nat): (r: real)
    requires m >= 0.0 && g >= 1.0
    ensures r >= m
  {
    if n == 0 then m else
      var r := Grown(m, g, n - 1);
      Scale(1.0, g, r);
      Mul(g, r)
  }

  function Power(b: real, n: nat): real {
    if n == 0 then 1.0 else Mul(b, Power(b, n - 1))
  }

  lemma {:induction false} GrownIsPower(m: real, g: real, n: nat)
    requires m >= 0.0 && g >= 1.0
    ensures Grown(m, g, n) == Mul(m, Power(g, n))
  {
    if n > 0 {
      hide Mul;
      GrownIsPower(m, g, n - 1);
      MulSwap(g, m, Power(g, n - 1));
    }
  }

  lemma MulSwap(g: real, m: real, x: real)
    ensures Mul(g, Mul(m, x)) == Mul(m, Mul(g, x))
  {
  }

  lemma {:induction false} GrownTwice(m: real, g: real, i: nat, j: nat)
    requires m >= 0.0 && g >= 1.0
    ensures Grown(Grown(m, g, i), g, j) == Grown(m, g, i + j)
  {
    hide Mul;
    if j > 0 {
      GrownTwice(m, g, i, j - 1);
      assert i + j - 1 == i + (j - 1);
    }
  }

  lemma Scale(a: real, b: real, m: real)
    requires a <= b && m >= 0.0
    ensures a * m <= b * m
  {
  }

  lemma AbsOfProduct(a: real, x: real, m: real)
    requires Abs(x) <= m
    ensures Abs(a * x) <= Abs(a) * m
  {
    if a >= 0.0 {
      assert a * x <= a * m;
      assert a * -x <= a * m;
    } else {
      assert -a * x <= -a * m;
      assert -a * -x <= -a * m;
    }
  }

  lemma Triangle(u: real, v: real, a: real, b: real)
    requires Abs(u) <= a && Abs(v) <= b
    ensures Abs(u + v) <= a + b
  {
  }

  /** A combination of two entries within `m`, with coefficients `c` and `d`. */
  lemma CombinationWithin(c: real, d: real, bound: real, x: real, y: real, m: real)
    requires Abs(d) <= bound && Abs(x) <= m && Abs(y) <= m
    ensures Abs(Combine(c, d, x, y)) <= (Abs(c) + bound) * m
  {
    AbsOfProduct(c, x, m);
    AbsOfProduct(d, y, m);
    Scale(Abs(d), bound, m);
    Triangle(c * x, d * y, Abs(c) * m, bound * m);
    var a := Abs(c);
    assert (a + bound) * m == a * m + bound * m;
  }

  lemma PullWithin(rates: Rates, e: real)
    requires rates.limit.Some? && Abs(e) <= rates.limit.value
    ensures Abs(Pull(rates, e)) <= Reach(rates)
  {
    AbsOfProduct(rates.gamma, e, rates.limit.value);
  }

  lemma GrownOnce(m: real, g: real)
    requires m >= 0.0 && g >= 1.0
    ensures Grown(m, g, 1) == Mul(g, m)
  {
    hide Mul;
    assert Grown(m, g, 0) == m;
  }

  /** A combination whose coefficients add up to at most `g`. */
  lemma CombinationGrowth(c: real, d: real, bound: real, x: real, y: real, m: real, g: real)
    requires Abs(d) <= bound && Abs(x) <= m && Abs(y) <= m && Abs(c) + bound <= g
    ensures Abs(Combine(c, d, x, y)) <= Mul(g, m)
  {
    CombinationWithin(c, d, bound, x, y, m);
    hide Combine, Abs;
    Scale(Abs(c) + bound, g, m);
  }

  lemma EntryGrowth(x: real, y: real, rates: Rates, e: real, m: real)
    requires rates.limit.Some? && Abs(e) <= rates.limit.value && Abs(x) <= m && Abs(y) <= m
    ensures Abs(UpdatedEntry(x, y, rates, e)) <= Grown(m, GrowthOf(rates), 1)
  {
    hide UpdatedEntry, Combine, Abs, Keep, Pull, Reach, Mul, Grown;
    EntryIsCombination(x, y, rates, e);
    PullWithin(rates, e);
    CombinationGrowth(Keep(rates), Pull(rates, e), Reach(rates), x, y, m, GrowthOf(rates));
    GrownOnce(m, GrowthOf(rates));
  }

  lemma UpdatedWithin(p: Vec, q: Vec, rates: Rates, e: real, m: real)
    requires |p| == |q| && VecWithin(p, m) && VecWithin(q, m) && m >= 0.0
    requires rates.limit.Some? && Abs(e) <= rates.limit.value
    ensures VecWithin(Updated(p, q, rates, e), Grown(m, GrowthOf(rates), 1))
  {
    hide UpdatedEntry, GrowthOf, Abs, Grown;
    forall i | 0 <= i < |p|
      ensures Abs(Updated(p, q, rates, e)[i]) <= Grown(m, GrowthOf(rates), 1)
    {
      EntryGrowth(p[i], q[i], rates, e, m);
    }
  }

  lemma LearnWithin(f: Factors, k: nat, x: Interaction, rates: Rates, m: real)
    requires Shaped(f, k) && x.user in f.users && x.video in f.videos && Within(f, m) && m >= 0.0
    requires rates.limit.Some? && rates.limit.value >= 0.0
    ensures Within(Learn(f, k, x, rates), Grown(m, GrowthOf(rates), 1))
  {
    hide Updated, Dot, GrowthOf, Grown;
    var p, q := f.users[x.user], f.videos[x.video];
    var e := Error(rates, x.rating, Dot(p, q));
    UpdatedWithin(p, q, rates, e, m);
    UpdatedWithin(q, p, rates, e, m);
  }

  lemma {:induction false} EpochWithin(f: Factors, k: nat, xs: seq<Interaction>, rates: Rates, m: real)
    requires Shaped(f, k) && Covers(f, xs) && Within(f, m) && m >= 0.0
    requires rates.limit.Some? && rates.limit.value >= 0.0
    ensures Within(LearnAll(f, k, xs, rates), Grown(m, GrowthOf(rates), |xs|))
  {
    hide Within, GrowthOf, Learn, Shaped;
    if xs != [] {
      var n, g := |xs| - 1, GrowthOf(rates);
      EpochWithin(f, k, xs[..n], rates, m);
      LearnWithin(LearnAll(f, k, xs[..n], rates), k, xs[n], rates, Grown(m, g, n));
      GrownTwice(m, g, n, 1);
    }
  }

  /**
   * Clamped training keeps every entry within the initial bound times the growth factor to the number of updates, for
   * every interaction list, every rating and any number of epochs.
   */
  lemma {:induction false} TrainingWithin(f: Factors, k: nat, xs: seq<Interaction>, rates: Rates, n: nat, m: real)
    requires Shaped(f, k) && Covers(f, xs) && Within(f, m) && m >= 0.0
    requires rates.limit.Some? && rates.limit.value >= 0.0
    ensures Within(Epochs(f, k, xs, rates, n), Grown(m, GrowthOf(rates), n * |xs|))
  {
    hide Within, GrowthOf, LearnAll, Shaped;
    if n == 0 {
      assert n * |xs| == 0;
    } else {
      hide Grown;
      var g, done := GrowthOf(rates), (n - 1) * |xs|;
      TrainingWithin(f, k, xs, rates, n - 1, m);
      EpochWithin(Epochs(f, k, xs, rates, n - 1), k, xs, rates, Grown(m, g, done));
      assert n * |xs| == done + |xs|;
      GrownTwice(m, g, done, |xs|);
    }
  }

  const MAX_SGD_ERROR := 50.0

  /** For a learning rate and regularization in the useful range, the factor is 1 - gl + 50 g. */
  lemma GrowthInRange(gamma: real, lambda: real)
    requires 0.0 <= gamma && 0.0 <= lambda <= MAX_SGD_ERROR && gamma * lambda <= 1.0
    ensures GrowthOf(Rates(gamma, lambda, Some(MAX_SGD_ERROR))) == 1.0 - gamma * lambda + MAX_SGD_ERROR * gamma
  {
    Scale(lambda, MAX_SGD_ERROR, gamma);
  }

  /**
   * The bound as the service's parameters give it: entries that start within 0.1 stay within
   * 0.1 (1 - gl + 50 g)^(epochs * interactions).
   */
  lemma ServiceBound(f: Factors, k: nat, xs: seq<Interaction>, gamma: real, lambda: real, n: nat)
    requires Shaped(f, k) && Covers(f, xs) && Within(f, 0.1)
    requires 0.0 <= gamma && 0.0 <= lambda <= MAX_SGD_ERROR && gamma * lambda <= 1.0
    ensures Within(Epochs(f, k, xs, Rates(gamma, lambda, Some(MAX_SGD_ERROR)), n),
                   Mul(0.1, Power(1.0 - gamma * lambda + MAX_SGD_ERROR * gamma, n * |xs|)))
  {
    hide Within, Shaped, Covers, Epochs, GrowthOf, Mul;
    var rates := Rates(gamma, lambda, Some(MAX_SGD_ERROR));
    TrainingWithin(f, k, xs, rates, n, 0.1);
    GrownIsPower(0.1, GrowthOf(rates), n * |xs|);
    GrowthInRange(gamma, lambda);
  }
}
