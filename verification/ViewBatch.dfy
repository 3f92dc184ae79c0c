/** One batch of the sync, statement by statement, as a run of the interleaved machine. */
module ViewBatch {
  import opened Wrappers
  import opened Views
  import opened ViewSync

  /** Every video of `order` is pending, and none comes twice. */
  predicate Once(order: seq<VideoId>, pending: map<VideoId, int>) {
    && (forall i :: 0 <= i < |order| ==> order[i] in pending)
    && (forall i, j :: 0 <= i < j < |order| ==> order[i] != order[j])
  }

  /** The counters after the batch has been through the videos of `order`. */
  function Subtracted(counters: map<VideoId, int>, pending: map<VideoId, int>, order: seq<VideoId>): map<VideoId, int>
    requires Once(order, pending)
  {
    if order == [] then counters
    else
      var n := |order| - 1;
      Add(Subtracted(counters, pending, order[..n]), order[n], -pending[order[n]])
  }

  /** The same, where there may be no Redis. */
  function Left(redisUp: bool, counters: map<VideoId, int>, pending: map<VideoId, int>, order: seq<VideoId>)
    : map<VideoId, int>
    requires Once(order, pending)
  {
    if redisUp then Subtracted(counters, pending, order) else counters
  }

  /** The batch takes exactly the pending views of those videos out of Redis. */
  lemma {:induction false} SubtractedIs(counters: map<VideoId, int>, pending: map<VideoId, int>, order: seq<VideoId>,
                                        v: VideoId)
    requires Once(order, pending)
    ensures Get(Subtracted(counters, pending, order), v) == Get(counters, v) - if v in order then pending[v] else 0
  {
    if order != [] {
      var n := |order| - 1;
      SubtractedIs(counters, pending, order[..n], v);
      assert order == order[..n] + [order[n]];
      assert v in order <==> v in order[..n] || v == order[n];
    }
  }

  // ---------------------------------------------------------------- the run

  /** The statements of the loop. */
  function LoopSteps(w: nat, order: seq<VideoId>): seq<ViewSync.Step> {
    if order == [] then [] else LoopSteps(w, order[..|order| - 1]) + [Exec(w, order[|order| - 1])] + [Decr(w)]
  }

  function BatchSteps(w: nat, order: seq<VideoId>, commits: bool): seq<ViewSync.Step> {
    [Begin(w)] + LoopSteps(w, order) + [if commits then Commit(w) else Rollback(w)]
  }

  /** What the transaction holds after the videos of `order`. */
  function Opened(views: map<VideoId, int>, pending: map<VideoId, int>, order: seq<VideoId>): map<VideoId, int> {
    map v | v in views && v in pending && v in order :: pending[v]
  }

  function Remaining(pending: map<VideoId, int>, order: seq<VideoId>): map<VideoId, int> {
    map v | v in pending && v !in order :: pending[v]
  }

  /** The worker in mid-batch, and what it has done to the counters. */
  ghost predicate MidBatch(s: System, t: System, w: nat, pending: map<VideoId, int>, order: seq<VideoId>)
    requires Once(order, pending)
  {
    && t.counters == Subtracted(s.counters, pending, order) && t.views == s.views && t.recorded == s.recorded
    && w < |t.workers|
    && t.workers[w] == Worker(true, Remaining(pending, order), Opened(s.views, pending, order), None)
  }

  lemma BatchStarts(counters: map<VideoId, int>, views: map<VideoId, int>, pending: map<VideoId, int>,
                    order: seq<VideoId>)
    requires order == []
    ensures Once(order, pending) && Opened(views, pending, order) == map[] && Remaining(pending, order) == pending
    ensures Subtracted(counters, pending, order) == counters
  {
  }

  lemma OrderGrows(pending: map<VideoId, int>, order: seq<VideoId>, v: VideoId)
    requires Once(order, pending) && v in pending && v !in order
    ensures Once(order + [v], pending) && forall x :: x in order + [v] <==> x in order || x == v
  {
  }

  lemma OpenedGrows(views: map<VideoId, int>, pending: map<VideoId, int>, order: seq<VideoId>, v: VideoId)
    requires v in pending && v !in order
    ensures var open := Opened(views, pending, order);
      Opened(views, pending, order + [v]) == if v in views then open[v := pending[v]] else open
    ensures v !in Opened(views, pending, order)
  {
    assert forall x :: x in order + [v] <==> x in order || x == v;
  }

  lemma OpenedAll(views: map<VideoId, int>, pending: map<VideoId, int>, order: seq<VideoId>)
    requires forall v :: v in pending ==> v in order
    ensures AddAll(views, Opened(views, pending, order)) == AddAll(views, pending)
  {
  }

  lemma RemainingShrinks(pending: map<VideoId, int>, order: seq<VideoId>, v: VideoId)
    requires v in pending && v !in order
    ensures v in Remaining(pending, order) && Remaining(pending, order)[v] == pending[v]
    ensures Remaining(pending, order + [v]) == Remaining(pending, order) - {v}
  {
    assert forall x :: x in order + [v] <==> x in order || x == v;
  }

  lemma SubtractedGrows(counters: map<VideoId, int>, pending: map<VideoId, int>, order: seq<VideoId>, v: VideoId)
    requires Once(order, pending) && v in pending && v !in order
    ensures Once(order + [v], pending)
    ensures Subtracted(counters, pending, order + [v]) == Add(Subtracted(counters, pending, order), v, -pending[v])
  {
    OrderGrows(pending, order, v);
    assert (order + [v])[..|order|] == order;
  }

  /** The three together, with what they say of the order. */
  lemma StatementDone(counters: map<VideoId, int>, views: map<VideoId, int>, pending: map<VideoId, int>,
                      order: seq<VideoId>, v: VideoId)
    requires Once(order, pending) && v in pending && v !in order
    ensures Once(order + [v], pending) && forall x :: x in order + [v] <==> x in order || x == v
    ensures var open := Opened(views, pending, order);
      Opened(views, pending, order + [v]) == if v in views then open[v := pending[v]] else open
    ensures Subtracted(counters, pending, order + [v]) == Add(Subtracted(counters, pending, order), v, -pending[v])
  {
    hide Once, Opened, Subtracted, Add;
    OrderGrows(pending, order, v);
    OpenedGrows(views, pending, order, v);
    SubtractedGrows(counters, pending, order, v);
  }

  lemma ExecOne(t: System, w: nat, v: VideoId)
    requires Enabled(t, Exec(w, v))
    ensures var u, x := Next(t, Exec(w, v)), t.workers[w];
      && u.counters == t.counters && u.views == t.views && u.recorded == t.recorded && |u.workers| == |t.workers|
      && u.workers[w] == Worker(true, x.todo - {v}, if v in t.views then Add(x.open, v, x.todo[v]) else x.open,
                                Some((v, x.todo[v])))
  {
    hide Lost, AddAll;
  }

  lemma DecrOne(t: System, w: nat)
    requires Enabled(t, Decr(w))
    ensures var u, x := Next(t, Decr(w)), t.workers[w];
      && u.counters == Add(t.counters, x.executed.value.0, -x.executed.value.1) && u.views == t.views
      && u.recorded == t.recorded && |u.workers| == |t.workers| && u.workers[w] == x.(executed := None)
  {
    hide Lost, AddAll;
  }

  /** UPDATE and DECRBY of one more video. */
  lemma OneStatement(s: System, t: System, w: nat, pending: map<VideoId, int>, order: seq<VideoId>, v: VideoId)
    requires Once(order, pending) && v in pending && v !in order && MidBatch(s, t, w, pending, order)
    ensures Once(order + [v], pending)
    ensures Enabled(t, Exec(w, v)) && Enabled(Next(t, Exec(w, v)), Decr(w))
    ensures MidBatch(s, Next(Next(t, Exec(w, v)), Decr(w)), w, pending, order + [v])
  {
    hide Next, Remaining, Opened, Subtracted, Once;
    OrderGrows(pending, order, v);
    RemainingShrinks(pending, order, v);
    OpenedGrows(s.views, pending, order, v);
    SubtractedGrows(s.counters, pending, order, v);
    ExecOne(t, w, v);
    DecrOne(Next(t, Exec(w, v)), w);
  }

  lemma {:induction false} LoopIsRun(s: System, w: nat, pending: map<VideoId, int>, order: seq<VideoId>)
    requires w < |s.workers| && s.workers[w] == Worker(false, pending, map[], None) && Once(order, pending)
    ensures CanRun(s, [Begin(w)] + LoopSteps(w, order))
    ensures MidBatch(s, ViewSync.Run(s, [Begin(w)] + LoopSteps(w, order)), w, pending, order)
  {
    hide ViewSync.Run, CanRun, Next, Enabled, MidBatch;
    var begin := [Begin(w)];
    if order == [] {
      BatchBegins(s, w, pending, order);
      assert begin + LoopSteps(w, order) == begin;
    } else {
      var n := |order| - 1;
      LoopIsRun(s, w, pending, order[..n]);
      var past := begin + LoopSteps(w, order[..n]);
      assert order == order[..n] + [order[n]];
      OneStatement(s, ViewSync.Run(s, past), w, pending, order[..n], order[n]);
      Extend(s, past, Exec(w, order[n]));
      Extend(s, past + [Exec(w, order[n])], Decr(w));
      assert begin + LoopSteps(w, order) == past + [Exec(w, order[n])] + [Decr(w)];
    }
  }

  lemma BatchBegins(s: System, w: nat, pending: map<VideoId, int>, order: seq<VideoId>)
    requires w < |s.workers| && s.workers[w] == Worker(false, pending, map[], None) && order == []
    ensures CanRun(s, [Begin(w)]) && MidBatch(s, ViewSync.Run(s, [Begin(w)]), w, pending, order)
  {
    var none: seq<ViewSync.Step> := [];
    assert CanRun(s, none) && ViewSync.Run(s, none) == s;
    Extend(s, none, Begin(w));
    assert none + [Begin(w)] == [Begin(w)];
    BatchStarts(s.counters, s.views, pending, order);
  }

  lemma BatchEnds(s: System, t: System, w: nat, pending: map<VideoId, int>, order: seq<VideoId>, commits: bool)
    requires Once(order, pending) && MidBatch(s, t, w, pending, order)
    requires commits ==> forall v :: v in pending ==> v in order
    ensures var last := if commits then Commit(w) else Rollback(w);
      && Enabled(t, last) && Next(t, last).counters == t.counters && Next(t, last).workers == t.workers[w := IDLE]
      && Next(t, last).views == if commits then AddAll(s.views, pending) else s.views
  {
    if commits {
      assert Remaining(pending, order) == map[];
      OpenedAll(s.views, pending, order);
    }
  }

  /**
   * A batch is a run of the interleaved machine: from a worker that holds the snapshot, its statements in the order
   * taken lead to the counters and rows that the batch leaves, committed or rolled back, and to an idle worker. So
   * what is proved of every interleaving holds of it.
   */
  lemma BatchIsRun(s: System, w: nat, pending: map<VideoId, int>, order: seq<VideoId>, commits: bool)
    requires w < |s.workers| && s.workers[w] == Worker(false, pending, map[], None) && Once(order, pending)
    requires commits ==> forall v :: v in pending ==> v in order
    ensures CanRun(s, BatchSteps(w, order, commits))
    ensures var t := ViewSync.Run(s, BatchSteps(w, order, commits));
      && t.counters == Subtracted(s.counters, pending, order) && w < |t.workers| && t.workers[w] == IDLE
      && t.views == if commits then AddAll(s.views, pending) else s.views
  {
    hide ViewSync.Run, CanRun, Next, Enabled;
    LoopIsRun(s, w, pending, order);
    var past := [Begin(w)] + LoopSteps(w, order);
    BatchEnds(s, ViewSync.Run(s, past), w, pending, order, commits);
    Extend(s, past, if commits then Commit(w) else Rollback(w));
  }

  // ---------------------------------------------------------------- a whole pass, undisturbed

  function ReadSteps(w: nat, keys: seq<VideoId>): seq<ViewSync.Step> {
    if keys == [] then [] else ReadSteps(w, keys[..|keys| - 1]) + [Read(w, keys[|keys| - 1])]
  }

  /** The positive counters among the scanned keys. */
  function Snapshot(counters: map<VideoId, int>, keys: seq<VideoId>): map<VideoId, int> {
    map v | v in counters && v in keys && counters[v] > 0 :: counters[v]
  }

  lemma ReadOne(s: System, w: nat, keys: seq<VideoId>, v: VideoId)
    requires w < |s.workers| && s.workers[w] == Worker(false, Snapshot(s.counters, keys), map[], None)
    ensures Enabled(s, Read(w, v))
    ensures Next(s, Read(w, v)) ==
      s.(workers := s.workers[w := Worker(false, Snapshot(s.counters, keys + [v]), map[], None)])
  {
    assert forall x :: x in keys + [v] <==> x in keys || x == v;
    var next := if Get(s.counters, v) > 0 then Snapshot(s.counters, keys)[v := s.counters[v]]
                else Snapshot(s.counters, keys);
    assert next == Snapshot(s.counters, keys + [v]);
  }

  lemma {:induction false} ReadsAreRun(s: System, w: nat, keys: seq<VideoId>)
    requires w < |s.workers| && s.workers[w] == IDLE
    ensures CanRun(s, ReadSteps(w, keys))
    ensures ViewSync.Run(s, ReadSteps(w, keys)) ==
      s.(workers := s.workers[w := Worker(false, Snapshot(s.counters, keys), map[], None)])
  {
    hide Next, Enabled;
    if keys == [] {
      assert Snapshot(s.counters, keys) == map[];
    } else {
      var n := |keys| - 1;
      ReadsAreRun(s, w, keys[..n]);
      var t := ViewSync.Run(s, ReadSteps(w, keys[..n]));
      ReadOne(t, w, keys[..n], keys[n]);
      assert keys[..n] + [keys[n]] == keys;
      Extend(s, ReadSteps(w, keys[..n]), Read(w, keys[n]));
    }
  }

  /**
   * A pass that nothing interrupts, over a scan that finds every counter: each video with a row has its positive
   * counter moved into the row, so that nothing is pending and the displayed total is what it was.
   */
  lemma SyncDrains(s: System, w: nat, keys: seq<VideoId>, order: seq<VideoId>, v: VideoId)
    requires w < |s.workers| && s.workers[w] == IDLE && v in s.views
    requires forall x :: x in s.counters ==> x in keys
    requires Once(order, Snapshot(s.counters, keys)) && forall x :: x in Snapshot(s.counters, keys) ==> x in order
    ensures CanRun(s, ReadSteps(w, keys) + BatchSteps(w, order, true))
    ensures var t := ViewSync.Run(s, ReadSteps(w, keys) + BatchSteps(w, order, true));
      && v in t.views && Displayed(t, v) == Displayed(s, v)
      && (Get(s.counters, v) > 0 ==> Get(t.counters, v) == 0 && t.views[v] == s.views[v] + s.counters[v])
  {
    hide ViewSync.Run, CanRun, Next, Enabled, Once, Subtracted, BatchSteps, ReadSteps;
    var pending := Snapshot(s.counters, keys);
    ReadsAreRun(s, w, keys);
    var t := ViewSync.Run(s, ReadSteps(w, keys));
    BatchIsRun(t, w, pending, order, true);
    RunsJoin(s, ReadSteps(w, keys), BatchSteps(w, order, true));
    SubtractedIs(s.counters, pending, order, v);
    OrderIsPending(pending, order, v);
  }

  lemma OrderIsPending(pending: map<VideoId, int>, order: seq<VideoId>, v: VideoId)
    requires Once(order, pending)
    ensures v in order ==> v in pending
  {
  }

  lemma {:induction false} RunsJoin(s: System, a: seq<ViewSync.Step>, b: seq<ViewSync.Step>)
    requires CanRun(s, a) && CanRun(ViewSync.Run(s, a), b)
    ensures CanRun(s, a + b) && ViewSync.Run(s, a + b) == ViewSync.Run(ViewSync.Run(s, a), b)
    decreases |a|
  {
    hide Next, Enabled;
    if a == [] {
      assert a + b == b;
    } else {
      assert (a + b)[0] == a[0] && (a + b)[1..] == a[1..] + b;
      RunsJoin(Next(s, a[0]), a[1..], b);
    }
  }
}
