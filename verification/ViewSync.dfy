/**
 * Moving pending views from Redis to Postgres while views keep arriving. Any number of sync workers; a step is one
 * Redis or database command, so a view can land between any two of them.
 */
module ViewSync {
  import opened Wrappers
  import opened Views

  /**
   * One worker: the snapshot it is taking or still has to apply, the increments in its open transaction, and the
   * increment whose UPDATE has run while its DECRBY has not.
   */
  datatype Worker = Worker(syncing: bool, todo: map<VideoId, int>, open: map<VideoId, int>,
                           executed: Option<(VideoId, int)>)

  const IDLE := Worker(false, map[], map[], None)

  datatype System = System(
    counters: map<VideoId, int>,     // Redis `video_views:*`
    views: map<VideoId, int>,        // committed `videos.views`
    workers: seq<Worker>,
    recorded: map<VideoId, int>,     // views counted so far
    lost: map<VideoId, int>)         // increments taken from Redis that no row will ever show

  datatype Step =
    | View(video: VideoId)               // RecordView counts a new view: INCR
    | Read(w: nat, video: VideoId)       // GetPendingViews: GET one scanned key
    | Begin(w: nat)                      // SyncBatchViewsToPostgres: BEGIN
    | Exec(w: nat, video: VideoId)       // UPDATE videos SET views = views + n
    | Decr(w: nat)                       // DECRBY n
    | Commit(w: nat)
    | Rollback(w: nat)                   // a failed statement or commit

  predicate Enabled(s: System, step: Step) {
    match step
    case View(_) => true
    case Read(w, _) => w < |s.workers| && !s.workers[w].syncing
    case Begin(w) => w < |s.workers| && !s.workers[w].syncing
    case Exec(w, v) =>
      w < |s.workers| && s.workers[w].syncing && v in s.workers[w].todo && s.workers[w].executed == None
    case Decr(w) => w < |s.workers| && s.workers[w].syncing && s.workers[w].executed.Some?
    case Commit(w) =>
      w < |s.workers| && s.workers[w].syncing && s.workers[w].todo == map[] && s.workers[w].executed == None
    case Rollback(w) => w < |s.workers| && s.workers[w].syncing && s.workers[w].executed == None
  }

  function Add(m: map<VideoId, int>, v: VideoId, n: int): map<VideoId, int> {
    m[v := Get(m, v) + n]
  }

  /** A pointwise sum on the keys of `m` (an UPDATE of a missing row does nothing). */
  function AddAll(m: map<VideoId, int>, d: map<VideoId, int>): map<VideoId, int> {
    map v | v in m :: m[v] + Get(d, v)
  }

  function Plus(a: map<VideoId, int>, b: map<VideoId, int>): map<VideoId, int> {
    map v | v in a.Keys + b.Keys :: Get(a, v) + Get(b, v)
  }

  /** The acting worker after its step. */
  function Work(s: System, step: Step): Worker
    requires Enabled(s, step) && !step.View?
  {
    var x := s.workers[step.w];
    match step
    case Read(_, v) => if Get(s.counters, v) > 0 then x.(todo := x.todo[v := s.counters[v]]) else x
    case Begin(_) => x.(syncing := true)
    case Exec(_, v) =>
      x.(todo := x.todo - {v}, executed := Some((v, x.todo[v])),
         open := if v in s.views then Add(x.open, v, x.todo[v]) else x.open)
    case Decr(_) => x.(executed := None)
    case _ => IDLE
  }

  function Lost(s: System, step: Step): map<VideoId, int>
    requires Enabled(s, step)
  {
    match step
    case Exec(w, v) => if v in s.views then s.lost else Add(s.lost, v, s.workers[w].todo[v])
    case Rollback(w) => Plus(s.lost, s.workers[w].open)
    case _ => s.lost
  }

  function Counters(s: System, step: Step): map<VideoId, int>
    requires Enabled(s, step)
  {
    match step
    case View(v) => Add(s.counters, v, 1)
    case Decr(w) => Add(s.counters, s.workers[w].executed.value.0, -s.workers[w].executed.value.1)
    case _ => s.counters
  }

  function Next(s: System, step: Step): System
    requires Enabled(s, step)
  {
    System(Counters(s, step),
           if step.Commit? then AddAll(s.views, s.workers[step.w].open) else s.views,
           if step.View? then s.workers else s.workers[step.w := Work(s, step)],
           if step.View? then Add(s.recorded, step.video, 1) else s.recorded,
           Lost(s, step))
  }

  predicate CanRun(s: System, steps: seq<Step>)
    decreases |steps|
  {
    steps == [] || (Enabled(s, steps[0]) && CanRun(Next(s, steps[0]), steps[1..]))
  }

  function Run(s: System, steps: seq<Step>): System
    requires CanRun(s, steps)
    decreases |steps|
  {
    if steps == [] then s else Run(Next(s, steps[0]), steps[1..])
  }

  predicate Init(s: System) {
    && s.counters == map[] && s.recorded == map[] && s.lost == map[]
    && forall w :: 0 <= w < |s.workers| ==> s.workers[w] == IDLE
  }

  // ---------------------------------------------------------------- sums over the workers

  /** Increments of `v` in open transactions. */
  function InOpen(ws: seq<Worker>, v: VideoId): int {
    if ws == [] then 0 else InOpen(ws[..|ws| - 1], v) + Get(ws[|ws| - 1].open, v)
  }

  function Executing(x: Worker, v: VideoId): int {
    if x.executed.Some? && x.executed.value.0 == v then x.executed.value.1 else 0
  }

  /** Increments of `v` that an UPDATE has taken over and DECRBY has not removed from Redis yet. */
  function InFlight(ws: seq<Worker>, v: VideoId): int {
    if ws == [] then 0 else InFlight(ws[..|ws| - 1], v) + Executing(ws[|ws| - 1], v)
  }

  lemma {:induction false} SumsAfterUpdate(ws: seq<Worker>, w: nat, y: Worker, v: VideoId)
    requires w < |ws|
    ensures InOpen(ws[w := y], v) == InOpen(ws, v) - Get(ws[w].open, v) + Get(y.open, v)
    ensures InFlight(ws[w := y], v) == InFlight(ws, v) - Executing(ws[w], v) + Executing(y, v)
  {
    var last := |ws| - 1;
    if w < last {
      SumsAfterUpdate(ws[..last], w, y, v);
      assert ws[w := y][..last] == ws[..last][w := y];
    } else {
      assert ws[w := y][..last] == ws[..last];
    }
  }

  // ---------------------------------------------------------------- conservation

  /**
   * Views of `v` counted, with those an UPDATE has doubled for the moment, are the growth of the committed column, the
   * Redis counter, what open transactions hold, and what was lost.
   */
  predicate Conserved(initial: map<VideoId, int>, s: System, v: VideoId) {
    Get(s.recorded, v) + InFlight(s.workers, v)
      == Get(s.views, v) - Get(initial, v) + Get(s.counters, v) + InOpen(s.workers, v) + Get(s.lost, v)
  }

  /** Snapshots hold positive counts only, and only existing rows are open. */
  predicate WorkerOk(views: set<VideoId>, x: Worker) {
    && (forall v :: v in x.todo ==> x.todo[v] > 0)
    && (forall v :: v in x.open ==> x.open[v] > 0 && v in views)
    && (x.executed.Some? ==> x.executed.value.1 > 0)
    && (!x.syncing ==> x.open == map[] && x.executed == None)
  }

  predicate WorkersOk(s: System) {
    && (forall w :: 0 <= w < |s.workers| ==> WorkerOk(s.views.Keys, s.workers[w]))
    && (forall v :: v in s.lost ==> s.lost[v] > 0)
  }

  lemma WorkOk(s: System, step: Step)
    requires WorkersOk(s) && Enabled(s, step) && !step.View?
    ensures WorkerOk(s.views.Keys, Work(s, step))
  {
    assert WorkerOk(s.views.Keys, s.workers[step.w]);
  }

  lemma LostOk(s: System, step: Step)
    requires WorkersOk(s) && Enabled(s, step)
    ensures forall v :: v in Lost(s, step) ==> Lost(s, step)[v] > 0
  {
    if !step.View? {
      assert WorkerOk(s.views.Keys, s.workers[step.w]);
    }
  }

  lemma StepKeepsWorkersOk(s: System, step: Step)
    requires WorkersOk(s) && Enabled(s, step)
    ensures WorkersOk(Next(s, step)) && Next(s, step).views.Keys == s.views.Keys
    ensures |Next(s, step).workers| == |s.workers|
  {
    hide WorkerOk, Work, Lost, Counters;
    LostOk(s, step);
    assert Next(s, step).views.Keys == s.views.Keys;
    if !step.View? {
      WorkOk(s, step);
    }
  }

  lemma ReadsOfSums(m: map<VideoId, int>, d: map<VideoId, int>, x: VideoId, n: int, v: VideoId)
    ensures Get(Add(m, x, n), v) == Get(m, v) + if v == x then n else 0
    ensures Get(Plus(m, d), v) == Get(m, v) + Get(d, v)
    ensures Get(AddAll(m, d), v) == if v in m then Get(m, v) + Get(d, v) else 0
  {
  }

  lemma StepConserves(initial: map<VideoId, int>, s: System, step: Step, v: VideoId)
    requires WorkersOk(s) && Conserved(initial, s, v) && Enabled(s, step)
    ensures Conserved(initial, Next(s, step), v)
  {
    hide Add, Plus, AddAll, InOpen, InFlight;
    match step {
      case View(x) =>
        ReadsOfSums(s.counters, map[], x, 1, v);
        ReadsOfSums(s.recorded, map[], x, 1, v);
      case Exec(w, x) =>
        var n := s.workers[w].todo[x];
        ReadsOfSums(s.workers[w].open, map[], x, n, v);
        ReadsOfSums(s.lost, map[], x, n, v);
        SumsAfterUpdate(s.workers, w, Work(s, step), v);
      case Decr(w) =>
        var n := s.workers[w].executed.value;
        ReadsOfSums(s.counters, map[], n.0, -n.1, v);
        SumsAfterUpdate(s.workers, w, Work(s, step), v);
      case Commit(w) =>
        assert WorkerOk(s.views.Keys, s.workers[w]);
        ReadsOfSums(s.views, s.workers[w].open, v, 0, v);
        SumsAfterUpdate(s.workers, w, IDLE, v);
      case Rollback(w) =>
        ReadsOfSums(s.lost, s.workers[w].open, v, 0, v);
        SumsAfterUpdate(s.workers, w, IDLE, v);
      case _ =>
        SumsAfterUpdate(s.workers, step.w, Work(s, step), v);
    }
  }

  lemma {:induction false} InitConserves(ws: seq<Worker>, v: VideoId)
    requires forall w :: 0 <= w < |ws| ==> ws[w] == IDLE
    ensures InOpen(ws, v) == 0 && InFlight(ws, v) == 0
  {
    if ws != [] {
      InitConserves(ws[..|ws| - 1], v);
    }
  }

  lemma {:induction false} RunConserves(initial: map<VideoId, int>, s: System, steps: seq<Step>, v: VideoId)
    requires WorkersOk(s) && Conserved(initial, s, v) && CanRun(s, steps)
    ensures WorkersOk(Run(s, steps)) && Conserved(initial, Run(s, steps), v)
    ensures Run(s, steps).views.Keys == s.views.Keys && |Run(s, steps).workers| == |s.workers|
    decreases |steps|
  {
    hide WorkersOk, Conserved, Enabled, Next;
    if steps != [] {
      StepKeepsWorkersOk(s, steps[0]);
      StepConserves(initial, s, steps[0], v);
      RunConserves(initial, Next(s, steps[0]), steps[1..], v);
    }
  }

  /** The step takes increments of `v` out of Redis for good without adding them to a row. */
  predicate Lossy(s: System, step: Step, v: VideoId)
    requires Enabled(s, step)
  {
    match step
    case Exec(_, x) => x == v && v !in s.views
    case Rollback(w) => Get(s.workers[w].open, v) > 0
    case _ => false
  }

  predicate LosesIn(s: System, steps: seq<Step>, v: VideoId)
    requires CanRun(s, steps)
    decreases |steps|
  {
    steps != [] && (Lossy(s, steps[0], v) || LosesIn(Next(s, steps[0]), steps[1..], v))
  }

  lemma StepLoses(s: System, step: Step, v: VideoId)
    requires WorkersOk(s) && Enabled(s, step)
    ensures Get(Next(s, step).lost, v) >= Get(s.lost, v)
    ensures Get(Next(s, step).lost, v) > Get(s.lost, v) <==> Lossy(s, step, v)
  {
    if !step.View? {
      assert WorkerOk(s.views.Keys, s.workers[step.w]);
    }
  }

  lemma {:induction false} RunLoses(s: System, steps: seq<Step>, v: VideoId)
    requires WorkersOk(s) && CanRun(s, steps)
    ensures Get(Run(s, steps).lost, v) >= Get(s.lost, v)
    ensures Get(Run(s, steps).lost, v) > Get(s.lost, v) <==> LosesIn(s, steps, v)
    decreases |steps|
  {
    hide WorkersOk, Lossy, Enabled, Next;
    if steps != [] {
      StepKeepsWorkersOk(s, steps[0]);
      StepLoses(s, steps[0], v);
      RunLoses(Next(s, steps[0]), steps[1..], v);
    }
  }

  /**
   * Conservation over every interleaving and any number of workers: between statements, counted views equal the
   * growth of the committed column plus the Redis counter plus the open increments, if and only if no transaction
   * holding increments of the video was rolled back and no UPDATE of it missed its row.
   */
  lemma ViewsConserved(s: System, steps: seq<Step>, v: VideoId)
    requires Init(s) && CanRun(s, steps)
    ensures var t := Run(s, steps);
      && Get(t.recorded, v) + InFlight(t.workers, v)
           == Get(t.views, v) - Get(s.views, v) + Get(t.counters, v) + InOpen(t.workers, v) + Get(t.lost, v)
      && (Get(t.recorded, v) + InFlight(t.workers, v)
            == Get(t.views, v) - Get(s.views, v) + Get(t.counters, v) + InOpen(t.workers, v)
          <==> !LosesIn(s, steps, v))
  {
    InitConserves(s.workers, v);
    RunConserves(s.views, s, steps, v);
    RunLoses(s, steps, v);
  }

  /** How many views of `v` the run records. */
  function CountViews(steps: seq<Step>, v: VideoId): nat
    decreases |steps|
  {
    if steps == [] then 0 else (if steps[0] == View(v) then 1 else 0) + CountViews(steps[1..], v)
  }

  /** Counted views are the recorded ones, one each. */
  lemma {:induction false} CountedAreRecorded(s: System, steps: seq<Step>, v: VideoId)
    requires CanRun(s, steps)
    ensures Get(Run(s, steps).recorded, v) == Get(s.recorded, v) + CountViews(steps, v)
    decreases |steps|
  {
    hide Enabled, Work, Lost, Counters, AddAll;
    if steps != [] {
      CountedAreRecorded(Next(s, steps[0]), steps[1..], v);
    }
  }

  /** `GetByID`: the committed views plus the pending ones. */
  function Displayed(s: System, v: VideoId): int {
    Get(s.views, v) + Get(s.counters, v)
  }

  lemma {:induction false} OpenIsNatural(ws: seq<Worker>, views: set<VideoId>, v: VideoId)
    requires forall w :: 0 <= w < |ws| ==> WorkerOk(views, ws[w])
    ensures InOpen(ws, v) >= 0 && InFlight(ws, v) >= 0
    ensures InOpen(ws, v) == 0 <==> forall w :: 0 <= w < |ws| ==> v !in ws[w].open
  {
    if ws != [] {
      var init := ws[..|ws| - 1];
      OpenIsNatural(init, views, v);
      assert forall w :: 0 <= w < |init| ==> ws[w] == init[w];
      assert WorkerOk(views, ws[|ws| - 1]);
    }
  }

  /**
   * Without losses, and while no increment is between its UPDATE and its DECRBY, the displayed total never exceeds the
   * true one and equals it exactly when no open transaction holds views of the video.
   */
  lemma DisplayedTotal(s: System, steps: seq<Step>, v: VideoId)
    requires Init(s) && CanRun(s, steps) && !LosesIn(s, steps, v) && InFlight(Run(s, steps).workers, v) == 0
    ensures var t := Run(s, steps);
      var total := Get(s.views, v) + Get(t.recorded, v);
      && Displayed(t, v) <= total
      && (Displayed(t, v) == total <==> forall w :: 0 <= w < |t.workers| ==> v !in t.workers[w].open)
  {
    ViewsConserved(s, steps, v);
    InitConserves(s.workers, v);
    RunConserves(s.views, s, steps, v);
    var t := Run(s, steps);
    OpenIsNatural(t.workers, t.views.Keys, v);
  }

  // ---------------------------------------------------------------- a single worker never overdraws the counter

  /** What the only worker is still going to subtract from the counter of `v`. */
  function Owed(x: Worker, v: VideoId): int {
    Get(x.todo, v) + Executing(x, v)
  }

  ghost predicate Covered(s: System) {
    && |s.workers| == 1
    && (s.workers[0].executed.Some? ==> s.workers[0].executed.value.0 !in s.workers[0].todo)
    && forall v :: 0 <= Owed(s.workers[0], v) <= Get(s.counters, v)
  }

  lemma StepKeepsCovered(s: System, step: Step)
    requires WorkersOk(s) && Covered(s) && Enabled(s, step)
    ensures Covered(Next(s, step))
  {
    var t := Next(s, step);
    assert WorkerOk(s.views.Keys, s.workers[0]);
    hide Lost, AddAll, WorkerOk;
    forall v ensures 0 <= Owed(t.workers[0], v) <= Get(t.counters, v) {
      assert 0 <= Owed(s.workers[0], v) <= Get(s.counters, v);
    }
  }

  lemma {:induction false} RunKeepsCovered(s: System, steps: seq<Step>)
    requires WorkersOk(s) && Covered(s) && CanRun(s, steps)
    ensures Covered(Run(s, steps))
    decreases |steps|
  {
    hide WorkersOk, Covered, Enabled, Next;
    if steps != [] {
      StepKeepsWorkersOk(s, steps[0]);
      StepKeepsCovered(s, steps[0]);
      RunKeepsCovered(Next(s, steps[0]), steps[1..]);
    }
  }

  /** With one worker no interleaving makes a Redis counter negative. */
  lemma SingleWorkerNeverNegative(s: System, steps: seq<Step>, v: VideoId)
    requires Init(s) && |s.workers| == 1 && CanRun(s, steps)
    ensures Get(Run(s, steps).counters, v) >= 0
  {
    assert s.workers[0] == IDLE;
    RunKeepsCovered(s, steps);
    var t := Run(s, steps);
    assert 0 <= Owed(t.workers[0], v) <= Get(t.counters, v);
  }

  lemma {:induction false} Extend(s: System, steps: seq<Step>, step: Step)
    requires CanRun(s, steps) && Enabled(Run(s, steps), step)
    ensures CanRun(s, steps + [step]) && Run(s, steps + [step]) == Next(Run(s, steps), step)
    decreases |steps|
  {
    hide Next, Enabled;
    var all := steps + [step];
    if steps == [] {
      assert all[0] == step && all[1..] == [];
    } else {
      assert all[0] == steps[0] && all[1..] == steps[1..] + [step];
      Extend(Next(s, steps[0]), steps[1..], step);
    }
  }

  /** A worker that has read one pending view of `v`, and nothing else, syncs it. */
  lemma OneSync(s: System, before: seq<Step>, w: nat, v: VideoId) returns (steps: seq<Step>)
    requires CanRun(s, before)
    requires var r := Run(s, before);
      w < |r.workers| && r.workers[w] == Worker(false, map[v := 1], map[], None)
    ensures CanRun(s, steps)
    ensures var r, t := Run(s, before), Run(s, steps);
      && t.workers == r.workers[w := IDLE] && t.recorded == r.recorded && t.views.Keys == r.views.Keys
      && Get(t.counters, v) == Get(r.counters, v) - 1
      && (v in r.views ==> t.views[v] == r.views[v] + 1)
  {
    hide CanRun, Run, Lost;
    var r := Run(s, before);
    Extend(s, before, Begin(w));
    steps := before + [Begin(w)];
    var t := Next(r, Begin(w));
    Extend(s, steps, Exec(w, v));
    steps, t := steps + [Exec(w, v)], Next(t, Exec(w, v));
    assert t.workers[w] == Worker(true, map[], if v in r.views then map[v := 1] else map[], Some((v, 1)));
    Extend(s, steps, Decr(w));
    steps, t := steps + [Decr(w)], Next(t, Decr(w));
    Extend(s, steps, Commit(w));
    steps, t := steps + [Commit(w)], Next(t, Commit(w));
    assert t.workers == r.workers[w := IDLE];
  }

  /** One view is counted, and two workers read it. */
  lemma TwoRead(s: System, v: VideoId) returns (steps: seq<Step>)
    requires Init(s) && |s.workers| >= 2
    ensures CanRun(s, steps)
    ensures var t := Run(s, steps);
      && t.workers ==
         s.workers[0 := Worker(false, map[v := 1], map[], None)][1 := Worker(false, map[v := 1], map[], None)]
      && Get(t.recorded, v) == 1 && Get(t.counters, v) == 1 && t.views == s.views
  {
    assert CanRun(s, []) && Run(s, []) == s;
    Extend(s, [], View(v));
    steps := [] + [View(v)];
    var t := Next(s, View(v));
    Extend(s, steps, Read(0, v));
    steps, t := steps + [Read(0, v)], Next(t, Read(0, v));
    Extend(s, steps, Read(1, v));
    steps, t := steps + [Read(1, v)], Next(t, Read(1, v));
  }

  /**
   * Two workers can overdraw: both read the same pending view and both subtract it. Conservation still holds, the row
   * has simply been credited twice.
   */
  lemma TwoWorkersOverdraw(s: System, v: VideoId) returns (steps: seq<Step>)
    requires Init(s) && |s.workers| >= 2
    ensures CanRun(s, steps)
    ensures var t := Run(s, steps);
      && Get(t.recorded, v) == 1 && Get(t.counters, v) == -1 && t.views.Keys == s.views.Keys
      && (v in s.views ==> t.views[v] == s.views[v] + 2)
  {
    hide CanRun, Run;
    steps := TwoRead(s, v);
    steps := OneSync(s, steps, 0, v);
    steps := OneSync(s, steps, 1, v);
  }

  lemma {:induction false} NoWorkers(s: System, steps: seq<Step>)
    requires s.workers == [] && CanRun(s, steps) && forall v :: Get(s.counters, v) >= 0
    ensures forall v :: Get(Run(s, steps).counters, v) >= 0
    decreases |steps|
  {
    if steps != [] {
      forall v ensures Get(Next(s, steps[0]).counters, v) >= 0 {
        assert Get(s.counters, v) >= 0;
      }
      NoWorkers(Next(s, steps[0]), steps[1..]);
    }
  }

  /** No interleaving makes any Redis counter negative. */
  ghost predicate NeverNegative(s: System) {
    forall steps, v :: CanRun(s, steps) ==> Get(Run(s, steps).counters, v) >= 0
  }

  /** Redis counters are safe exactly with at most one worker. */
  lemma NeverNegativeIff(s: System)
    requires Init(s)
    ensures NeverNegative(s) <==> |s.workers| <= 1
  {
    hide CanRun, Run;
    if |s.workers| <= 1 {
      forall steps, v | CanRun(s, steps) ensures Get(Run(s, steps).counters, v) >= 0 {
        if |s.workers| == 1 {
          SingleWorkerNeverNegative(s, steps, v);
        } else {
          NoWorkers(s, steps);
        }
      }
    } else {
      var steps := TwoWorkersOverdraw(s, "");
      assert Get(Run(s, steps).counters, "") == -1;
    }
  }
}
