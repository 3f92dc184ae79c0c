/** Runs of lock sections: composing them, and whole handlers as runs. */
module LivestreamRuns {
  import opened Livestream
  import opened LivestreamAccounting
  import opened LivestreamHandlers
  import opened LivestreamRecordings

  // ---------------------------------------------------------------- composing runs

  lemma Run1(s: State, a: Step)
    requires Enabled(s, a)
    ensures CanRun(s, [a]) && Run(s, [a]) == Next(s, a)
  {
    hide Next, Enabled;
    assert [a][1..] == [];
  }

  lemma Run2(s: State, a: Step, b: Step)
    requires Enabled(s, a) && Enabled(Next(s, a), b)
    ensures CanRun(s, [a, b]) && Run(s, [a, b]) == Next(Next(s, a), b)
  {
    hide Next, Enabled;
    assert [a, b][1..] == [b];
    Run1(Next(s, a), b);
  }

  lemma {:induction false} RunConcat(s: State, a: seq<Step>, b: seq<Step>)
    requires CanRun(s, a) && CanRun(Run(s, a), b)
    ensures CanRun(s, a + b) && Run(s, a + b) == Run(Run(s, a), b)
    decreases |a|
  {
    hide Next, Enabled;
    if a == [] {
      assert a + b == b;
    } else {
      assert (a + b)[0] == a[0] && (a + b)[1..] == a[1..] + b;
      RunConcat(Next(s, a[0]), a[1..], b);
    }
  }

  lemma Extend(s: State, steps: seq<Step>, step: Step)
    requires CanRun(s, steps) && Enabled(Run(s, steps), step)
    ensures CanRun(s, steps + [step]) && Run(s, steps + [step]) == Next(Run(s, steps), step)
  {
    hide Next, Enabled;
    Run1(Run(s, steps), step);
    RunConcat(s, steps, [step]);
  }

  // ---------------------------------------------------------------- handlers are runs of steps

  /** The steps of the reconcile loop over `todo`. */
  function LoopSteps(s: State, active: set<Key>, todo: seq<Key>): seq<Step> {
    if todo == [] then []
    else (if todo[0] in active || todo[0] in s.pending then [Inspect] else [Inspect, Repair])
         + LoopSteps(s, active, todo[1..])
  }

  function StepsOf(s: State, h: Handler): seq<Step> {
    match h
    case Wait(d) => [Tick(d)]
    case Publish(k) => if k in s.pending then [Admit(k)] else [Admit(k), GoLive(k)]
    case Unpublish(k) => if k in s.rows then [End(k), Arm(k), Insert(s.nextId)] else []
    case Expire(id) =>
      if id in s.armed && s.armed[id].key in s.pending then [Fire(id), Take(id), Offline(id)] else [Fire(id), Take(id)]
    case Recording(k) => [Dvr(k)]
    case Vanish(k) => [Drop(k)]
    case Reconcile(listing) => [Survey, List(listing)] + LoopSteps(s, s.published, listing) + [Finish]
  }

  /** Every handler, a reconcile pass included, is a run of the finer machine with the same outcome. */
  lemma HandlerIsRun(s: State, h: Handler)
    requires Possible(s, h) && s.closing == map[] && s.pass == Idle
    ensures CanRun(s, StepsOf(s, h)) && Run(s, StepsOf(s, h)) == Handle(s, h)
  {
    hide StepsOf, ExpireHandler, UnpublishHandler, PublishHandler, ReconcileRows, IsListing;
    match h
    case Publish(k) => PublishIsRun(s, k);
    case Unpublish(k) => UnpublishIsRun(s, k);
    case Expire(id) => ExpireIsRun(s, id);
    case Reconcile(listing) => ReconcileIsRun(s, listing);
    case _ => OneStepIsRun(s, h);
  }

  lemma OneStepIsRun(s: State, h: Handler)
    requires h.Wait? || h.Recording? || h.Vanish?
    ensures CanRun(s, StepsOf(s, h)) && Run(s, StepsOf(s, h)) == Handle(s, h)
  {
    Run1(s, StepsOf(s, h)[0]);
  }

  lemma PublishIsRun(s: State, k: Key)
    ensures CanRun(s, StepsOf(s, Publish(k))) && Run(s, StepsOf(s, Publish(k))) == PublishHandler(s, k)
  {
    if k in s.pending {
      Run1(s, Admit(k));
    } else {
      Run2(s, Admit(k), GoLive(k));
    }
  }

  lemma UnpublishIsRun(s: State, k: Key)
    ensures CanRun(s, StepsOf(s, Unpublish(k))) && Run(s, StepsOf(s, Unpublish(k))) == UnpublishHandler(s, k)
  {
    if k in s.rows {
      hide InsertStep, ArmStep;
      ReportIsRun(EndStep(s, k), k);
      Run1(s, End(k));
      RunConcat(s, [End(k)], [Arm(k), Insert(s.nextId)]);
      assert [End(k)] + [Arm(k), Insert(s.nextId)] == [End(k), Arm(k), Insert(s.nextId)];
    }
  }

  /** The unpublish handler from the reported end on. */
  lemma ReportIsRun(s: State, k: Key)
    requires k in s.rows && k in s.ended
    ensures CanRun(s, [Arm(k), Insert(s.nextId)])
    ensures Run(s, [Arm(k), Insert(s.nextId)]) == InsertStep(ArmStep(s, k), s.nextId)
  {
    hide InsertStep, ArmStep, Next, Enabled;
    ArmOne(s, k);
    InsertOne(ArmStep(s, k), s.nextId);
    Run2(s, Arm(k), Insert(s.nextId));
  }

  lemma ArmOne(s: State, k: Key)
    requires k in s.rows && k in s.ended
    ensures Enabled(s, Arm(k)) && Next(s, Arm(k)) == ArmStep(s, k) && s.nextId in ArmStep(s, k).inserting
  {
  }

  lemma InsertOne(s: State, id: nat)
    requires id in s.inserting
    ensures Enabled(s, Insert(id)) && Next(s, Insert(id)) == InsertStep(s, id)
  {
  }

  lemma ExpireIsRun(s: State, id: nat)
    requires id in s.armed && s.armed[id].deadline <= s.now && id !in s.closing
    ensures CanRun(s, StepsOf(s, Expire(id))) && Run(s, StepsOf(s, Expire(id))) == ExpireHandler(s, id)
  {
    var s1 := Next(s, Fire(id));
    if s.armed[id].key in s.pending {
      assert [Fire(id), Take(id), Offline(id)][1..] == [Take(id), Offline(id)];
      Run2(s1, Take(id), Offline(id));
    } else {
      Run2(s, Fire(id), Take(id));
    }
  }

  /** The state of an uninterrupted pass with `done` behind it and `todo` before it. */
  function MidPass(s: State, active: set<Key>, done: seq<Key>, todo: seq<Key>): State {
    s.(rows := ReconcileRows(s, active, done), pass := Scanning(active, s.now, s.rows, todo))
  }

  lemma OneTurn(s: State, active: set<Key>, done: seq<Key>, todo: seq<Key>)
    requires todo != [] && todo[0] in s.rows
    ensures var r := MidPass(s, active, done, todo);
      var turn := if todo[0] in active || todo[0] in s.pending then [Inspect] else [Inspect, Repair];
      CanRun(r, turn) && Run(r, turn) == MidPass(s, active, done + [todo[0]], todo[1..])
  {
    hide ReconcileRows, Next, Enabled;
    var k := todo[0];
    var r := MidPass(s, active, done, todo);
    ReconcileOneMore(s, active, done, k);
    InspectOne(r);
    if k in active || k in s.pending {
      Run1(r, Inspect);
    } else {
      RepairOne(r.(pass := Repairing(active, s.now, s.rows, todo)));
      Run2(r, Inspect, Repair);
    }
  }

  lemma InspectOne(r: State)
    requires r.pass.Scanning? && r.pass.todo != []
    ensures Enabled(r, Inspect) && Next(r, Inspect) == r.(pass := InspectPass(r))
  {
  }

  lemma RepairOne(r: State)
    requires r.pass.Repairing? && r.pass.todo != []
    ensures Enabled(r, Repair) && Next(r, Repair) == RepairStep(r)
  {
  }

  lemma {:induction false} LoopIsRun(s: State, active: set<Key>, done: seq<Key>, todo: seq<Key>)
    requires forall i :: 0 <= i < |todo| ==> todo[i] in s.rows
    ensures var r := MidPass(s, active, done, todo);
      CanRun(r, LoopSteps(s, active, todo)) && Run(r, LoopSteps(s, active, todo)) == MidPass(s, active, done + todo, [])
    decreases |todo|
  {
    hide MidPass, Next, Enabled;
    if todo == [] {
      assert done + todo == done;
    } else {
      OneTurn(s, active, done, todo);
      LoopIsRun(s, active, done + [todo[0]], todo[1..]);
      assert done + [todo[0]] + todo[1..] == done + todo;
      RunConcat(MidPass(s, active, done, todo),
                if todo[0] in active || todo[0] in s.pending then [Inspect] else [Inspect, Repair],
                LoopSteps(s, active, todo[1..]));
    }
  }

  lemma ReconcileIsRun(s: State, listing: seq<Key>)
    requires s.pass == Idle && IsListing(s.rows, listing)
    ensures CanRun(s, StepsOf(s, Reconcile(listing)))
    ensures Run(s, StepsOf(s, Reconcile(listing))) == s.(rows := ReconcileRows(s, s.published, listing))
  {
    hide LoopSteps, CanRun, Run, ReconcileRows, IsListing, Next, Enabled, MidPass;
    var loop := LoopSteps(s, s.published, listing);
    PassStarts(s, listing);
    assert [] + listing == listing;
    LoopIsRun(s, s.published, [], listing);
    RunConcat(s, [Survey, List(listing)], loop);
    PassEnds(s, listing);
    Extend(s, [Survey, List(listing)] + loop, Finish);
  }

  lemma PassEnds(s: State, listing: seq<Key>)
    requires s.pass == Idle
    ensures var r := MidPass(s, s.published, listing, []);
      Enabled(r, Finish) && Next(r, Finish) == s.(rows := ReconcileRows(s, s.published, listing))
  {
    hide ReconcileRows;
  }

  lemma PassStarts(s: State, listing: seq<Key>)
    requires s.pass == Idle && IsListing(s.rows, listing)
    ensures CanRun(s, [Survey, List(listing)])
    ensures Run(s, [Survey, List(listing)]) == MidPass(s, s.published, [], listing)
    ensures forall i :: 0 <= i < |listing| ==> listing[i] in s.rows
  {
    ReconcileNothing(s, s.published);
    Run2(s, Survey, List(listing));
  }

  /** A run of whole handlers is a run of lock sections, so what holds of all interleavings holds of it. */
  lemma {:induction false} HandlersAreRun(s: State, hs: seq<Handler>) returns (steps: seq<Step>)
    requires Timely(s) && CanHandle(s, hs)
    ensures CanRun(s, steps) && Run(s, steps) == HandleAll(s, hs)
    decreases |hs|
  {
    hide StepsOf, Handle, Possible, TimersAgree, HistoryAgrees;
    if hs == [] {
      steps := [];
    } else {
      HandlerIsRun(s, hs[0]);
      HandlerKeepsTimely(s, hs[0]);
      var rest := HandlersAreRun(Handle(s, hs[0]), hs[1..]);
      RunConcat(s, StepsOf(s, hs[0]), rest);
      steps := StepsOf(s, hs[0]) + rest;
    }
  }

  /** In particular the books balance and recordings share the fate of their entries after whole handlers. */
  lemma HandlersAccountedOnce(s: State, hs: seq<Handler>, id: nat, d: nat)
    requires Init(s) && CanHandle(s, hs)
    ensures AccountedOnce(HandleAll(s, hs), id, d)
    ensures var t := HandleAll(s, hs);
      d in t.ledger.home ==> SharesFate(t.pending, t.closing, t.ledger, d, t.ledger.home[d])
  {
    hide AccountedOnce, SharesFate;
    InitInv(s);
    var steps := HandlersAreRun(s, hs);
    EveryEventAccountedOnce(s, steps, id, d);
    if d in HandleAll(s, hs).ledger.home {
      RecordingSharesFate(s, steps, d);
    }
  }
}
