/**
 * Lock-section granularity: what the rows lose when handlers and reconcile passes interleave. The lock is released
 * before a row is written, and a pass writes rows that it read some time before.
 */
module LivestreamRaces {
  import opened Wrappers
  import opened Livestream
  import opened LivestreamHandlers
  import opened LivestreamRuns
  import opened LivestreamTimers

  // ---------------------------------------------------------------- late offline writes

  /** `k` is published and live, outside every grace period, with no entry for it on the way. */
  predicate Settled(s: State, k: Key) {
    && k in s.published && k in s.rows && s.rows[k].live
    && k !in s.pending
    && forall id :: id in s.inserting ==> s.inserting[id].key != k
  }

  /** A finalize of `k` stands between its lock section and its database write. */
  predicate LateFinalize(closing: map<nat, Closing>, k: Key) {
    exists id :: id in closing && closing[id].key == k
  }

  /** A pass that did not see `k` at SRS may yet list it, has it listed, or is about to write it. */
  predicate LateRepair(p: Pass, k: Key) {
    match p
    case Idle => false
    case Surveyed(active) => k !in active
    case Scanning(active, _, _, todo) => k in todo && k !in active
    case Repairing(active, _, _, todo) => todo != [] && (todo[0] == k || (k in todo[1..] && k !in active))
  }

  /** Nothing that started earlier will write `k` offline: no reported end of a former stream, no finalize, no pass. */
  predicate NoLateWrite(s: State, k: Key) {
    k !in s.ended && !LateFinalize(s.closing, k) && !LateRepair(s.pass, k)
  }

  /** SRS keeps receiving `k`. */
  predicate KeepsPublishing(steps: seq<Step>, k: Key) {
    forall i :: 0 <= i < |steps| ==> steps[i] != End(k) && steps[i] != Drop(k)
  }

  predicate Calm(s: State, k: Key) {
    Settled(s, k) && NoLateWrite(s, k)
  }

  lemma TakeKeepsCalm(s: State, id: nat, k: Key)
    requires Calm(s, k) && id in s.fired
    ensures Calm(TakeStep(s, id), k)
  {
  }

  lemma OfflineKeepsCalm(s: State, id: nat, k: Key)
    requires Calm(s, k) && id in s.closing
    ensures Calm(OfflineStep(s, id), k)
  {
    assert s.closing[id].key != k;
  }

  lemma GoLiveKeepsCalm(s: State, key: Key, k: Key)
    requires Calm(s, k)
    ensures Calm(GoLiveStep(s, key), k)
  {
    hide LateRepair;
  }

  lemma ArmKeepsCalm(s: State, key: Key, k: Key)
    requires Calm(s, k) && key != k
    ensures Calm(ArmStep(s, key), k)
  {
    hide LateRepair;
  }

  lemma ReportedIsOther(s: State, key: Key, k: Key)
    requires Calm(s, k) && key in s.ended
    ensures key != k
  {
  }

  lemma InsertKeepsCalm(s: State, id: nat, k: Key)
    requires Calm(s, k) && id in s.inserting
    ensures Calm(InsertStep(s, id), k)
  {
    hide LateRepair, Bag, Stopped;
  }

  lemma AdmitKeepsCalm(s: State, key: Key, k: Key)
    requires Calm(s, k)
    ensures Calm(AdmitStep(s, key), k)
  {
    hide LateRepair, Bag, Stopped;
  }

  lemma DvrKeepsCalm(s: State, key: Key, k: Key)
    requires Calm(s, k)
    ensures Calm(DvrStep(s, key), k)
  {
    hide LateRepair, Bag;
  }

  lemma PassKeepsCalm(s: State, step: Step, k: Key)
    requires Calm(s, k) && Enabled(s, step) && (step.Survey? || step.List? || step.Inspect? || step.Finish?)
    ensures Calm(Next(s, step), k)
  {
    hide IsListing, LateFinalize;
  }

  lemma RepairKeepsCalm(s: State, k: Key)
    requires Calm(s, k) && Enabled(s, Repair)
    ensures Calm(RepairStep(s), k)
  {
    hide LateFinalize;
  }

  lemma QuietKeepsCalm(s: State, step: Step, k: Key)
    requires Calm(s, k) && Enabled(s, step)
    requires step.Fire? || step.Tick? || (step.End? && step.key != k) || (step.Drop? && step.key != k)
    ensures Calm(Next(s, step), k)
  {
    hide LateRepair;
  }

  lemma StepKeepsCalm(s: State, step: Step, k: Key)
    requires Calm(s, k) && Enabled(s, step) && step != End(k) && step != Drop(k)
    ensures Calm(Next(s, step), k)
  {
    hide Calm, ArmStep, InsertStep, FireStep, TakeStep, OfflineStep, GoLiveStep, AdmitStep, DvrStep, RepairStep,
      IsListing, InspectPass;
    match step
    case Arm(key) =>
      ReportedIsOther(s, key, k);
      ArmKeepsCalm(s, key, k);
    case Insert(id) => InsertKeepsCalm(s, id, k);
    case Take(id) => TakeKeepsCalm(s, id, k);
    case Offline(id) => OfflineKeepsCalm(s, id, k);
    case GoLive(key) => GoLiveKeepsCalm(s, key, k);
    case Admit(key) => AdmitKeepsCalm(s, key, k);
    case Dvr(key) => DvrKeepsCalm(s, key, k);
    case Repair => RepairKeepsCalm(s, k);
    case End(_) => QuietKeepsCalm(s, step, k);
    case Fire(_) => QuietKeepsCalm(s, step, k);
    case Tick(_) => QuietKeepsCalm(s, step, k);
    case Drop(_) => QuietKeepsCalm(s, step, k);
    case _ => PassKeepsCalm(s, step, k);
  }

  lemma {:induction false} CalmStaysLive(s: State, steps: seq<Step>, k: Key)
    requires Calm(s, k) && CanRun(s, steps) && KeepsPublishing(steps, k)
    ensures Calm(Run(s, steps), k)
    decreases |steps|
  {
    hide Calm, Enabled, Next;
    if steps != [] {
      StepKeepsCalm(s, steps[0], k);
      assert forall i :: 0 <= i < |steps[1..]| ==> steps[1..][i] == steps[i + 1];
      CalmStaysLive(Next(s, steps[0]), steps[1..], k);
    }
  }

  // ---------------------------------------------------------------- each late write can happen

  /** Listed rows were read. */
  predicate PassSound(p: Pass) {
    p.Scanning? || p.Repairing? ==> forall i :: 0 <= i < |p.todo| ==> p.todo[i] in p.seen
  }

  lemma StepKeepsPassSound(s: State, step: Step)
    requires PassSound(s.pass) && Enabled(s, step)
    ensures PassSound(Next(s, step).pass)
  {
    if step.Survey? || step.List? || step.Inspect? || step.Repair? || step.Finish? {
      PassStepSound(s, step);
    } else {
      OtherPassSame(s, step);
    }
  }

  lemma PassStepSound(s: State, step: Step)
    requires PassSound(s.pass) && Enabled(s, step)
    requires step.Survey? || step.List? || step.Inspect? || step.Repair? || step.Finish?
    ensures PassSound(Next(s, step).pass)
  {
  }

  lemma OtherPassSame(s: State, step: Step)
    requires Enabled(s, step)
    requires !step.Survey? && !step.List? && !step.Inspect? && !step.Repair? && !step.Finish?
    ensures Next(s, step).pass == s.pass
  {
    hide EndStep, ArmStep, InsertStep, FireStep, TakeStep, OfflineStep, AdmitStep, GoLiveStep, DvrStep;
  }

  lemma {:induction false} RunKeepsPassSound(s: State, steps: seq<Step>)
    requires PassSound(s.pass) && CanRun(s, steps)
    ensures PassSound(Run(s, steps).pass)
    decreases |steps|
  {
    hide Enabled, Next, PassSound;
    if steps != [] {
      StepKeepsPassSound(s, steps[0]);
      RunKeepsPassSound(Next(s, steps[0]), steps[1..]);
    }
  }

  lemma KeepsConcat(a: seq<Step>, b: seq<Step>, k: Key)
    requires KeepsPublishing(a, k) && KeepsPublishing(b, k)
    ensures KeepsPublishing(a + b, k)
  {
  }

  predicate Offed(s: State, k: Key) {
    k in s.rows && !s.rows[k].live
  }

  /** A pass that has `k` on its list goes on until it has written it. */
  lemma {:induction false} ScanHits(s: State, k: Key) returns (steps: seq<Step>)
    requires s.pass.Scanning? && k in s.pass.todo && k !in s.pass.active && k !in s.pending && k in s.rows
    requires PassSound(s.pass)
    ensures CanRun(s, steps) && KeepsPublishing(steps, k) && Offed(Run(s, steps), k)
    decreases |s.pass.todo|
  {
    hide CanRun, Run, Next, Enabled, KeepsPublishing;
    var head := s.pass.todo[0];
    InspectOne(s);
    Run1(s, Inspect);
    steps := [Inspect];
    var t := s.(pass := InspectPass(s));
    if t.pass.Repairing? {
      RepairOne(t);
      Run2(s, Inspect, Repair);
      steps, t := [Inspect, Repair], RepairStep(t);
    }
    LoopKeepsPublishing(steps, k);
    if head != k {
      var rest := ScanHits(t, k);
      RunConcat(s, steps, rest);
      KeepsConcat(steps, rest, k);
      steps := steps + rest;
    }
  }

  lemma LoopKeepsPublishing(steps: seq<Step>, k: Key)
    requires forall i :: 0 <= i < |steps| ==> !steps[i].End? && !steps[i].Drop?
    ensures KeepsPublishing(steps, k)
  {
  }

  /** A reported end of `x` whose grace period runs out takes its row offline and leaves the rest as it was. */
  lemma ReportTakesEffect(s: State, x: Key) returns (steps: seq<Step>)
    requires Clocked(s) && x in s.rows && x in s.ended
    ensures CanRun(s, steps) && forall i :: 0 <= i < |steps| ==> !steps[i].End? && !steps[i].Drop?
    ensures var t := Run(s, steps);
      && Clocked(t) && t.pass == s.pass && t.pending.Keys == s.pending.Keys - {x}
      && exists at :: t.rows == TakeOffline(s.rows, x, at)
  {
    hide CanRun, Run, Next, Enabled, Clocked, TakeOffline, ExpireHandler, StepsOf;
    var id := s.nextId;
    var a := [Arm(x), Insert(id)];
    ReportArms(s, x);
    RunKeepsClocked(s, a);
    var s1 := Run(s, a);
    WaitOne(s1, s.grace);
    Extend(s, a, Tick(s.grace));
    var s2 := s1.(now := s1.now + s.grace);
    var b := StepsOf(s2, Expire(id));
    ExpireIsRun(s2, id);
    ExpireTakes(s2, id);
    ExpireSteps(s2, id);
    RunConcat(s, a + [Tick(s.grace)], b);
    steps := a + [Tick(s.grace)] + b;
    RunKeepsClocked(s, steps);
    assert Run(s, steps).rows == TakeOffline(s.rows, x, s2.now);
  }

  lemma ExpireSteps(s: State, id: nat)
    ensures var steps := StepsOf(s, Expire(id));
      forall i :: 0 <= i < |steps| ==> !steps[i].End? && !steps[i].Drop?
  {
  }

  lemma WaitOne(s: State, d: nat)
    ensures Enabled(s, Tick(d)) && Next(s, Tick(d)) == s.(now := s.now + d)
  {
  }

  lemma ReportArms(s: State, x: Key)
    requires Clocked(s) && x in s.rows && x in s.ended
    ensures CanRun(s, [Arm(x), Insert(s.nextId)])
    ensures Armed(s, Run(s, [Arm(x), Insert(s.nextId)]), x)
  {
    hide Clocked, Armed, InsertStep;
    ArmedAfterInsert(s, x);
    Run2(s, Arm(x), Insert(s.nextId));
  }

  /** `t` is `s` with `x` in a grace period that has just started. */
  predicate Armed(s: State, t: State, x: Key) {
    && x in t.pending && t.pending.Keys == s.pending.Keys + {x}
    && s.nextId in t.armed && t.armed[s.nextId] == Timer(x, s.now + s.grace)
    && s.nextId !in t.closing && t.rows == s.rows && t.pass == s.pass && t.now == s.now
  }

  lemma ArmedAfterInsert(s: State, x: Key)
    requires Clocked(s)
    ensures Armed(s, InsertStep(ArmStep(s, x), s.nextId), x)
  {
    hide Bag, Stopped;
  }

  lemma ExpireTakes(s: State, id: nat)
    requires id in s.armed && id !in s.closing && s.armed[id].key in s.pending
    ensures var t := ExpireHandler(s, id);
      && t.rows == TakeOffline(s.rows, s.armed[id].key, s.now) && t.pass == s.pass
      && t.pending == s.pending - {s.armed[id].key}
  {
    hide Bag;
  }

  lemma EndOne(s: State, x: Key)
    requires Clocked(s)
    ensures Enabled(s, End(x)) && Next(s, End(x)) == EndStep(s, x) && Clocked(EndStep(s, x))
    ensures var t := EndStep(s, x); x in t.ended && t.rows == s.rows && t.pass == s.pass && t.pending == s.pending
  {
    StepKeepsClocked(s, End(x));
  }

  /** The stream `x` ends for good. */
  lemma DrainOne(s: State, x: Key, k: Key) returns (steps: seq<Step>)
    requires Clocked(s) && x in s.rows && x != k && k !in s.pending
    ensures CanRun(s, steps) && KeepsPublishing(steps, k)
    ensures var t := Run(s, steps);
      && Clocked(t) && t.pass == s.pass && k !in t.pending
      && exists at :: t.rows == TakeOffline(s.rows, x, at)
  {
    hide CanRun, Run, Next, Enabled, Clocked, TakeOffline, EndStep;
    EndOne(s, x);
    Run1(s, End(x));
    var rest := ReportTakesEffect(EndStep(s, x), x);
    RunConcat(s, [End(x)], rest);
    steps := [End(x)] + rest;
  }

  /** Every row but that of `k` can be drained, without a word about `k`. */
  lemma {:induction false} DrainAll(s: State, k: Key, others: set<Key>) returns (steps: seq<Step>)
    requires Clocked(s) && k in s.rows && s.rows[k].live && k !in s.pending && others == LiveKeys(s.rows) - {k}
    ensures CanRun(s, steps) && KeepsPublishing(steps, k)
    ensures var t := Run(s, steps); t.pass == s.pass && k !in t.pending && LiveKeys(t.rows) == {k}
    decreases |others|
  {
    hide Clocked, Next, Enabled;
    steps := [];
    if others == {} {
      assert LiveKeys(s.rows) == {k};
    } else {
      var x :| x in others;
      var first := DrainOne(s, x, k);
      var t := Run(s, first);
      assert LiveKeys(t.rows) - {k} == others - {x};
      var rest := DrainAll(t, k, others - {x});
      RunConcat(s, first, rest);
      KeepsConcat(first, rest, k);
      steps := first + rest;
    }
  }

  /** A pass that has asked SRS in vain for `k` can list it after the other streams have ended. */
  lemma SurveyHits(s: State, k: Key) returns (steps: seq<Step>)
    requires Clocked(s) && Settled(s, k) && s.pass.Surveyed? && k !in s.pass.active
    ensures CanRun(s, steps) && KeepsPublishing(steps, k) && Offed(Run(s, steps), k)
  {
    hide CanRun, Run, Next, Enabled, Clocked, KeepsPublishing, LiveKeys;
    var drain := DrainAll(s, k, LiveKeys(s.rows) - {k});
    var t := Run(s, drain);
    ListOne(t, k);
    Extend(s, drain, List([k]));
    LoopKeepsPublishing([List([k])], k);
    KeepsConcat(drain, [List([k])], k);
    var rest := ScanHits(Next(t, List([k])), k);
    RunConcat(s, drain + [List([k])], rest);
    KeepsConcat(drain + [List([k])], rest, k);
    steps := drain + [List([k])] + rest;
  }

  lemma ListOne(s: State, k: Key)
    requires s.pass.Surveyed? && LiveKeys(s.rows) == {k}
    ensures Enabled(s, List([k])) && k in s.rows
    ensures Next(s, List([k])) == s.(pass := Scanning(s.pass.active, s.now, s.rows, [k]))
  {
    assert k in LiveKeys(s.rows);
  }

  lemma RepairHits(s: State, k: Key) returns (steps: seq<Step>)
    requires Settled(s, k) && s.pass.Repairing? && LateRepair(s.pass, k) && PassSound(s.pass)
    ensures CanRun(s, steps) && KeepsPublishing(steps, k) && Offed(Run(s, steps), k)
  {
    hide CanRun, Run, Next, Enabled, KeepsPublishing;
    steps := [Repair];
    RepairOne(s);
    Run1(s, Repair);
    LoopKeepsPublishing(steps, k);
    if s.pass.todo[0] != k {
      var rest := ScanHits(RepairStep(s), k);
      RunConcat(s, steps, rest);
      KeepsConcat(steps, rest, k);
      steps := steps + rest;
    }
  }

  /** The reported end of a former stream of `k` is taken for that of the present one. */
  lemma ReportHits(s: State, k: Key) returns (steps: seq<Step>)
    requires Clocked(s) && Settled(s, k) && k in s.ended
    ensures CanRun(s, steps) && KeepsPublishing(steps, k) && Offed(Run(s, steps), k)
  {
    hide CanRun, Run, Clocked;
    steps := ReportTakesEffect(s, k);
  }

  lemma FinalizeHits(s: State, k: Key) returns (steps: seq<Step>)
    requires Settled(s, k) && LateFinalize(s.closing, k)
    ensures CanRun(s, steps) && KeepsPublishing(steps, k) && Offed(Run(s, steps), k)
  {
    var id :| id in s.closing && s.closing[id].key == k;
    steps := [Offline(id)];
    Run1(s, Offline(id));
  }

  // ---------------------------------------------------------------- exactly when a published row is safe

  /** In every continuation in which SRS keeps receiving `k`, its row is live. */
  ghost predicate StaysLive(s: State, k: Key) {
    forall steps :: CanRun(s, steps) && KeepsPublishing(steps, k) ==>
      k in Run(s, steps).rows && Run(s, steps).rows[k].live
  }

  /**
   * A published stream with a live row, in any reachable state, keeps it through every interleaving if and only if no
   * report of an earlier end of it, no finalize of its key and no reconcile pass that missed it at SRS is under way.
   */
  lemma LiveIffNoLateWrite(s: State, before: seq<Step>, k: Key)
    requires Init(s) && CanRun(s, before) && Settled(Run(s, before), k)
    ensures StaysLive(Run(s, before), k) <==> NoLateWrite(Run(s, before), k)
  {
    hide Enabled, Next, Clocked, PassSound;
    var t := Run(s, before);
    InitSound(s);
    RunKeepsClocked(s, before);
    RunKeepsPassSound(s, before);
    if NoLateWrite(t, k) {
      forall steps | CanRun(t, steps) && KeepsPublishing(steps, k)
        ensures k in Run(t, steps).rows && Run(t, steps).rows[k].live
      {
        CalmStaysLive(t, steps, k);
      }
    } else {
      var _ := LateWriteHits(t, k);
    }
  }

  lemma InitSound(s: State)
    requires Init(s)
    ensures Clocked(s) && PassSound(s.pass)
  {
  }

  lemma LateWriteHits(s: State, k: Key) returns (steps: seq<Step>)
    requires Clocked(s) && PassSound(s.pass) && Settled(s, k) && !NoLateWrite(s, k)
    ensures CanRun(s, steps) && KeepsPublishing(steps, k) && Offed(Run(s, steps), k)
  {
    hide CanRun, Run, Enabled, Next, Clocked, KeepsPublishing, LateFinalize;
    if k in s.ended {
      steps := ReportHits(s, k);
    } else if LateFinalize(s.closing, k) {
      steps := FinalizeHits(s, k);
    } else {
      match s.pass
      case Surveyed(_) => steps := SurveyHits(s, k);
      case Scanning(_, _, _, _) => steps := ScanHits(s, k);
      case Repairing(_, _, _, _) => steps := RepairHits(s, k);
    }
  }
}
