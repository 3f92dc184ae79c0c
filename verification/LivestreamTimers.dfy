/**
 * Timers at lock-section granularity: `Timer.Stop` does not wait for a callback that has already fired, and a callback
 * takes whatever entry its key has.
 */
module LivestreamTimers {
  import opened Livestream
  import opened LivestreamAccounting
  import opened LivestreamRuns

  // ---------------------------------------------------------------- a callback that finds its own entry is on time

  predicate TimerOf(s: State, id: nat, k: Key, since: int) {
    && (id in s.armed ==> s.armed[id] == Timer(k, since + s.grace))
    && (id in s.fired ==> s.fired[id] == Timer(k, since + s.grace))
  }

  predicate Clocked(s: State) {
    && (forall id :: id in s.armed ==> id < s.nextId)
    && (forall id :: id in s.fired ==> id < s.nextId && s.fired[id].deadline <= s.now)
    && (forall id :: id in s.closing ==> id < s.nextId)
    && (forall id :: id in s.inserting ==> id < s.nextId && TimerOf(s, id, s.inserting[id].key, s.inserting[id].at))
    && (forall k :: k in s.pending ==> s.pending[k].id < s.nextId && TimerOf(s, s.pending[k].id, k, s.pending[k].since))
  }

  lemma InitClocked(s: State)
    requires Init(s)
    ensures Clocked(s)
  {
  }

  lemma ArmKeepsClocked(s: State, k: Key)
    requires Clocked(s)
    ensures Clocked(ArmStep(s, k))
  {
  }

  lemma InsertKeepsClocked(s: State, id: nat)
    requires Clocked(s) && id in s.inserting
    ensures Clocked(InsertStep(s, id))
  {
    hide Bag, Stopped;
    var k, t := s.inserting[id].key, InsertStep(s, id);
    assert TimerOf(s, id, k, s.inserting[id].at);
    forall x | x in t.pending ensures t.pending[x].id < t.nextId && TimerOf(t, t.pending[x].id, x, t.pending[x].since) {
      assert x != k ==> TimerOf(s, s.pending[x].id, x, s.pending[x].since);
    }
  }

  lemma FireKeepsClocked(s: State, id: nat)
    requires Clocked(s) && id in s.armed && s.armed[id].deadline <= s.now
    ensures Clocked(FireStep(s, id))
  {
  }

  predicate FewerEntries(p: map<Key, Entry>, q: map<Key, Entry>) {
    forall k :: k in q ==> k in p && q[k].id == p[k].id && q[k].since == p[k].since
  }

  predicate FewerTimers(p: map<nat, Timer>, q: map<nat, Timer>) {
    forall id :: id in q ==> id in p && q[id] == p[id]
  }

  /** `t` has lost entries or timers of `s`, or entries have gained a recording; time may have passed. */
  predicate Shrunk(s: State, t: State) {
    && FewerEntries(s.pending, t.pending) && FewerTimers(s.armed, t.armed) && FewerTimers(s.fired, t.fired)
    && t.inserting == s.inserting && t.nextId == s.nextId && t.grace == s.grace && t.now >= s.now
    && t.closing.Keys <= s.closing.Keys + s.fired.Keys
  }

  lemma FewerAfterRemoval(p: map<Key, Entry>, k: Key, armed: map<nat, Timer>, id: nat)
    ensures FewerEntries(p, p - {k}) && FewerTimers(armed, armed - {id})
    ensures FewerEntries(p, p) && FewerTimers(armed, armed)
  {
  }

  lemma ShrinkKeepsClocked(s: State, t: State)
    requires Clocked(s) && Shrunk(s, t)
    ensures Clocked(t)
  {
  }

  lemma TakeShrinks(s: State, id: nat)
    requires id in s.fired
    ensures Shrunk(s, TakeStep(s, id))
  {
    hide FewerEntries, FewerTimers;
    FewerAfterRemoval(s.pending, s.fired[id].key, s.fired, id);
    FewerAfterRemoval(s.pending, s.fired[id].key, s.armed, id);
  }

  lemma AdmitShrinks(s: State, k: Key)
    ensures Shrunk(s, AdmitStep(s, k))
  {
    hide FewerEntries, FewerTimers;
    var id := if k in s.pending then s.pending[k].id else 0;
    FewerAfterRemoval(s.pending, k, s.armed, id);
    FewerAfterRemoval(s.pending, k, s.fired, id);
  }

  lemma DvrShrinks(s: State, k: Key)
    ensures Shrunk(s, DvrStep(s, k))
  {
    hide FewerTimers, Bag;
    FewerAfterRemoval(s.pending, k, s.armed, 0);
    FewerAfterRemoval(s.pending, k, s.fired, 0);
  }

  lemma WriteShrinks(s: State, step: Step)
    requires Enabled(s, step) && !step.Arm? && !step.Insert? && !step.Fire? && !step.Take? && !step.Admit? && !step.Dvr?
    ensures Shrunk(s, Next(s, step))
  {
    hide FewerEntries, FewerTimers, OfflineStep, GoLiveStep, RepairStep, IsListing, InspectPass;
    FewerAfterRemoval(s.pending, "", s.armed, 0);
    FewerAfterRemoval(s.pending, "", s.fired, 0);
  }

  lemma StepKeepsClocked(s: State, step: Step)
    requires Clocked(s) && Enabled(s, step)
    ensures Clocked(Next(s, step))
  {
    hide Clocked, Shrunk, ArmStep, InsertStep, FireStep, TakeStep, AdmitStep, DvrStep, OfflineStep, GoLiveStep,
      RepairStep, IsListing, InspectPass;
    match step {
      case Arm(k) => ArmKeepsClocked(s, k);
      case Insert(id) => InsertKeepsClocked(s, id);
      case Fire(id) => FireKeepsClocked(s, id);
      case Take(id) => TakeShrinks(s, id);
      case Admit(k) => AdmitShrinks(s, k);
      case Dvr(k) => DvrShrinks(s, k);
      case _ => WriteShrinks(s, step);
    }
    if !step.Arm? && !step.Insert? && !step.Fire? {
      ShrinkKeepsClocked(s, Next(s, step));
    }
  }

  lemma {:induction false} RunKeepsClocked(s: State, steps: seq<Step>)
    requires Clocked(s) && CanRun(s, steps)
    ensures Clocked(Run(s, steps))
    decreases |steps|
  {
    hide Clocked, Enabled, Next;
    if steps != [] {
      StepKeepsClocked(s, steps[0]);
      RunKeepsClocked(Next(s, steps[0]), steps[1..]);
    }
  }

  /** Any interleaving: a callback that takes the entry of its own unpublish does so a full grace period later. */
  lemma OwnCallbackIsOnTime(s: State, steps: seq<Step>, id: nat)
    requires Init(s) && CanRun(s, steps)
    requires var t := Run(s, steps);
      id in t.fired && t.fired[id].key in t.pending && t.pending[t.fired[id].key].id == id
    ensures var t := Run(s, steps);
      t.pending[t.fired[id].key].since + t.grace <= t.now
  {
    RunKeepsClocked(s, steps);
  }

  // ---------------------------------------------------------------- exactly when a grace period can end early

  /** None of the steps reports anything new about `k`: no unpublish starts or is inserted, no publish comes in. */
  predicate Undisturbed(s: State, steps: seq<Step>, k: Key) {
    forall i :: 0 <= i < |steps| ==> !Disturbs(s, steps[i], k)
  }

  predicate Disturbs(s: State, step: Step, k: Key) {
    || step == Arm(k) || step == Admit(k)
    || (step.Insert? && step.id in s.inserting && s.inserting[step.id].key == k)
  }

  /** When the grace period of the pending key `k` is over. */
  function Due(s: State, k: Key): int
    requires k in s.pending
  {
    s.pending[k].since + s.grace
  }

  /** Some undisturbed continuation finalizes the pending entry of `k` before its grace period is over. */
  ghost predicate CanEndEarly(s: State, k: Key)
    requires k in s.pending
  {
    exists steps :: CanRun(s, steps) && Undisturbed(s, steps, k) &&
                    s.pending[k].id in Run(s, steps).ledger.consumed && Run(s, steps).now < Due(s, k)
  }

  /** A timer of `k` other than the entry's own has fired, or is due before the grace period is over. */
  ghost predicate StrayTimer(s: State, k: Key)
    requires k in s.pending
  {
    exists id :: id != s.pending[k].id && IsStray(s, k, id)
  }

  predicate IsStray(s: State, k: Key, id: nat)
    requires k in s.pending
  {
    || (id in s.fired && s.fired[id].key == k)
    || (id in s.armed && s.armed[id].key == k && s.armed[id].deadline < Due(s, k))
  }

  /** The entry of `k` is still that of unpublish `id`, with no stray timer. */
  ghost predicate Guarded(s: State, k: Key, id: nat, due: int) {
    k in s.pending && s.pending[k].id == id && Due(s, k) == due && !StrayTimer(s, k)
  }

  lemma OwnTimerIsLater(s: State, k: Key, id: nat, due: int)
    requires Clocked(s) && Guarded(s, k, id, due) && s.now < due
    ensures forall x :: x in s.fired ==> s.fired[x].key != k
    ensures forall x :: x in s.armed && s.armed[x].key == k ==> s.now < s.armed[x].deadline
  {
    assert TimerOf(s, id, k, s.pending[k].since);
    forall x | x in s.fired ensures s.fired[x].key != k {
      assert x == id || !IsStray(s, k, x);
    }
    forall x | x in s.armed && s.armed[x].key == k ensures s.now < s.armed[x].deadline {
      assert x == id || !IsStray(s, k, x);
    }
  }

  /** `t` has the same entry for `k` as `s`, and no new timer of `k`. */
  predicate SameEntry(s: State, t: State, k: Key) {
    && k in s.pending && k in t.pending && t.grace == s.grace
    && t.pending[k].id == s.pending[k].id && t.pending[k].since == s.pending[k].since
    && (forall x :: x in t.armed && t.armed[x].key == k ==> x in s.armed && t.armed[x] == s.armed[x])
    && (forall x :: x in t.fired && t.fired[x].key == k ==> x in s.fired && t.fired[x] == s.fired[x])
  }

  lemma GuardKept(s: State, t: State, k: Key, id: nat, due: int)
    requires Guarded(s, k, id, due) && SameEntry(s, t, k)
    ensures Guarded(t, k, id, due)
  {
    forall x | x != id ensures !IsStray(t, k, x) {
      assert !IsStray(s, k, x);
    }
  }

  lemma UnpublishSameEntry(s: State, step: Step, k: Key)
    requires k in s.pending && Enabled(s, step) && !Disturbs(s, step, k) && (step.Arm? || step.Insert?)
    ensures SameEntry(s, Next(s, step), k)
  {
    hide Bag, Stopped;
  }

  lemma TimerSameEntry(s: State, step: Step, k: Key)
    requires k in s.pending && Enabled(s, step) && (step.Fire? || step.Take?)
    requires step.Fire? ==> s.armed[step.id].key != k
    requires step.Take? ==> s.fired[step.id].key != k
    ensures SameEntry(s, Next(s, step), k)
  {
  }

  lemma OtherSameEntry(s: State, step: Step, k: Key)
    requires k in s.pending && Enabled(s, step) && !Disturbs(s, step, k)
    requires !step.Arm? && !step.Insert? && !step.Fire? && !step.Take?
    ensures SameEntry(s, Next(s, step), k)
  {
    hide IsListing, InspectPass, OfflineStep, GoLiveStep, RepairStep, AdmitStep, DvrStep;
    match step
    case Admit(x) => AdmitSameEntry(s, x, k);
    case Dvr(x) => DvrSameEntry(s, x, k);
    case _ =>
  }

  lemma AdmitSameEntry(s: State, x: Key, k: Key)
    requires k in s.pending && x != k
    ensures SameEntry(s, AdmitStep(s, x), k)
  {
    hide Bag, Stopped;
  }

  lemma DvrSameEntry(s: State, x: Key, k: Key)
    requires k in s.pending
    ensures SameEntry(s, DvrStep(s, x), k)
  {
    hide Bag;
  }

  lemma StepKeepsGuard(s: State, step: Step, k: Key, id: nat, due: int)
    requires Clocked(s) && Guarded(s, k, id, due) && s.now < due && Enabled(s, step) && !Disturbs(s, step, k)
    ensures Guarded(Next(s, step), k, id, due)
  {
    hide Clocked, StrayTimer, SameEntry, Disturbs, Next;
    OwnTimerIsLater(s, k, id, due);
    match step {
      case Arm(_) => UnpublishSameEntry(s, step, k);
      case Insert(_) => UnpublishSameEntry(s, step, k);
      case Fire(_) => TimerSameEntry(s, step, k);
      case Take(_) => TimerSameEntry(s, step, k);
      case _ => OtherSameEntry(s, step, k);
    }
    GuardKept(s, Next(s, step), k, id, due);
  }

  lemma ClockRunsOn(s: State, step: Step)
    requires Enabled(s, step)
    ensures s.now <= Next(s, step).now && Next(s, step).grace == s.grace
  {
    hide ArmStep, InsertStep, FireStep, TakeStep, OfflineStep, AdmitStep, GoLiveStep, DvrStep, RepairStep, IsListing,
      InspectPass;
  }

  lemma {:induction false} TimePasses(s: State, steps: seq<Step>)
    requires CanRun(s, steps)
    ensures s.now <= Run(s, steps).now
    decreases |steps|
  {
    hide Next, Enabled;
    if steps != [] {
      ClockRunsOn(s, steps[0]);
      TimePasses(Next(s, steps[0]), steps[1..]);
    }
  }

  lemma NoNewArrival(s: State, step: Step, k: Key)
    requires Enabled(s, step) && step != Arm(k)
    ensures var t := Next(s, step);
      forall x :: x in t.inserting && t.inserting[x].key == k ==> x in s.inserting && s.inserting[x].key == k
  {
    hide InsertStep, FireStep, TakeStep, OfflineStep, AdmitStep, GoLiveStep, DvrStep, RepairStep, IsListing,
      InspectPass;
  }

  lemma StillUndisturbed(s: State, steps: seq<Step>, k: Key)
    requires CanRun(s, steps) && Undisturbed(s, steps, k) && steps != []
    ensures Undisturbed(Next(s, steps[0]), steps[1..], k)
  {
    var t := Next(s, steps[0]);
    assert !Disturbs(s, steps[0], k);
    NoNewArrival(s, steps[0], k);
    hide Next;
    forall i | 0 <= i < |steps[1..]| ensures !Disturbs(t, steps[1..][i], k) {
      assert steps[1..][i] == steps[i + 1] && !Disturbs(s, steps[i + 1], k);
    }
  }

  lemma {:induction false} RunKeepsGuard(s: State, steps: seq<Step>, k: Key, id: nat, due: int)
    requires Clocked(s) && Guarded(s, k, id, due) && CanRun(s, steps) && Undisturbed(s, steps, k)
    requires Run(s, steps).now < due
    ensures Guarded(Run(s, steps), k, id, due)
    decreases |steps|
  {
    hide Clocked, Guarded, Enabled, Next, Disturbs;
    TimePasses(s, steps);
    if steps != [] {
      StepKeepsGuard(s, steps[0], k, id, due);
      StepKeepsClocked(s, steps[0]);
      StillUndisturbed(s, steps, k);
      RunKeepsGuard(Next(s, steps[0]), steps[1..], k, id, due);
    }
  }

  lemma PendingIsNotConsumed(s: State, k: Key)
    requires Accounted(s) && k in s.pending
    ensures s.pending[k].id !in s.ledger.consumed
  {
    hide TimerTally, DvrTally;
    assert Balanced(s, s.pending[k].id);
    assert k in KeysWaiting(s.pending, s.pending[k].id);
  }

  /** A stray timer fires, if it has not yet, and its callback takes the entry. */
  lemma StrayTakes(s: State, k: Key, id: nat) returns (steps: seq<Step>)
    requires k in s.pending && s.now < Due(s, k) && id != s.pending[k].id && IsStray(s, k, id)
    ensures CanRun(s, steps) && Undisturbed(s, steps, k)
    ensures s.pending[k].id in Run(s, steps).ledger.consumed && Run(s, steps).now < Due(s, k)
  {
    hide CanRun, Run, Next, Enabled, TakeStep;
    var fire: seq<Step> := [];
    if !(id in s.fired && s.fired[id].key == k) {
      fire := StrayFires(s, k, id);
    } else {
      NoSteps(s, fire);
    }
    var t := Run(s, fire);
    TakesEntry(t, k, id);
    Extend(s, fire, Take(id));
    steps := fire + [Take(id)];
  }

  lemma NoSteps(s: State, steps: seq<Step>)
    requires steps == []
    ensures CanRun(s, steps) && Run(s, steps) == s
  {
  }

  lemma StrayFires(s: State, k: Key, id: nat) returns (steps: seq<Step>)
    requires k in s.pending && s.now < Due(s, k)
    requires id in s.armed && s.armed[id].key == k && s.armed[id].deadline < Due(s, k)
    ensures |steps| == 2 && steps[0].Tick? && steps[1] == Fire(id) && CanRun(s, steps)
    ensures var t := Run(s, steps);
      id in t.fired && t.fired[id].key == k && t.pending == s.pending && t.now < Due(s, k)
  {
    var wait: nat := if s.armed[id].deadline <= s.now then 0 else s.armed[id].deadline - s.now;
    steps := [Tick(wait), Fire(id)];
    Run2(s, Tick(wait), Fire(id));
  }

  lemma TakesEntry(s: State, k: Key, id: nat)
    requires id in s.fired && s.fired[id].key == k && k in s.pending
    ensures Enabled(s, Take(id)) && Next(s, Take(id)) == TakeStep(s, id)
    ensures s.pending[k].id in TakeStep(s, id).ledger.consumed && TakeStep(s, id).now == s.now
  {
  }

  /**
   * Every reachable state, every interleaving: while nothing new is reported about a pending key, its grace period can
   * end early if and only if another timer of the key has fired, or is due before the grace period is over.
   */
  lemma EndsEarlyIff(s: State, before: seq<Step>, k: Key)
    requires Init(s) && CanRun(s, before) && k in Run(s, before).pending
    requires var t := Run(s, before); t.now < Due(t, k)
    ensures var t := Run(s, before); CanEndEarly(t, k) <==> StrayTimer(t, k)
  {
    hide Clocked, Accounted, IsStray, Next, Enabled;
    var t := Run(s, before);
    InitAccounted(s);
    InitClocked(s);
    RunKeepsClocked(s, before);
    RunKeepsAccounted(s, before);
    if StrayTimer(t, k) {
      var id :| id != t.pending[k].id && IsStray(t, k, id);
      var _ := StrayTakes(t, k, id);
    } else {
      forall steps | CanRun(t, steps) && Undisturbed(t, steps, k) && Run(t, steps).now < Due(t, k)
        ensures t.pending[k].id !in Run(t, steps).ledger.consumed
      {
        RunKeepsGuard(t, steps, k, t.pending[k].id, Due(t, k));
        RunKeepsAccounted(t, steps);
        PendingIsNotConsumed(Run(t, steps), k);
      }
    }
  }

  // ---------------------------------------------------------------- exactly when a grace period can end at all

  /** Some undisturbed continuation finalizes the pending entry of `k`. */
  ghost predicate CanEnd(s: State, k: Key)
    requires k in s.pending
  {
    exists steps :: CanRun(s, steps) && Undisturbed(s, steps, k) && s.pending[k].id in Run(s, steps).ledger.consumed
  }

  /** A timer of `k` is running, or its callback waits for the lock. */
  predicate TimerLeft(s: State, k: Key) {
    || (exists id :: id in s.armed && s.armed[id].key == k)
    || (exists id :: id in s.fired && s.fired[id].key == k)
  }

  /** A pending entry that no timer will ever come for. */
  predicate Orphaned(s: State, k: Key) {
    k in s.pending && !TimerLeft(s, k)
  }

  lemma StepKeepsOrphaned(s: State, step: Step, k: Key)
    requires Orphaned(s, k) && Enabled(s, step) && !Disturbs(s, step, k)
    ensures Orphaned(Next(s, step), k) && Next(s, step).pending[k].id == s.pending[k].id
  {
    hide Next, Disturbs;
    match step {
      case Arm(_) => UnpublishSameEntry(s, step, k);
      case Insert(_) => UnpublishSameEntry(s, step, k);
      case Fire(_) => TimerSameEntry(s, step, k);
      case Take(_) => TimerSameEntry(s, step, k);
      case _ => OtherSameEntry(s, step, k);
    }
  }

  /** An orphaned entry stays, and stays orphaned, until something new is reported about its key. */
  lemma {:induction false} RunKeepsOrphaned(s: State, steps: seq<Step>, k: Key)
    requires Orphaned(s, k) && CanRun(s, steps) && Undisturbed(s, steps, k)
    ensures Orphaned(Run(s, steps), k) && Run(s, steps).pending[k].id == s.pending[k].id
    decreases |steps|
  {
    hide Enabled, Next, Disturbs, TimerLeft;
    if steps != [] {
      StepKeepsOrphaned(s, steps[0], k);
      StillUndisturbed(s, steps, k);
      RunKeepsOrphaned(Next(s, steps[0]), steps[1..], k);
    }
  }

  lemma TimerTakes(s: State, k: Key) returns (steps: seq<Step>)
    requires k in s.pending && TimerLeft(s, k)
    ensures CanRun(s, steps) && Undisturbed(s, steps, k) && s.pending[k].id in Run(s, steps).ledger.consumed
  {
    hide CanRun, Run, Next, Enabled, TakeStep;
    var id, fire := TimerFires(s, k);
    TakesEntry(Run(s, fire), k, id);
    Extend(s, fire, Take(id));
    steps := fire + [Take(id)];
  }

  lemma TimerFires(s: State, k: Key) returns (id: nat, steps: seq<Step>)
    requires k in s.pending && TimerLeft(s, k)
    ensures CanRun(s, steps) && forall i :: 0 <= i < |steps| ==> steps[i].Tick? || steps[i].Fire?
    ensures var t := Run(s, steps); id in t.fired && t.fired[id].key == k && t.pending == s.pending
  {
    if x :| x in s.fired && s.fired[x].key == k {
      id, steps := x, [];
    } else {
      id :| id in s.armed && s.armed[id].key == k;
      var wait: nat := if s.armed[id].deadline <= s.now then 0 else s.armed[id].deadline - s.now;
      steps := [Tick(wait), Fire(id)];
      Run2(s, Tick(wait), Fire(id));
    }
  }

  /**
   * Every reachable state, every interleaving: while nothing new is reported about a pending key, its grace period
   * can end if and only if a timer of the key is still running or waiting for the lock.
   */
  lemma EndsIff(s: State, before: seq<Step>, k: Key)
    requires Init(s) && CanRun(s, before) && k in Run(s, before).pending
    ensures var t := Run(s, before); CanEnd(t, k) <==> TimerLeft(t, k)
  {
    hide Accounted, Next, Enabled, TimerLeft;
    var t := Run(s, before);
    InitAccounted(s);
    RunKeepsAccounted(s, before);
    if TimerLeft(t, k) {
      var _ := TimerTakes(t, k);
    } else {
      forall steps | CanRun(t, steps) && Undisturbed(t, steps, k)
        ensures t.pending[k].id !in Run(t, steps).ledger.consumed
      {
        RunKeepsOrphaned(t, steps, k);
        RunKeepsAccounted(t, steps);
        PendingIsNotConsumed(Run(t, steps), k);
      }
    }
  }
}
