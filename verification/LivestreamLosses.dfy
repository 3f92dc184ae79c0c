/** Runs of lock sections in which the code does not do what its comments promise. */
module LivestreamLosses {
  import opened Wrappers
  import opened Livestream
  import opened LivestreamHandlers
  import opened LivestreamRuns
  import opened LivestreamTimers
  import opened LivestreamRaces

  // ---------------------------------------------------------------- a stream goes live, ends, and its callback fires

  /** The start that runs share: `k` goes live and ends, and the callback of its timer fires after the grace period. */
  lemma GoLiveEndAndFire(s: State, k: Key) returns (steps: seq<Step>)
    requires Init(s) && k in s.rows
    ensures CanRun(s, steps)
    ensures var t := Run(s, steps);
      && t.pending == map[k := Entry(0, s.now, None)] && t.fired == map[0 := Timer(k, s.now + s.grace)]
      && t.armed == map[] && t.closing == map[] && t.inserting == map[] && t.admitting == multiset{} && t.pass == Idle
      && k in t.rows && t.rows[k].live && t.nextId == 1 && t.grace == s.grace
  {
    hide CanRun, Run, Next, Enabled, StepsOf, PublishHandler, UnpublishHandler, TimersAgree, HistoryAgrees;
    InitInv(s);
    HandlerIsRun(s, Publish(k));
    PublishAdmits(s, k);
    PublishKeeps(s, k);
    var s1 := PublishHandler(s, k);
    HandlerIsRun(s1, Unpublish(k));
    UnpublishStartsGrace(s1, k);
    var s2 := UnpublishHandler(s1, k);
    var a := StepsOf(s, Publish(k)) + StepsOf(s1, Unpublish(k));
    RunConcat(s, StepsOf(s, Publish(k)), StepsOf(s1, Unpublish(k)));
    InitEmpty(s);
    WaitAndFire(s2, 0, s.grace);
    RunConcat(s, a, [Tick(s.grace), Fire(0)]);
    steps := a + [Tick(s.grace), Fire(0)];
  }

  lemma InitEmpty(s: State)
    requires Init(s)
    ensures s.pending == map[] && s.armed == map[] && s.nextId == 0
  {
  }

  lemma WaitAndFire(s: State, id: nat, d: nat)
    requires id in s.armed && s.armed[id].deadline <= s.now + d
    ensures CanRun(s, [Tick(d), Fire(id)])
    ensures Run(s, [Tick(d), Fire(id)]) == FireStep(s.(now := s.now + d), id)
  {
    Run2(s, Tick(d), Fire(id));
  }

  // ---------------------------------------------------------------- late writes

  /** A finalize has taken the entry, and then the streamer is admitted. */
  lemma PublishAfterTake(s: State, id: nat, k: Key)
    requires id in s.fired && s.fired[id].key == k && k in s.pending && k in s.rows && s.closing == map[]
    requires s.admitting == multiset{}
    ensures CanRun(s, [Take(id)] + [Admit(k), GoLive(k)])
    ensures var t := Run(s, [Take(id)] + [Admit(k), GoLive(k)]);
      && t.closing == map[id := Closing(k, s.pending[k].dvr)] && k in t.published && k in t.rows
  {
    hide CanRun, Run, Bag;
    var u := TakeStep(s, id);
    Run1(s, Take(id));
    assert k !in u.pending && u.rows == s.rows;
    PublishFields(u, k);
    RunConcat(s, [Take(id)], [Admit(k), GoLive(k)]);
  }

  lemma PublishFields(s: State, k: Key)
    requires k !in s.pending && k in s.rows
    ensures CanRun(s, [Admit(k), GoLive(k)])
    ensures var t := Run(s, [Admit(k), GoLive(k)]); t.closing == s.closing && k in t.published && k in t.rows
  {
    Run2(s, Admit(k), GoLive(k));
  }

  /**
   * Every row can end up offline while its stream is published: the finalize takes the entry, the streamer is
   * admitted, and only then does the finalize write. No reconcile pass repairs it.
   */
  lemma PublishedCanEndOffline(s: State, k: Key) returns (steps: seq<Step>)
    requires Init(s) && k in s.rows
    ensures CanRun(s, steps)
    ensures var t := Run(s, steps);
      && k in t.published && k in t.rows && !t.rows[k].live
      && forall listing :: !ReconcileRows(t, t.published, listing)[k].live
  {
    hide CanRun, Run;
    steps := GoLiveEndAndFire(s, k);
    var t := Run(s, steps);
    PublishAfterTake(t, 0, k);
    RunConcat(s, steps, [Take(0)] + [Admit(k), GoLive(k)]);
    steps := steps + ([Take(0)] + [Admit(k), GoLive(k)]);
    Extend(s, steps, Offline(0));
    steps := steps + [Offline(0)];
  }

  // ---------------------------------------------------------------- stale callbacks

  lemma UnpublishFields(s: State, k: Key)
    requires k in s.rows && k !in s.pending
    ensures var t := UnpublishHandler(s, k);
      && k in t.pending && t.fired == s.fired && t.now == s.now && t.grace == s.grace
      && t.history == s.history + [Unpublished(k, s.now)]
  {
  }

  /** A fired callback of `k` meets a grace period that has just started. */
  lemma NewGraceTaken(s: State, id: nat, k: Key) returns (steps: seq<Step>)
    requires id in s.fired && s.fired[id].key == k && k in s.rows && k !in s.pending
    ensures CanRun(s, steps)
    ensures Run(s, steps).history == s.history + [Unpublished(k, s.now)] + [Finalized(k, s.now)]
  {
    hide CanRun, Run, StepsOf, UnpublishHandler, Bag;
    UnpublishIsRun(s, k);
    UnpublishFields(s, k);
    Extend(s, StepsOf(s, Unpublish(k)), Take(id));
    steps := StepsOf(s, Unpublish(k)) + [Take(id)];
  }

  lemma TooSoon(grace: nat, h: seq<Event>, k: Key, at: int)
    requires grace > 0
    ensures !WellTimed(grace, h + [Unpublished(k, at)] + [Finalized(k, at)])
  {
    var u := h + [Unpublished(k, at)];
    var t := u + [Finalized(k, at)];
    assert t[..|u|] == u && t[|u|] == Finalized(k, at);
    assert !OnTime(grace, t[..|u|], t[|u|]);
  }

  lemma Reconnect(s: State, k: Key)
    requires k in s.pending
    ensures Enabled(s, Admit(k))
    ensures var t := Next(s, Admit(k)); k !in t.pending && t.rows == s.rows && t.fired == s.fired && t.grace == s.grace
  {
    hide Bag, Stopped;
  }

  /**
   * A callback that has fired but not locked can finalize a newer grace period the moment it starts: `Stop` came
   * too late for it, and it takes whatever entry the key has.
   */
  lemma StaleCallbackEndsNewGrace(s: State, k: Key) returns (steps: seq<Step>, at: int)
    requires Init(s) && k in s.rows && s.grace > 0
    ensures CanRun(s, steps)
    ensures var t := Run(s, steps);
      && |t.history| >= 2
      && t.history[|t.history| - 2..] == [Unpublished(k, at), Finalized(k, at)]
      && !WellTimed(s.grace, t.history)
  {
    hide CanRun, Run, Next, Enabled, WellTimed;
    steps := GoLiveEndAndFire(s, k);
    Reconnect(Run(s, steps), k);
    Extend(s, steps, Admit(k));
    steps := steps + [Admit(k)];
    var t := Run(s, steps);
    var rest := NewGraceTaken(t, 0, k);
    RunConcat(s, steps, rest);
    steps, at := steps + rest, t.now;
    TooSoon(s.grace, t.history, k, at);
  }

  // ---------------------------------------------------------------- passes and late webhooks

  /**
   * A pass alone is enough, and no row need be stuck: it asks SRS, the stream is published and its row goes live, and
   * the pass lists the row and writes it offline. No finalize is involved.
   */
  lemma PassCanEndPublished(s: State, k: Key) returns (before: seq<Step>)
    requires Init(s) && k in s.rows && k !in s.published
    ensures CanRun(s, before)
    ensures var t := Run(s, before);
      Settled(t, k) && k !in t.ended && !LateFinalize(t.closing, k) && !StaysLive(t, k)
  {
    hide CanRun, Run, StaysLive;
    before := SurveyThenPublish(s, k);
    LiveIffNoLateWrite(s, before, k);
  }

  lemma SurveyThenPublish(s: State, k: Key) returns (before: seq<Step>)
    requires Init(s) && k in s.rows
    ensures CanRun(s, before)
    ensures var t := Run(s, before);
      Settled(t, k) && t.ended == multiset{} && t.closing == map[] && t.pass == Surveyed(s.published)
  {
    before := [Survey];
    Run1(s, Survey);
    var t := Run(s, before);
    Extend(s, before, Admit(k));
    before, t := before + [Admit(k)], AdmitStep(t, k);
    Extend(s, before, GoLive(k));
    before := before + [GoLive(k)];
  }

  /**
   * So is a late webhook: the stream ends and is published again before on_unpublish of the first session is handled,
   * which then starts a grace period for a stream that is running. No finalize and no pass is under way at that point.
   */
  lemma LateReportCanEndPublished(s: State, k: Key) returns (before: seq<Step>)
    requires Init(s) && k in s.rows
    ensures CanRun(s, before)
    ensures var t := Run(s, before);
      Settled(t, k) && !LateFinalize(t.closing, k) && !LateRepair(t.pass, k) && !StaysLive(t, k)
  {
    hide CanRun, Run, StaysLive;
    before := EndThenPublish(s, k);
    LiveIffNoLateWrite(s, before, k);
  }

  lemma EndThenPublish(s: State, k: Key) returns (before: seq<Step>)
    requires Init(s) && k in s.rows
    ensures CanRun(s, before)
    ensures var t := Run(s, before); Settled(t, k) && k in t.ended && t.closing == map[] && t.pass == Idle
  {
    before := [End(k)];
    Run1(s, End(k));
    var t := Run(s, before);
    Extend(s, before, Admit(k));
    before, t := before + [Admit(k)], AdmitStep(t, k);
    Extend(s, before, GoLive(k));
    before := before + [GoLive(k)];
  }

  // ---------------------------------------------------------------- an entry without a timer

  /** `k` is live and orphaned, and neither a finalize nor a repair of it is under way. */
  predicate Stuck(s: State, k: Key) {
    && Orphaned(s, k) && k in s.rows && s.rows[k].live && !LateFinalize(s.closing, k)
    && (s.pass.Repairing? ==> s.pass.todo == [] || s.pass.todo[0] != k)
  }

  lemma StepKeepsStuck(s: State, step: Step, k: Key)
    requires Stuck(s, k) && Enabled(s, step) && !Disturbs(s, step, k)
    ensures Stuck(Next(s, step), k)
  {
    hide Orphaned, Disturbs, Next;
    StepKeepsOrphaned(s, step, k);
    match step
    case Take(id) => TakeKeepsStuck(s, id, k);
    case Offline(id) => OfflineKeepsStuck(s, id, k);
    case GoLive(key) => GoLiveKeepsStuck(s, key, k);
    case _ => OtherKeepsStuck(s, step, k);
  }

  lemma TakeKeepsStuck(s: State, id: nat, k: Key)
    requires Stuck(s, k) && id in s.fired
    ensures var t := Next(s, Take(id)); t.rows == s.rows && !LateFinalize(t.closing, k) && t.pass == s.pass
  {
    assert s.fired[id].key != k;
    hide Bag;
  }

  lemma OfflineKeepsStuck(s: State, id: nat, k: Key)
    requires Stuck(s, k) && id in s.closing
    ensures var t := Next(s, Offline(id));
      k in t.rows && t.rows[k] == s.rows[k] && !LateFinalize(t.closing, k) && t.pass == s.pass
  {
    assert s.closing[id].key != k;
    hide Bag;
  }

  lemma GoLiveKeepsStuck(s: State, key: Key, k: Key)
    requires Stuck(s, k) && key in s.admitting
    ensures var t := Next(s, GoLive(key));
      k in t.rows && t.rows[k].live && t.closing == s.closing && t.pass == s.pass
  {
    hide Orphaned;
  }

  lemma OtherKeepsStuck(s: State, step: Step, k: Key)
    requires Stuck(s, k) && Enabled(s, step) && !step.Take? && !step.Offline? && !step.GoLive?
    ensures var t := Next(s, step);
      && k in t.rows && t.rows[k].live && t.closing == s.closing
      && (t.pass.Repairing? ==> t.pass.todo == [] || t.pass.todo[0] != k)
  {
    hide IsListing, Bag, Stopped, TimerLeft;
  }

  /** A stuck row stays live, through any number of reconcile passes, until something new is reported about its key. */
  lemma {:induction false} StuckStaysLive(s: State, steps: seq<Step>, k: Key)
    requires Stuck(s, k) && CanRun(s, steps) && Undisturbed(s, steps, k)
    ensures Stuck(Run(s, steps), k)
    decreases |steps|
  {
    hide Stuck, Enabled, Next, Disturbs;
    if steps != [] {
      StepKeepsStuck(s, steps[0], k);
      StillUndisturbed(s, steps, k);
      StuckStaysLive(Next(s, steps[0]), steps[1..], k);
    }
  }

  /** The stream is published and ends, and its webhook has started the timer. */
  lemma GoLiveEndAndArm(s: State, k: Key) returns (steps: seq<Step>)
    requires Init(s) && k in s.rows
    ensures CanRun(s, steps)
    ensures var t := Run(s, steps);
      && t.armed == map[0 := Timer(k, s.now + s.grace)] && t.inserting == map[0 := Arrival(k, s.now)]
      && t.pending == map[] && t.fired == map[] && t.closing == map[] && t.pass == Idle && t.now == s.now
      && k in t.rows && t.rows[k].live && k !in t.published
  {
    hide CanRun, Run, Next, Enabled, StepsOf, PublishHandler, TimersAgree, HistoryAgrees;
    InitInv(s);
    InitEmpty(s);
    HandlerIsRun(s, Publish(k));
    PublishAdmits(s, k);
    EndAndArm(PublishHandler(s, k), k);
    RunConcat(s, StepsOf(s, Publish(k)), [End(k), Arm(k)]);
    steps := StepsOf(s, Publish(k)) + [End(k), Arm(k)];
  }

  lemma EndAndArm(s: State, k: Key)
    requires k in s.rows
    ensures CanRun(s, [End(k), Arm(k)]) && Run(s, [End(k), Arm(k)]) == ArmStep(EndStep(s, k), k)
  {
    Run2(s, End(k), Arm(k));
  }

  lemma TakeNothing(s: State, id: nat)
    requires id in s.fired && s.fired[id].key !in s.pending && id in s.inserting
    ensures CanRun(s, [Take(id), Insert(id)])
    ensures Run(s, [Take(id), Insert(id)]) == InsertStep(TakeStep(s, id), id)
  {
    Run2(s, Take(id), Insert(id));
  }

  /**
   * The timer is created before the lock is taken. When its callback finalizes nothing before the entry is inserted,
   * the entry has no timer, the ended stream stays live, and no reconcile pass touches a key in grace.
   */
  lemma EntryCanLoseItsTimer(s: State, k: Key) returns (steps: seq<Step>)
    requires Init(s) && k in s.rows
    ensures CanRun(s, steps)
    ensures var t := Run(s, steps); Stuck(t, k) && k !in t.published && !CanEnd(t, k)
  {
    hide CanRun, Run, Next, Enabled, Stuck, CanEnd;
    var arm := GoLiveEndAndArm(s, k);
    var t := Run(s, arm);
    WaitAndFire(t, 0, s.grace);
    RunConcat(s, arm, [Tick(s.grace), Fire(0)]);
    steps := arm + [Tick(s.grace), Fire(0)];
    var u := FireStep(t.(now := t.now + s.grace), 0);
    TakeNothing(u, 0);
    RunConcat(s, steps, [Take(0), Insert(0)]);
    steps := steps + [Take(0), Insert(0)];
    InsertedIsStuck(u, k);
    StuckCannotEnd(s, steps, k);
  }

  lemma InsertedIsStuck(s: State, k: Key)
    requires s.fired.Keys == {0} && 0 in s.inserting && s.fired[0].key == k && s.inserting[0].key == k
    requires s.armed == map[] && s.pending == map[] && s.closing == map[] && s.pass == Idle
    requires k in s.rows && s.rows[k].live && k !in s.published
    ensures var t := InsertStep(TakeStep(s, 0), 0); Stuck(t, k) && k !in t.published
  {
    hide Bag, Stopped;
  }

  lemma StuckCannotEnd(s: State, steps: seq<Step>, k: Key)
    requires Init(s) && CanRun(s, steps) && Stuck(Run(s, steps), k)
    ensures !CanEnd(Run(s, steps), k)
  {
    hide CanRun, Run, CanEnd;
    EndsIff(s, steps, k);
  }
}
