/**
 * Accounting over lock sections: what becomes of every accepted unpublish, every timer and every recording, in any
 * interleaving.
 */
module LivestreamAccounting {
  import opened Wrappers
  import opened Livestream

  function KeysWaiting(pending: map<Key, Entry>, id: nat): set<Key> {
    set k | k in pending && pending[k].id == id
  }

  function KeysStashing(pending: map<Key, Entry>, d: nat): set<Key> {
    set k | k in pending && pending[k].dvr == Some(d)
  }

  function CallbacksHolding(closing: map<nat, Closing>, d: nat): set<nat> {
    set id | id in closing && closing[id].dvr == Some(d)
  }

  function One(b: bool): nat {
    if b then 1 else 0
  }

  /** How often unpublish `id` is accounted for: pending, cancelled, replaced, or consumed. */
  function UnpublishTally(s: State, id: nat): nat {
    |KeysWaiting(s.pending, id)| + s.ledger.cancelled[id] + s.ledger.replaced[id] + s.ledger.consumed[id]
  }

  /** How often timer `id` is accounted for: running, waiting for the lock, stopped, or done. */
  function TimerTally(s: State, id: nat): nat {
    One(id in s.armed) + One(id in s.fired) + s.ledger.stopped[id] + s.ledger.ran[id]
  }

  /** How often recording `d` is accounted for. */
  function DvrTally(s: State, d: nat): nat {
    |KeysStashing(s.pending, d)| + |CallbacksHolding(s.closing, d)| + s.ledger.discarded[d] + s.ledger.overwritten[d]
    + s.ledger.processed[d] + s.ledger.failed[d]
  }

  /** Unpublish `n`, timer `n` and recording `n` are each accounted for as often as they occurred. */
  predicate Balanced(s: State, n: nat) {
    && UnpublishTally(s, n) == s.ledger.accepted[n] <= One(n < s.nextId)
    && TimerTally(s, n) == One(n < s.nextId)
    && DvrTally(s, n) == One(n < s.nextDvr)
    && (n in s.inserting ==> n < s.nextId && s.ledger.accepted[n] == 0)
    && (n in s.closing ==> s.ledger.ran[n] == 1)
  }

  ghost predicate Accounted(s: State) {
    forall n: nat :: Balanced(s, n)
  }

  lemma InitAccounted(s: State)
    requires Init(s)
    ensures Accounted(s)
  {
    forall n: nat ensures Balanced(s, n) {
      assert KeysWaiting(s.pending, n) == {} && KeysStashing(s.pending, n) == {};
      assert CallbacksHolding(s.closing, n) == {};
    }
  }

  /** Effect of removing one key's entry on the keys that wait for unpublish `n` or stash recording `n`. */
  lemma EntryGone(p: map<Key, Entry>, k: Key, n: nat)
    requires k in p
    ensures |KeysWaiting(p - {k}, n)| == |KeysWaiting(p, n)| - One(p[k].id == n)
    ensures |KeysStashing(p - {k}, n)| == |KeysStashing(p, n)| - One(p[k].dvr == Some(n))
  {
    assert KeysWaiting(p - {k}, n) == KeysWaiting(p, n) - {k};
    assert KeysStashing(p - {k}, n) == KeysStashing(p, n) - {k};
  }

  lemma EntryNew(p: map<Key, Entry>, k: Key, e: Entry, n: nat)
    requires k !in p
    ensures |KeysWaiting(p[k := e], n)| == |KeysWaiting(p, n)| + One(e.id == n)
    ensures |KeysStashing(p[k := e], n)| == |KeysStashing(p, n)| + One(e.dvr == Some(n))
  {
    hide KeysWaiting, KeysStashing;
    WaitingNew(p, k, e, n);
    StashingNew(p, k, e, n);
  }

  lemma WaitingNew(p: map<Key, Entry>, k: Key, e: Entry, n: nat)
    requires k !in p
    ensures |KeysWaiting(p[k := e], n)| == |KeysWaiting(p, n)| + One(e.id == n)
  {
    var a, b := KeysWaiting(p, n), KeysWaiting(p[k := e], n);
    assert b == if e.id == n then a + {k} else a;
  }

  lemma StashingNew(p: map<Key, Entry>, k: Key, e: Entry, n: nat)
    requires k !in p
    ensures |KeysStashing(p[k := e], n)| == |KeysStashing(p, n)| + One(e.dvr == Some(n))
  {
    var a, b := KeysStashing(p, n), KeysStashing(p[k := e], n);
    assert b == if e.dvr == Some(n) then a + {k} else a;
  }

  lemma EntrySet(p: map<Key, Entry>, k: Key, e: Entry, n: nat)
    requires k in p
    ensures |KeysWaiting(p[k := e], n)| == |KeysWaiting(p, n)| - One(p[k].id == n) + One(e.id == n)
    ensures |KeysStashing(p[k := e], n)| == |KeysStashing(p, n)| - One(p[k].dvr == Some(n)) + One(e.dvr == Some(n))
  {
    EntryGone(p, k, n);
    EntryNew(p - {k}, k, e, n);
    assert (p - {k})[k := e] == p[k := e];
  }

  lemma ClosingNew(c: map<nat, Closing>, id: nat, x: Closing, n: nat)
    requires id !in c
    ensures |CallbacksHolding(c[id := x], n)| == |CallbacksHolding(c, n)| + One(x.dvr == Some(n))
  {
    if x.dvr == Some(n) {
      assert CallbacksHolding(c[id := x], n) == CallbacksHolding(c, n) + {id};
    } else {
      assert CallbacksHolding(c[id := x], n) == CallbacksHolding(c, n);
    }
  }

  lemma ClosingGone(c: map<nat, Closing>, id: nat, n: nat)
    requires id in c
    ensures |CallbacksHolding(c - {id}, n)| == |CallbacksHolding(c, n)| - One(c[id].dvr == Some(n))
  {
    assert CallbacksHolding(c - {id}, n) == CallbacksHolding(c, n) - {id};
  }

  lemma InsertBalanced(s: State, cb: nat, n: nat)
    requires Accounted(s) && cb in s.inserting
    ensures Balanced(InsertStep(s, cb), n)
  {
    hide KeysWaiting, KeysStashing, CallbacksHolding;
    var k := s.inserting[cb].key;
    var e := Entry(cb, s.inserting[cb].at, None);
    assert Balanced(s, cb) && Balanced(s, n);
    if k in s.pending {
      ReplaceBalanced(s, cb, n);
    } else {
      EntryNew(s.pending, k, e, n);
    }
  }

  lemma ReplaceBalanced(s: State, cb: nat, n: nat)
    requires cb in s.inserting && s.inserting[cb].key in s.pending
    requires Balanced(s, cb) && Balanced(s, n)
    ensures Balanced(InsertStep(s, cb), n)
  {
    hide UnpublishTally, TimerTally, DvrTally, InsertStep;
    ReplaceTallies(s, cb, n);
    ReplaceTimerTally(s, cb, n);
    ReplaceFields(s, cb);
  }

  lemma ReplaceTallies(s: State, cb: nat, n: nat)
    requires cb in s.inserting && s.inserting[cb].key in s.pending
    ensures UnpublishTally(InsertStep(s, cb), n) == UnpublishTally(s, n) + One(cb == n)
    ensures DvrTally(InsertStep(s, cb), n) == DvrTally(s, n)
  {
    hide KeysWaiting, KeysStashing, CallbacksHolding, InsertStep, Stopped;
    EntrySet(s.pending, s.inserting[cb].key, Entry(cb, s.inserting[cb].at, None), n);
    ReplaceFields(s, cb);
  }

  lemma ReplaceTimerTally(s: State, cb: nat, n: nat)
    requires cb in s.inserting && s.inserting[cb].key in s.pending
    ensures TimerTally(InsertStep(s, cb), n) == TimerTally(s, n)
  {
    hide InsertStep, Bag;
    ReplaceFields(s, cb);
  }

  lemma ReplaceFields(s: State, cb: nat)
    requires cb in s.inserting && s.inserting[cb].key in s.pending
    ensures var k := s.inserting[cb].key;
      var t := InsertStep(s, cb);
      var l, m, e := s.ledger, t.ledger, s.pending[k];
      && t.pending == s.pending[k := Entry(cb, s.inserting[cb].at, None)] && t.inserting == s.inserting - {cb}
      && t.armed == s.armed - {e.id} && t.fired == s.fired && t.closing == s.closing
      && t.nextId == s.nextId && t.nextDvr == s.nextDvr
      && m.accepted == l.accepted + multiset{cb} && m.cancelled == l.cancelled
      && m.replaced == l.replaced + multiset{e.id} && m.consumed == l.consumed
      && m.stopped == l.stopped + Stopped(s, e.id) && m.ran == l.ran
      && m.discarded == l.discarded + Bag(e.dvr) && m.overwritten == l.overwritten
      && m.processed == l.processed && m.failed == l.failed && m.home == l.home
  {
  }

  lemma AdmitBalanced(s: State, k: Key, n: nat)
    requires Balanced(s, n)
    ensures Balanced(AdmitStep(s, k), n)
  {
    hide Balanced;
    if k in s.pending {
      CancelBalanced(s, k, n);
    } else {
      QuietBalanced(s, AdmitStep(s, k), n);
    }
  }

  lemma CancelBalanced(s: State, k: Key, n: nat)
    requires Balanced(s, n) && k in s.pending
    ensures Balanced(AdmitStep(s, k), n)
  {
    hide UnpublishTally, TimerTally, DvrTally, AdmitStep;
    CancelTallies(s, k, n);
    CancelTimerTally(s, k, n);
    CancelFields(s, k);
  }

  lemma CancelTallies(s: State, k: Key, n: nat)
    requires k in s.pending
    ensures UnpublishTally(AdmitStep(s, k), n) == UnpublishTally(s, n)
    ensures DvrTally(AdmitStep(s, k), n) == DvrTally(s, n)
  {
    hide KeysWaiting, KeysStashing, CallbacksHolding, AdmitStep, Stopped;
    EntryGone(s.pending, k, n);
    CancelFields(s, k);
  }

  lemma CancelTimerTally(s: State, k: Key, n: nat)
    requires k in s.pending
    ensures TimerTally(AdmitStep(s, k), n) == TimerTally(s, n)
  {
    hide AdmitStep, Bag;
    CancelFields(s, k);
  }

  lemma CancelFields(s: State, k: Key)
    requires k in s.pending
    ensures var t := AdmitStep(s, k);
      var l, m, e := s.ledger, t.ledger, s.pending[k];
      && t.pending == s.pending - {k} && t.armed == s.armed - {e.id} && t.fired == s.fired && t.closing == s.closing
      && t.inserting == s.inserting && t.nextId == s.nextId && t.nextDvr == s.nextDvr
      && m.accepted == l.accepted && m.cancelled == l.cancelled + multiset{e.id} && m.replaced == l.replaced
      && m.consumed == l.consumed && m.stopped == l.stopped + Stopped(s, e.id) && m.ran == l.ran
      && m.discarded == l.discarded + Bag(e.dvr) && m.overwritten == l.overwritten
      && m.processed == l.processed && m.failed == l.failed
  {
  }

  lemma TakeBalanced(s: State, cb: nat, n: nat)
    requires Accounted(s) && cb in s.fired
    ensures Balanced(TakeStep(s, cb), n)
  {
    hide KeysWaiting, KeysStashing, CallbacksHolding;
    var k := s.fired[cb].key;
    assert Balanced(s, cb) && Balanced(s, n);
    if k in s.pending {
      EntryGone(s.pending, k, n);
      ClosingNew(s.closing, cb, Closing(k, s.pending[k].dvr), n);
    }
  }

  lemma OfflineBalanced(s: State, cb: nat, n: nat)
    requires Balanced(s, n) && cb in s.closing
    ensures Balanced(OfflineStep(s, cb), n)
  {
    hide KeysWaiting, KeysStashing, CallbacksHolding;
    ClosingGone(s.closing, cb, n);
  }

  lemma DvrBalanced(s: State, k: Key, n: nat)
    requires Balanced(s, n)
    ensures Balanced(DvrStep(s, k), n)
  {
    hide KeysWaiting, KeysStashing, CallbacksHolding;
    var t := DvrStep(s, k);
    if k in s.pending {
      EntrySet(s.pending, k, s.pending[k].(dvr := Some(s.nextDvr)), n);
      assert UnpublishTally(t, n) == UnpublishTally(s, n);
      assert DvrTally(t, n) == DvrTally(s, n) + One(n == s.nextDvr);
    }
  }

  /** Nothing the books look at has changed. */
  predicate SameBooks(s: State, t: State) {
    && t.pending == s.pending && t.closing == s.closing && t.armed == s.armed && t.fired == s.fired
    && t.ledger == s.ledger && t.nextId == s.nextId && t.nextDvr == s.nextDvr && t.inserting == s.inserting
  }

  lemma QuietBalanced(s: State, t: State, n: nat)
    requires Balanced(s, n) && SameBooks(s, t)
    ensures Balanced(t, n)
  {
    hide KeysWaiting, KeysStashing, CallbacksHolding;
  }

  lemma GoLiveBalanced(s: State, k: Key, n: nat)
    requires Balanced(s, n)
    ensures Balanced(GoLiveStep(s, k), n)
  {
    hide Balanced;
    QuietBalanced(s, GoLiveStep(s, k), n);
  }

  lemma ArmBalanced(s: State, k: Key, n: nat)
    requires Accounted(s)
    ensures Balanced(ArmStep(s, k), n)
  {
    hide KeysWaiting, KeysStashing, CallbacksHolding;
    assert Balanced(s, n) && Balanced(s, s.nextId);
  }

  lemma FireBalanced(s: State, cb: nat, n: nat)
    requires Accounted(s) && cb in s.armed
    ensures Balanced(FireStep(s, cb), n)
  {
    hide KeysWaiting, KeysStashing, CallbacksHolding;
    assert Balanced(s, n) && Balanced(s, cb);
  }

  lemma StepBalanced(s: State, step: Step, n: nat)
    requires Accounted(s) && Enabled(s, step)
    ensures Balanced(Next(s, step), n)
  {
    hide Balanced, IsListing, InspectPass, GoLiveStep, ArmStep, InsertStep, FireStep, TakeStep, OfflineStep,
      AdmitStep, DvrStep, Bag, TakeOffline;
    match step
    case Arm(k) => ArmBalanced(s, k, n);
    case Insert(id) => InsertBalanced(s, id, n);
    case Fire(id) => FireBalanced(s, id, n);
    case Take(id) => TakeBalanced(s, id, n);
    case Offline(id) => OfflineBalanced(s, id, n);
    case Admit(k) => AdmitBalanced(s, k, n);
    case Dvr(k) => DvrBalanced(s, k, n);
    case Tick(d) => QuietBalanced(s, s.(now := s.now + d), n);
    case Drop(k) => QuietBalanced(s, s.(published := s.published - {k}), n);
    case GoLive(k) => GoLiveBalanced(s, k, n);
    case End(k) => QuietBalanced(s, EndStep(s, k), n);
    case _ => QuietBalanced(s, Next(s, step), n);
  }

  lemma StepKeepsAccounted(s: State, step: Step)
    requires Accounted(s) && Enabled(s, step)
    ensures Accounted(Next(s, step))
  {
    hide Balanced;
    forall n: nat ensures Balanced(Next(s, step), n) {
      StepBalanced(s, step, n);
    }
  }

  lemma {:induction false} RunKeepsAccounted(s: State, steps: seq<Step>)
    requires Accounted(s) && CanRun(s, steps)
    ensures Accounted(Run(s, steps))
    decreases |steps|
  {
    hide Accounted, Enabled, Next;
    if steps != [] {
      StepKeepsAccounted(s, steps[0]);
      RunKeepsAccounted(Next(s, steps[0]), steps[1..]);
    }
  }

  /**
   * Lock-section granularity, any interleaving, stale callbacks and reconcile passes included: each accepted
   * unpublish is in exactly one of the four places, each timer created is running, waiting, stopped or done, and each
   * on_dvr event is stashed, held by a finalize, discarded, overwritten, processed or failed, exactly once.
   */
  lemma EveryEventAccountedOnce(s: State, steps: seq<Step>, id: nat, d: nat)
    requires Init(s) && CanRun(s, steps)
    ensures AccountedOnce(Run(s, steps), id, d)
  {
    InitAccounted(s);
    RunKeepsAccounted(s, steps);
    var t := Run(s, steps);
    assert Balanced(t, id) && Balanced(t, d);
  }

  predicate AccountedOnce(t: State, id: nat, d: nat) {
    && (id in t.ledger.accepted ==> UnpublishTally(t, id) == 1)
    && (id !in t.ledger.accepted ==> UnpublishTally(t, id) == 0)
    && TimerTally(t, id) == One(id < t.nextId)
    && DvrTally(t, d) == One(d < t.nextDvr)
    && t.ledger.processed[d] <= 1
  }
}
