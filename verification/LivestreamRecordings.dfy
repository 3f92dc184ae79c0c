/** Recordings at lock-section granularity: one stashed in a pending entry shares the fate of that entry. */
module LivestreamRecordings {
  import opened Wrappers
  import opened Livestream
  import opened LivestreamAccounting

  /** `d` is stashed in the pending entry `id`. */
  predicate StashedIn(p: map<Key, Entry>, d: nat, id: nat) {
    exists k :: k in p && p[k].id == id && p[k].dvr == Some(d)
  }

  /** A finalize holds `d`. */
  predicate Held(c: map<nat, Closing>, d: nat) {
    exists cb :: cb in c && c[cb].dvr == Some(d)
  }

  /** A later recording was stashed in the same entry. */
  ghost predicate Superseded(home: map<nat, nat>, d: nat) {
    exists e :: Supersedes(home, e, d)
  }

  predicate Supersedes(home: map<nat, nat>, e: nat, d: nat) {
    e > d && e in home && d in home && home[e] == home[d]
  }

  /** What has become of recording `d` and of the entry `id` it was put in. */
  ghost predicate SharesFate(p: map<Key, Entry>, c: map<nat, Closing>, l: Ledger, d: nat, id: nat) {
    || (d in l.overwritten && Superseded(l.home, d))
    || StashedIn(p, d, id)
    || (d in l.discarded && (id in l.cancelled || id in l.replaced))
    || (id in l.consumed && (Held(c, d) || d in l.processed || d in l.failed))
  }

  /** Stashed recordings are at home in their entry, and no recording is numbered ahead of time. */
  predicate AtHome(p: map<Key, Entry>, home: map<nat, nat>, next: nat) {
    && (forall k :: k in p && p[k].dvr.Some? ==> p[k].dvr.value in home && home[p[k].dvr.value] == p[k].id)
    && (forall d :: d in home ==> d < next)
  }

  ghost predicate Fated(s: State) {
    && AtHome(s.pending, s.ledger.home, s.nextDvr)
    && forall d {:trigger FateOf(s, d)} :: d in s.ledger.home ==> FateOf(s, d)
  }

  ghost predicate FateOf(s: State, d: nat)
    requires d in s.ledger.home
  {
    SharesFate(s.pending, s.closing, s.ledger, d, s.ledger.home[d])
  }

  /** A stash survives a change to another key's entry, and a held recording the start of another finalize. */
  lemma StashElsewhere(p: map<Key, Entry>, k: Key, e: Entry, d: nat, id: nat)
    ensures StashedIn(p, d, id) && !(k in p && p[k].id == id && p[k].dvr == Some(d)) ==>
      StashedIn(p - {k}, d, id) && StashedIn(p[k := e], d, id)
  {
    if StashedIn(p, d, id) && !(k in p && p[k].id == id && p[k].dvr == Some(d)) {
      var x :| x in p && p[x].id == id && p[x].dvr == Some(d);
      assert x in p - {k} && x in p[k := e];
    }
  }

  lemma HeldElsewhere(c: map<nat, Closing>, cb: nat, x: Closing, d: nat)
    ensures Held(c, d) && !(cb in c && c[cb].dvr == Some(d)) ==> Held(c - {cb}, d) && Held(c[cb := x], d)
    ensures x.dvr == Some(d) ==> Held(c[cb := x], d)
  {
    if Held(c, d) && !(cb in c && c[cb].dvr == Some(d)) {
      var y :| y in c && c[y].dvr == Some(d);
      assert y in c - {cb} && y in c[cb := x];
    }
    assert cb in c[cb := x];
  }

  predicate LedgerGrows(l: Ledger, m: Ledger) {
    && l.overwritten <= m.overwritten && l.discarded <= m.discarded && l.processed <= m.processed
    && l.failed <= m.failed
    && l.cancelled <= m.cancelled && l.replaced <= m.replaced && l.consumed <= m.consumed && l.home == m.home
  }

  /** The entry of `k` leaves `pending`, or gives way to another, and its recording is discarded. */
  lemma DiscardKeepsFate(p: map<Key, Entry>, c: map<nat, Closing>, l: Ledger, m: Ledger, k: Key, e: Entry, d: nat,
                         id: nat)
    requires SharesFate(p, c, l, d, id) && LedgerGrows(l, m)
    requires k in p ==> Bag(p[k].dvr) <= m.discarded && (p[k].id in m.cancelled || p[k].id in m.replaced)
    ensures SharesFate(p - {k}, c, m, d, id) && SharesFate(p[k := e], c, m, d, id)
  {
    hide Superseded, StashedIn, Held;
    StashElsewhere(p, k, e, d, id);
    assert k in p && p[k].dvr == Some(d) ==> d in Bag(p[k].dvr);
  }

  lemma InsertLedger(s: State, cb: nat)
    requires cb in s.inserting
    ensures var k, t := s.inserting[cb].key, InsertStep(s, cb);
      && LedgerGrows(s.ledger, t.ledger) && t.closing == s.closing && t.nextDvr == s.nextDvr
      && t.pending == s.pending[k := Entry(cb, s.inserting[cb].at, None)] && t.ledger.home == s.ledger.home
      && (k in s.pending ==> Bag(s.pending[k].dvr) <= t.ledger.discarded && s.pending[k].id in t.ledger.replaced)
  {
  }

  lemma EntryAtHome(p: map<Key, Entry>, k: Key, e: Entry, home: map<nat, nat>, next: nat)
    requires AtHome(p, home, next) && e.dvr == None
    ensures AtHome(p[k := e], home, next)
  {
  }

  lemma InsertKeepsFate(s: State, cb: nat)
    requires Fated(s) && cb in s.inserting
    ensures Fated(InsertStep(s, cb))
  {
    hide SharesFate, InsertStep, LedgerGrows, AtHome, Bag;
    var k, t := s.inserting[cb].key, InsertStep(s, cb);
    var e := Entry(cb, s.inserting[cb].at, None);
    InsertLedger(s, cb);
    EntryAtHome(s.pending, k, e, s.ledger.home, s.nextDvr);
    forall d | d in t.ledger.home ensures FateOf(t, d) {
      assert FateOf(s, d);
      DiscardKeepsFate(s.pending, s.closing, s.ledger, t.ledger, k, e, d, s.ledger.home[d]);
    }
  }

  lemma AdmitKeepsFate(s: State, k: Key)
    requires Fated(s)
    ensures Fated(AdmitStep(s, k))
  {
    hide SharesFate;
    var t := AdmitStep(s, k);
    if k in s.pending {
      assert LedgerGrows(s.ledger, t.ledger);
      forall d | d in t.ledger.home ensures FateOf(t, d) {
        assert FateOf(s, d);
        DiscardKeepsFate(s.pending, s.closing, s.ledger, t.ledger, k, Entry(0, 0, None), d, s.ledger.home[d]);
      }
    } else {
      QuietKeepsFate(s, t);
    }
  }

  lemma TakeKeepsFate(s: State, cb: nat)
    requires Fated(s) && cb in s.fired && cb !in s.closing
    ensures Fated(TakeStep(s, cb))
  {
    hide Superseded, StashedIn, Held;
    var k := s.fired[cb].key;
    var t := TakeStep(s, cb);
    forall d | d in t.ledger.home ensures FateOf(t, d) {
      assert FateOf(s, d);
      StashElsewhere(s.pending, k, Entry(0, 0, None), d, s.ledger.home[d]);
      if k in s.pending {
        HeldElsewhere(s.closing, cb, Closing(k, s.pending[k].dvr), d);
      }
    }
  }

  lemma OfflineKeepsFate(s: State, cb: nat)
    requires Fated(s) && cb in s.closing
    ensures Fated(OfflineStep(s, cb))
  {
    hide Superseded, StashedIn, Held;
    var t := OfflineStep(s, cb);
    forall d | d in t.ledger.home ensures FateOf(t, d) {
      assert FateOf(s, d);
      HeldElsewhere(s.closing, cb, s.closing[cb], d);
    }
  }

  lemma DvrKeepsFate(s: State, k: Key)
    requires Fated(s)
    ensures Fated(DvrStep(s, k))
  {
    hide Fated, DvrStep;
    if k in s.pending {
      StashKeepsFate(s, k);
    } else {
      HandOnKeepsFate(s, k);
    }
  }

  lemma HandOnKeepsFate(s: State, k: Key)
    requires Fated(s) && k !in s.pending
    ensures Fated(DvrStep(s, k))
  {
    hide StashedIn, Held, Superseded;
    var t := DvrStep(s, k);
    forall d | d in t.ledger.home ensures FateOf(t, d) {
      assert FateOf(s, d);
    }
  }

  lemma StashKeepsFate(s: State, k: Key)
    requires Fated(s) && k in s.pending
    ensures Fated(DvrStep(s, k))
  {
    hide StashedIn, Held, Superseded;
    var t := DvrStep(s, k);
    var e := s.pending[k].(dvr := Some(s.nextDvr));
    forall d | d in t.ledger.home ensures FateOf(t, d) {
      if d == s.nextDvr {
        StashHere(s.pending, k, e, d);
      } else {
        assert FateOf(s, d);
        StashElsewhere(s.pending, k, e, d, s.ledger.home[d]);
        SupersededGrows(s.ledger.home, d, s.nextDvr, s.pending[k].id);
      }
    }
  }

  lemma StashHere(p: map<Key, Entry>, k: Key, e: Entry, d: nat)
    requires e.dvr == Some(d)
    ensures StashedIn(p[k := e], d, e.id)
  {
    assert k in p[k := e];
  }

  lemma SupersededGrows(home: map<nat, nat>, d: nat, next: nat, id: nat)
    requires d in home && forall x :: x in home ==> x < next
    ensures Superseded(home, d) || home[d] == id ==> Superseded(home[next := id], d)
  {
    var grown := home[next := id];
    if home[d] == id {
      assert Supersedes(grown, next, d);
    } else if e :| Supersedes(home, e, d) {
      assert Supersedes(grown, e, d);
    }
  }

  lemma QuietKeepsFate(s: State, t: State)
    requires Fated(s) && SameBooks(s, t)
    ensures Fated(t)
  {
    hide SharesFate;
    forall d | d in t.ledger.home ensures FateOf(t, d) {
      assert FateOf(s, d);
    }
  }

  lemma StepKeepsFate(s: State, step: Step)
    requires Accounted(s) && Fated(s) && Enabled(s, step)
    ensures Fated(Next(s, step))
  {
    hide Accounted, Fated, IsListing, InspectPass, GoLiveStep, ArmStep, FireStep, InsertStep, TakeStep, OfflineStep,
      AdmitStep, DvrStep, TakeOffline, Bag;
    match step
    case Insert(id) => InsertKeepsFate(s, id);
    case Take(id) =>
      FiredIsNotClosing(s, id);
      TakeKeepsFate(s, id);
    case Offline(id) => OfflineKeepsFate(s, id);
    case Admit(k) => AdmitKeepsFate(s, k);
    case Dvr(k) => DvrKeepsFate(s, k);
    case Arm(k) => ArmKeepsFate(s, k);
    case Fire(id) => FireKeepsFate(s, id);
    case GoLive(k) => GoLiveKeepsFate(s, k);
    case _ => QuietKeepsFate(s, Next(s, step));
  }

  lemma FiredIsNotClosing(s: State, id: nat)
    requires Accounted(s) && id in s.fired
    ensures id !in s.closing
  {
    hide UnpublishTally, DvrTally;
    assert Balanced(s, id);
  }

  lemma GoLiveKeepsFate(s: State, k: Key)
    requires Fated(s)
    ensures Fated(GoLiveStep(s, k))
  {
    hide Fated;
    QuietKeepsFate(s, GoLiveStep(s, k));
  }

  lemma ArmKeepsFate(s: State, k: Key)
    requires Fated(s)
    ensures Fated(ArmStep(s, k))
  {
    hide SharesFate;
    var t := ArmStep(s, k);
    forall d | d in t.ledger.home ensures FateOf(t, d) {
      assert FateOf(s, d);
    }
  }

  lemma FireKeepsFate(s: State, id: nat)
    requires Fated(s) && id in s.armed
    ensures Fated(FireStep(s, id))
  {
    hide SharesFate;
    var t := FireStep(s, id);
    forall d | d in t.ledger.home ensures FateOf(t, d) {
      assert FateOf(s, d);
    }
  }

  lemma {:induction false} RunKeepsFated(s: State, steps: seq<Step>)
    requires Accounted(s) && Fated(s) && CanRun(s, steps)
    ensures Fated(Run(s, steps))
    decreases |steps|
  {
    hide Accounted, Fated, Enabled, Next;
    if steps != [] {
      StepKeepsAccounted(s, steps[0]);
      StepKeepsFate(s, steps[0]);
      RunKeepsFated(Next(s, steps[0]), steps[1..]);
    }
  }

  /**
   * The same runs: a recording stashed in an entry is overwritten by a later one in the same entry, or still stashed
   * in it, or discarded because the entry was cancelled or replaced, or the entry was consumed by a finalize, which
   * holds the recording, has processed it or has failed. By `LivestreamAccounting.EveryEventAccountedOnce` no two of
   * these hold.
   */
  lemma RecordingSharesFate(s: State, steps: seq<Step>, d: nat)
    requires Init(s) && CanRun(s, steps) && d in Run(s, steps).ledger.home
    ensures var t := Run(s, steps); SharesFate(t.pending, t.closing, t.ledger, d, t.ledger.home[d])
  {
    InitAccounted(s);
    RunKeepsFated(s, steps);
    assert FateOf(Run(s, steps), d);
  }
}
