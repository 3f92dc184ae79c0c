/**
 * Whole handlers of the livestream protocol, each run without interruption: what they keep true of the database,
 * SRS and the timers, and when a stream is finalized.
 */
module LivestreamHandlers {
  import opened Wrappers
  import opened Livestream

  datatype Handler =
    | Wait(d: nat)
    | Publish(key: Key)             // on_publish, admitted or refused
    | Unpublish(key: Key)           // on_unpublish
    | Expire(id: nat)               // a grace timer fires and finalizes
    | Recording(key: Key)           // on_dvr
    | Vanish(key: Key)              // SRS loses the stream and the webhook is lost
    | Reconcile(listing: seq<Key>)  // one pass over what ListActive returned

  predicate Possible(s: State, h: Handler) {
    match h
    case Expire(id) => id in s.armed && s.armed[id].deadline <= s.now
    case Reconcile(listing) => IsListing(s.rows, listing)
    case _ => true
  }

  function PublishHandler(s: State, k: Key): State {
    if k in s.pending then AdmitStep(s, k) else GoLiveStep(AdmitStep(s, k), k)
  }

  function UnpublishHandler(s: State, k: Key): State {
    if k in s.rows then InsertStep(ArmStep(EndStep(s, k), k), s.nextId) else s
  }

  function ExpireHandler(s: State, id: nat): State
    requires id in s.armed
  {
    var t := TakeStep(FireStep(s, id), id);
    if id in t.closing then OfflineStep(t, id) else t
  }

  /** The rows after the loop of `ReconcileLiveStreams` over `listing`, SRS having answered `active`. */
  function ReconcileRows(s: State, active: set<Key>, listing: seq<Key>): (rows: map<Key, Row>)
    ensures rows.Keys == s.rows.Keys
  {
    map k | k in s.rows ::
      if k in listing && k !in active && k !in s.pending
      then s.rows[k].(live := false, endedAt := Some(s.now)) else s.rows[k]
  }

  lemma ReconcileNothing(s: State, active: set<Key>)
    ensures ReconcileRows(s, active, []) == s.rows
  {
  }

  /** One more listed key: one more turn of the loop. */
  lemma ReconcileOneMore(s: State, active: set<Key>, listing: seq<Key>, k: Key)
    requires k in s.rows
    ensures var rows := ReconcileRows(s, active, listing);
      ReconcileRows(s, active, listing + [k]) ==
      if k !in active && k !in s.pending then rows[k := s.rows[k].(live := false, endedAt := Some(s.now))] else rows
  {
    assert forall l :: l in listing + [k] <==> l in listing || l == k;
  }

  function Handle(s: State, h: Handler): State
    requires Possible(s, h)
  {
    match h
    case Wait(d) => Next(s, Tick(d))
    case Publish(k) => PublishHandler(s, k)
    case Unpublish(k) => UnpublishHandler(s, k)
    case Expire(id) => ExpireHandler(s, id)
    case Recording(k) => DvrStep(s, k)
    case Vanish(k) => Next(s, Drop(k))
    case Reconcile(listing) => s.(rows := ReconcileRows(s, s.published, listing))
  }

  predicate CanHandle(s: State, hs: seq<Handler>)
    decreases |hs|
  {
    hs == [] || (Possible(s, hs[0]) && CanHandle(Handle(s, hs[0]), hs[1..]))
  }

  function HandleAll(s: State, hs: seq<Handler>): State
    requires CanHandle(s, hs)
    decreases |hs|
  {
    if hs == [] then s else HandleAll(Handle(s, hs[0]), hs[1..])
  }

  // ---------------------------------------------------------------- the invariant

  /** No handler is halfway through. */
  predicate AtRest(s: State) {
    && s.ended == multiset{} && s.fired == map[] && s.inserting == map[] && s.admitting == multiset{}
    && s.closing == map[] && s.pass == Idle
  }

  /** Published streams are live; streams in their grace period are live and not published. */
  predicate RowsAgree(s: State) {
    && (forall k :: k in s.published ==> k in s.rows && s.rows[k].live)
    && (forall k :: k in s.pending ==> k in s.rows && s.rows[k].live && k !in s.published)
  }

  /** Pending keys and running timers correspond one to one. */
  predicate TimersAgree(s: State) {
    && (forall k :: k in s.pending ==>
          && s.pending[k].id in s.armed
          && s.armed[s.pending[k].id] == Timer(k, s.pending[k].since + s.grace))
    && (forall id :: id in s.armed ==>
          && id < s.nextId
          && s.armed[id].key in s.pending
          && s.pending[s.armed[id].key].id == id)
  }

  /** The latest event about `k`. */
  function Latest(history: seq<Event>, k: Key): Option<Event> {
    if history == [] then None
    else if history[|history| - 1].key == k then Some(history[|history| - 1])
    else Latest(history[..|history| - 1], k)
  }

  /** A finalized stream had its latest event, an unpublish, at least a grace period before. */
  predicate OnTime(grace: nat, before: seq<Event>, e: Event) {
    e.Finalized? ==>
      match Latest(before, e.key)
      case Some(Unpublished(_, at)) => at + grace <= e.at
      case _ => false
  }

  predicate WellTimed(grace: nat, history: seq<Event>) {
    forall i :: 0 <= i < |history| ==> OnTime(grace, history[..i], history[i])
  }

  predicate HistoryAgrees(s: State) {
    && (forall k :: k in s.pending ==> Latest(s.history, k) == Some(Unpublished(k, s.pending[k].since)))
    && (forall k :: k in s.pending ==> s.pending[k].since <= s.now)
    && WellTimed(s.grace, s.history)
  }

  /** What every handler keeps, whatever SRS reports. */
  predicate Timely(s: State) {
    AtRest(s) && TimersAgree(s) && HistoryAgrees(s)
  }

  predicate Inv(s: State) {
    Timely(s) && RowsAgree(s)
  }

  lemma InitInv(s: State)
    requires Init(s)
    ensures Inv(s)
  {
  }

  lemma HistoryGrows(grace: nat, history: seq<Event>, e: Event)
    requires WellTimed(grace, history) && OnTime(grace, history, e)
    ensures WellTimed(grace, history + [e])
    ensures forall k :: Latest(history + [e], k) == if e.key == k then Some(e) else Latest(history, k)
  {
    var h := history + [e];
    assert h[..|h| - 1] == history;
    forall i | 0 <= i < |h| ensures OnTime(grace, h[..i], h[i]) {
      if i < |history| {
        assert h[..i] == history[..i];
      } else {
        assert h[..i] == history;
      }
    }
  }

  lemma PublishKeeps(s: State, k: Key)
    requires Timely(s)
    ensures Timely(PublishHandler(s, k)) && PublishHandler(s, k).grace == s.grace
    ensures RowsAgree(s) ==> RowsAgree(PublishHandler(s, k))
  {
    hide WellTimed, Latest, PublishHandler, TimersAgree;
    PublishAdmits(s, k);
    PublishTimers(s, k);
    HistoryGrows(s.grace, s.history, Published(k, s.now));
  }

  /** What a publish does at rest: a grace period ends; outside of one a known row becomes live. */
  lemma PublishAdmits(s: State, k: Key)
    requires AtRest(s)
    ensures var t := PublishHandler(s, k);
      && AtRest(t) && t.grace == s.grace && t.now == s.now && t.nextId == s.nextId
      && t.pending == s.pending - {k}
      && t.armed == (if k in s.pending then s.armed - {s.pending[k].id} else s.armed)
      && t.rows == (if k in s.pending || k !in s.rows then s.rows
                    else s.rows[k := s.rows[k].(live := true, startedAt := Some(s.now), endedAt := None)])
      && t.published == (if k in s.pending || k in s.rows then s.published + {k} else s.published)
      && t.history == if k in s.pending || k in s.rows then s.history + [Published(k, s.now)] else s.history
  {
    assert s.admitting + multiset{k} - multiset{k} == s.admitting;
  }

  lemma PublishTimers(s: State, k: Key)
    requires AtRest(s) && TimersAgree(s)
    ensures TimersAgree(PublishHandler(s, k))
  {
    hide PublishHandler;
    PublishAdmits(s, k);
  }

  /**
   * What an unpublish of a known key does at rest: the stream enters a grace period with a fresh timer; one that it was
   * already in ends, and its timer stops.
   */
  lemma UnpublishStartsGrace(s: State, k: Key)
    requires AtRest(s) && TimersAgree(s) && k in s.rows
    ensures var t := UnpublishHandler(s, k);
      var rest := if k in s.pending then s.armed - {s.pending[k].id} else s.armed;
      && t.pending == s.pending[k := Entry(s.nextId, s.now, None)]
      && t.armed == rest[s.nextId := Timer(k, s.now + s.grace)]
      && t.rows == s.rows && t.published == s.published - {k} && AtRest(t)
      && t.history == s.history + [Unpublished(k, s.now)]
      && t.grace == s.grace && t.now == s.now && t.nextId == s.nextId + 1
  {
    assert UnpublishHandler(s, k).inserting == map[];
    assert s.ended + multiset{k} - multiset{k} == s.ended;
  }

  lemma UnpublishKeeps(s: State, k: Key)
    requires Timely(s)
    ensures Timely(UnpublishHandler(s, k)) && UnpublishHandler(s, k).grace == s.grace
  {
    hide WellTimed, Latest, UnpublishHandler, TimersAgree;
    if k in s.rows {
      UnpublishStartsGrace(s, k);
      UnpublishTimer(s, k);
      HistoryGrows(s.grace, s.history, Unpublished(k, s.now));
    } else {
      UnpublishUnknown(s, k);
    }
  }

  lemma UnpublishUnknown(s: State, k: Key)
    requires k !in s.rows
    ensures UnpublishHandler(s, k) == s
  {
  }

  lemma UnpublishTimer(s: State, k: Key)
    requires AtRest(s) && TimersAgree(s) && k in s.rows
    ensures TimersAgree(UnpublishHandler(s, k))
  {
    hide UnpublishHandler;
    UnpublishStartsGrace(s, k);
  }

  /** An unpublish keeps the database in agreement if and only if its key is unknown or its row live. */
  lemma UnpublishKeepsRowsIff(s: State, k: Key)
    requires Inv(s)
    ensures RowsAgree(UnpublishHandler(s, k)) <==> k !in s.rows || s.rows[k].live
  {
    hide UnpublishHandler;
    if k in s.rows {
      UnpublishStartsGrace(s, k);
      assert k in UnpublishHandler(s, k).pending;
    } else {
      UnpublishUnknown(s, k);
    }
  }

  /** What an expiring timer does at rest: it always finds its own entry and takes the stream offline. */
  lemma ExpireFinalizes(s: State, id: nat)
    requires Timely(s) && id in s.armed && s.armed[id].deadline <= s.now
    ensures var k := s.armed[id].key;
      var t := ExpireHandler(s, id);
      && k in s.pending && s.pending[k].id == id && s.pending[k].since + s.grace <= s.now
      && t.pending == s.pending - {k} && t.armed == s.armed - {id}
      && t.rows == TakeOffline(s.rows, k, s.now)
      && t.history == s.history + [Finalized(k, s.now)]
      && t.published == s.published && AtRest(t)
      && t.grace == s.grace && t.now == s.now && t.nextId == s.nextId
  {
    var s1 := FireStep(s, id);
    var s2 := TakeStep(s1, id);
    assert s1.fired - {id} == map[];
    assert s2.closing - {id} == map[];
  }

  lemma ExpireKeeps(s: State, id: nat)
    requires Timely(s) && id in s.armed && s.armed[id].deadline <= s.now
    ensures Timely(ExpireHandler(s, id)) && ExpireHandler(s, id).grace == s.grace
    ensures RowsAgree(s) ==> RowsAgree(ExpireHandler(s, id))
  {
    hide WellTimed, Latest, ExpireHandler;
    ExpireFinalizes(s, id);
    HistoryGrows(s.grace, s.history, Finalized(s.armed[id].key, s.now));
  }

  lemma RecordingKeeps(s: State, k: Key)
    requires Timely(s)
    ensures Timely(DvrStep(s, k)) && DvrStep(s, k).grace == s.grace
    ensures RowsAgree(s) ==> RowsAgree(DvrStep(s, k))
  {
    hide WellTimed, Latest;
  }

  lemma ReconcileKeeps(s: State, listing: seq<Key>)
    requires Timely(s)
    ensures var t := s.(rows := ReconcileRows(s, s.published, listing)); Timely(t) && (RowsAgree(s) ==> RowsAgree(t))
  {
    hide WellTimed, Latest;
  }

  /** Every handler, for any key at any time, keeps timers and history in order. */
  lemma HandlerKeepsTimely(s: State, h: Handler)
    requires Timely(s) && Possible(s, h)
    ensures Timely(Handle(s, h)) && Handle(s, h).grace == s.grace
    ensures RowsAgree(s) && !h.Unpublish? ==> RowsAgree(Handle(s, h))
  {
    hide PublishHandler, UnpublishHandler, ExpireHandler, DvrStep, ReconcileRows, Latest, WellTimed, IsListing;
    match h
    case Publish(k) => PublishKeeps(s, k);
    case Unpublish(k) => UnpublishKeeps(s, k);
    case Expire(id) => ExpireKeeps(s, id);
    case Recording(k) => RecordingKeeps(s, k);
    case Reconcile(listing) => ReconcileKeeps(s, listing);
    case _ =>
  }

  /** SRS reports the end of streams it was receiving, whose rows are live, or of streams unknown to the service. */
  predicate FromSrs(s: State, h: Handler) {
    h.Unpublish? && h.key in s.rows ==> s.rows[h.key].live
  }

  predicate AllFromSrs(s: State, hs: seq<Handler>)
    requires CanHandle(s, hs)
    decreases |hs|
  {
    hs == [] || (FromSrs(s, hs[0]) && AllFromSrs(Handle(s, hs[0]), hs[1..]))
  }

  /** Every handler keeps the whole invariant, given that ends of streams are reported by SRS. */
  lemma HandlerKeepsInv(s: State, h: Handler)
    requires Inv(s) && Possible(s, h) && FromSrs(s, h)
    ensures Inv(Handle(s, h)) && Handle(s, h).grace == s.grace
  {
    hide Timely, RowsAgree, UnpublishHandler, IsListing;
    HandlerKeepsTimely(s, h);
    if h.Unpublish? {
      UnpublishKeepsRowsIff(s, h.key);
    }
  }

  lemma {:induction false} RunKeepsTimely(s: State, hs: seq<Handler>)
    requires Timely(s) && CanHandle(s, hs)
    ensures Timely(HandleAll(s, hs)) && HandleAll(s, hs).grace == s.grace
    decreases |hs|
  {
    hide Timely, Possible;
    if hs != [] {
      HandlerKeepsTimely(s, hs[0]);
      RunKeepsTimely(Handle(s, hs[0]), hs[1..]);
    }
  }

  lemma {:induction false} RunKeepsInv(s: State, hs: seq<Handler>)
    requires Inv(s) && CanHandle(s, hs) && AllFromSrs(s, hs)
    ensures Inv(HandleAll(s, hs))
    decreases |hs|
  {
    hide Inv, Possible, FromSrs;
    if hs != [] {
      HandlerKeepsInv(s, hs[0]);
      RunKeepsInv(Handle(s, hs[0]), hs[1..]);
    }
  }

  // ---------------------------------------------------------------- main results

  /** Whole handlers: in every reachable state the database agrees with SRS and with the grace periods. */
  lemma ReachableRowsAgree(s: State, hs: seq<Handler>)
    requires Init(s) && CanHandle(s, hs) && AllFromSrs(s, hs)
    ensures RowsAgree(HandleAll(s, hs)) && AtRest(HandleAll(s, hs))
  {
    InitInv(s);
    RunKeepsInv(s, hs);
  }

  /**
   * Whole handlers in any order and for any keys, timer firing and finalizing being one of them: each pending key has
   * exactly one running timer, also after repeated unpublishes, and every stream in the history was finalized a full
   * grace period after its latest event, which was an unpublish; so no accepted publish came in between.
   */
  lemma FinalizedOnlyAfterGrace(s: State, hs: seq<Handler>)
    requires Init(s) && CanHandle(s, hs)
    ensures var t := HandleAll(s, hs);
      && WellTimed(s.grace, t.history)
      && (forall k :: k in t.pending ==>
            exists id :: id in t.armed && t.armed[id].key == k &&
                         forall other :: other in t.armed && t.armed[other].key == k ==> other == id)
      && forall id :: id in t.armed ==> t.armed[id].key in t.pending
  {
    InitInv(s);
    RunKeepsTimely(s, hs);
    var t := HandleAll(s, hs);
    forall k | k in t.pending
      ensures exists id :: id in t.armed && t.armed[id].key == k &&
                           forall other :: other in t.armed && t.armed[other].key == k ==> other == id
    {
      var id := t.pending[k].id;
      assert id in t.armed && t.armed[id].key == k;
    }
  }

  /** What `WellTimed` says, spelled out on positions of the history. */
  lemma WellTimedMeans(grace: nat, history: seq<Event>, i: nat) returns (j: nat)
    requires WellTimed(grace, history) && i < |history| && history[i].Finalized?
    ensures j < i && history[j].Unpublished? && history[j].key == history[i].key
    ensures history[j].at + grace <= history[i].at
    ensures forall m :: j < m < i ==> history[m].key != history[i].key
  {
    assert OnTime(grace, history[..i], history[i]);
    j := LatestAt(history[..i], history[i].key);
  }

  lemma {:induction false} LatestAt(history: seq<Event>, k: Key) returns (j: nat)
    requires Latest(history, k).Some?
    ensures j < |history| && history[j].key == k && Latest(history, k) == Some(history[j])
    ensures forall m :: j < m < |history| ==> history[m].key != k
  {
    var last := |history| - 1;
    if history[last].key == k {
      j := last;
    } else {
      j := LatestAt(history[..last], k);
    }
  }

  // ---------------------------------------------------------------- reconciling

  /** Live rows that nothing is streaming to and no grace period protects. */
  function Stale(s: State): set<Key> {
    LiveKeys(s.rows) - s.published - s.pending.Keys
  }

  lemma ReconcileLive(s: State, active: set<Key>, listing: seq<Key>)
    ensures LiveKeys(ReconcileRows(s, active, listing))
         == set k | k in LiveKeys(s.rows) && !(k in listing && k !in active && k !in s.pending)
  {
  }

  /** One pass makes the live rows exact if and only if `ListActive` returned every stale row. */
  lemma ReconcileExact(s: State, listing: seq<Key>)
    requires Inv(s) && IsListing(s.rows, listing)
    ensures var t := Handle(s, Reconcile(listing));
      && LiveKeys(t.rows) == s.published + s.pending.Keys + set k | k in Stale(s) && k !in listing
      && (LiveKeys(t.rows) == s.published + s.pending.Keys <==> forall k :: k in Stale(s) ==> k in listing)
  {
    hide IsListing, Timely, ReconcileRows, LiveKeys;
    ReconcileLive(s, s.published, listing);
    ProtectedAreLive(s);
    var live := LiveKeys(Handle(s, Reconcile(listing)).rows);
    var kept := s.published + s.pending.Keys;
    var missed := set k | k in Stale(s) && k !in listing;
    assert live == kept + missed;
    assert missed !! kept;
    assert live == kept <==> missed == {};
    assert forall k :: k in Stale(s) ==> (k in listing <==> k !in missed);
  }

  lemma ProtectedAreLive(s: State)
    requires RowsAgree(s)
    ensures s.published + s.pending.Keys <= LiveKeys(s.rows)
  {
  }

  lemma {:induction false} DistinctIndices(listing: seq<Key>, all: set<Key>)
    requires forall i, j :: 0 <= i < j < |listing| ==> listing[i] != listing[j]
    requires forall i :: 0 <= i < |listing| ==> listing[i] in all
    requires |listing| == |all|
    ensures forall k :: k in all ==> k in listing
    decreases |listing|
  {
    if listing == [] {
      assert all == {};
    } else {
      var last := |listing| - 1;
      var init := listing[..last];
      DistinctIndices(init, all - {listing[last]});
      forall k | k in all ensures k in listing {
        if k != listing[last] {
          assert k in init;
        }
      }
    }
  }

  /** With at most 1000 live rows, one pass leaves exactly the published and in-grace streams live. */
  lemma ReconcileWithinLimit(s: State, listing: seq<Key>)
    requires Inv(s) && IsListing(s.rows, listing) && |LiveKeys(s.rows)| <= 1000
    ensures LiveKeys(Handle(s, Reconcile(listing)).rows) == s.published + s.pending.Keys
  {
    DistinctIndices(listing, LiveKeys(s.rows));
    ReconcileExact(s, listing);
  }

  /**
   * Beyond the limit a stale row can starve: while the rows listed first are all streaming or in grace, a pass
   * changes nothing, and the stale row stays live.
   */
  lemma ReconcileStarves(s: State, listing: seq<Key>, k: Key)
    requires Inv(s) && IsListing(s.rows, listing) && k in Stale(s)
    requires forall i :: 0 <= i < |listing| ==> listing[i] in s.published || listing[i] in s.pending
    ensures |LiveKeys(s.rows)| > RECONCILE_SCAN_LIMIT
    ensures Handle(s, Reconcile(listing)) == s
  {
    if |LiveKeys(s.rows)| <= RECONCILE_SCAN_LIMIT {
      DistinctIndices(listing, LiveKeys(s.rows));
      assert false;
    }
    var t := Handle(s, Reconcile(listing));
    assert t.rows == s.rows;
  }

  // ---------------------------------------------------------------- a service too busy for the scan limit

  function Name(n: nat): (k: Key)
    ensures |k| == n
  {
    seq(n, _ => 'k')
  }

  function Names(n: nat): (names: seq<Key>)
    ensures |names| == n && forall i :: 0 <= i < n ==> names[i] == Name(i)
  {
    seq(n, i requires 0 <= i < n => Name(i))
  }

  function NameSet(n: nat): (names: set<Key>)
    ensures forall k :: k in names <==> k in Names(n)
  {
    set k | k in Names(n)
  }

  lemma NamesListed(n: nat)
    ensures forall i :: 0 <= i < n ==> Name(i) in NameSet(n)
    ensures Name(n) !in NameSet(n)
  {
    hide Name, NameSet, Names;
    forall i | 0 <= i < n ensures Name(i) in NameSet(n) {
      assert Names(n)[i] == Name(i);
    }
    assert forall i :: 0 <= i < n ==> |Names(n)[i]| == i;
  }

  lemma OneNameMore(n: nat)
    ensures NameSet(n + 1) == NameSet(n) + {Name(n)}
  {
    hide Name, NameSet, Names;
    assert Names(n + 1) == Names(n) + [Name(n)];
    assert forall k :: k in Names(n + 1) <==> k in Names(n) || k == Name(n);
  }

  lemma {:induction false} NamesCounted(n: nat)
    ensures |NameSet(n)| == n
  {
    hide Name, NameSet;
    if n > 0 {
      NamesCounted(n - 1);
      NamesListed(n - 1);
      OneNameMore(n - 1);
    } else {
      assert Names(0) == [];
      assert NameSet(0) == {};
    }
  }

  /** `n` streams with a viewer each, and one live row that nobody streams to or watches. */
  function CrowdRows(n: nat): map<Key, Row> {
    map k | k in NameSet(n) + {Name(n)} :: Row(true, None, None, if k in NameSet(n) then 1 else 0)
  }

  lemma CrowdListing(n: nat)
    requires n == RECONCILE_SCAN_LIMIT
    ensures IsListing(CrowdRows(n), Names(n))
  {
    hide Names, Name, NameSet;
    NamesCounted(n);
    NamesListed(n);
    assert LiveKeys(CrowdRows(n)) == NameSet(n) + {Name(n)};
    assert forall i :: 0 <= i < n ==> |Names(n)[i]| == i;
    assert forall i :: 0 <= i < n ==> Names(n)[i] in NameSet(n);
  }

  /** The starving is real: an initial state, a listing of it, and a stale row that the pass leaves live. */
  lemma CrowdStarves(grace: nat, now: int) returns (s: State, listing: seq<Key>, k: Key)
    ensures Init(s) && IsListing(s.rows, listing) && k in Stale(s)
    ensures Handle(s, Reconcile(listing)) == s
  {
    hide IsListing, Names, Name, NameSet, Handle, ReconcileRows;
    var n := RECONCILE_SCAN_LIMIT;
    NamesCounted(n);
    NamesListed(n);
    s := State(grace, now, CrowdRows(n), NameSet(n), multiset{}, map[], map[], map[], map[], multiset{}, map[], Idle,
               0, 0, NO_LEDGER, []);
    listing, k := Names(n), Name(n);
    CrowdListing(n);
    InitInv(s);
    assert forall i :: 0 <= i < n ==> listing[i] in NameSet(n);
    ReconcileStarves(s, listing, k);
  }
}
