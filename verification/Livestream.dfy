/**
 * The livestream reconnect protocol of internal/usecase/livestream/livestream.go as a state machine.
 *
 * A `Step` is one lock section, one database write or one event of the environment: the finest interleaving
 * the code allows, including timer callbacks that have fired but do not hold the lock yet. A `Handler` is a
 * whole webhook, timer expiry or reconcile pass, run without interruption; it is a composition of steps.
 */
module Livestream {
  import opened Wrappers

  type Key = string

  /** The columns of a `livestreams` row that the protocol writes or orders by. */
  datatype Row = Row(live: bool, startedAt: Option<int>, endedAt: Option<int>, viewers: int)

  /** `pendingEnd`. `id` names the accepted unpublish and its timer, `since` is when the timer was created. */
  datatype Entry = Entry(id: nat, since: int, dvr: Option<nat>)

  datatype Timer = Timer(key: Key, deadline: int)

  /** An unpublish handler that has created its timer and waits for the lock. */
  datatype Arrival = Arrival(key: Key, at: int)

  /** A finalize that has taken an entry and has not written the database yet. */
  datatype Closing = Closing(key: Key, dvr: Option<nat>)

  /** What became of unpublishes, timers and recordings: history variables, never read by the protocol. */
  datatype Ledger = Ledger(
    accepted: multiset<nat>, cancelled: multiset<nat>, replaced: multiset<nat>, consumed: multiset<nat>,
    stopped: multiset<nat>, ran: multiset<nat>,
    discarded: multiset<nat>, overwritten: multiset<nat>, processed: multiset<nat>, failed: multiset<nat>,
    home: map<nat, nat>)     // the entry each stashed recording was put in

  datatype Event =
    | Published(key: Key, at: int)
    | Unpublished(key: Key, at: int)
    | Finalized(key: Key, at: int)

  /**
   * A reconcile pass: SRS has answered with `active`; then the live rows were read at time `at` as `seen`, and those
   * in `todo` are still to be inspected. In `Repairing`, the first of them has been found stale and is about to be
   * written.
   */
  datatype Pass =
    | Idle
    | Surveyed(active: set<Key>)
    | Scanning(active: set<Key>, at: int, seen: map<Key, Row>, todo: seq<Key>)
    | Repairing(active: set<Key>, at: int, seen: map<Key, Row>, todo: seq<Key>)

  datatype State = State(
    grace: nat,
    now: int,
    rows: map<Key, Row>,
    published: set<Key>,           // what SRS is receiving
    ended: multiset<Key>,          // ends of streams that SRS has reported and no handler has taken up
    pending: map<Key, Entry>,
    armed: map<nat, Timer>,        // running timers
    fired: map<nat, Timer>,        // callbacks waiting for the lock
    inserting: map<nat, Arrival>,
    admitting: multiset<Key>,      // publish handlers between their lock section and their write
    closing: map<nat, Closing>,
    pass: Pass,
    nextId: nat,
    nextDvr: nat,
    ledger: Ledger,
    history: seq<Event>)

  const NO_LEDGER := Ledger(multiset{}, multiset{}, multiset{}, multiset{}, multiset{}, multiset{},
                            multiset{}, multiset{}, multiset{}, multiset{}, map[])

  /** A service just started or restarted: no timer; rows may be live, and those of published streams are. */
  predicate Init(s: State) {
    && s.ended == multiset{} && s.pending == map[] && s.armed == map[] && s.fired == map[]
    && s.inserting == map[] && s.admitting == multiset{} && s.closing == map[] && s.pass == Idle
    && s.nextId == 0 && s.nextDvr == 0 && s.ledger == NO_LEDGER && s.history == []
    && forall k :: k in s.published ==> k in s.rows && s.rows[k].live
  }

  // ---------------------------------------------------------------- listing the live rows

  const RECONCILE_SCAN_LIMIT := 1000

  function LiveKeys(rows: map<Key, Row>): set<Key> {
    set k | k in rows && rows[k].live
  }

  /** What `ListActive` may return: live rows, most viewers first, at most the scan limit. */
  predicate IsListing(rows: map<Key, Row>, listing: seq<Key>) {
    && (forall i, j :: 0 <= i < j < |listing| ==> listing[i] != listing[j])
    && (forall i :: 0 <= i < |listing| ==> listing[i] in LiveKeys(rows))
    && (forall i, j :: 0 <= i < j < |listing| ==> rows[listing[i]].viewers >= rows[listing[j]].viewers)
    && |listing| == (if |LiveKeys(rows)| < RECONCILE_SCAN_LIMIT then |LiveKeys(rows)| else RECONCILE_SCAN_LIMIT)
    && (forall k, i :: k in LiveKeys(rows) && k !in listing && 0 <= i < |listing| ==>
          rows[listing[i]].viewers >= rows[k].viewers)
  }

  // ---------------------------------------------------------------- steps

  datatype Step =
    | Tick(d: nat)
    | End(key: Key)          // a stream ends, and SRS sends on_unpublish
    | Arm(key: Key)          // on_unpublish: row lookup and time.AfterFunc
    | Insert(id: nat)        // on_unpublish: lock section
    | Fire(id: nat)          // a timer reaches its deadline
    | Take(id: nat)          // finalizeStreamEnd: lock section of the callback of timer `id`
    | Offline(id: nat)       // finalizeStreamEnd: row update and recording
    | Admit(key: Key)        // on_publish: lock section
    | GoLive(key: Key)       // on_publish: row lookup and update
    | Dvr(key: Key)          // on_dvr
    | Drop(key: Key)         // SRS loses the stream, no webhook arrives
    | Survey                 // reconcile pass: SRS answers
    | List(listing: seq<Key>)  // reconcile pass: ListActive returns
    | Inspect                // reconcile pass: next row, lock section
    | Repair                 // reconcile pass: row update
    | Finish                 // reconcile pass: no row left

  predicate Enabled(s: State, step: Step) {
    match step
    case Arm(k) => k in s.rows && k in s.ended
    case Insert(id) => id in s.inserting
    case Fire(id) => id in s.armed && s.armed[id].deadline <= s.now
    case Take(id) => id in s.fired
    case Offline(id) => id in s.closing
    case GoLive(k) => k in s.admitting
    case Survey => s.pass.Idle?
    case List(listing) => s.pass.Surveyed? && IsListing(s.rows, listing)
    case Inspect => s.pass.Scanning? && s.pass.todo != []
    case Repair => s.pass.Repairing? && s.pass.todo != []
    case Finish => s.pass.Scanning? && s.pass.todo == []
    case _ => true
  }

  function Bag(d: Option<nat>): multiset<nat> {
    match d case None => multiset{} case Some(x) => multiset{x}
  }

  /** `Timer.Stop` has no effect on a timer that has already fired. */
  function Stopped(s: State, id: nat): multiset<nat> {
    if id in s.armed then multiset{id} else multiset{}
  }

  /** Entries, timers and waiting unpublishes are the same, and so is the time. */
  predicate SameProtocol(s: State, t: State) {
    && t.pending == s.pending && t.armed == s.armed && t.fired == s.fired && t.inserting == s.inserting
    && t.closing.Keys <= s.closing.Keys && t.nextId == s.nextId && t.now == s.now && t.grace == s.grace
  }

  function EndStep(s: State, k: Key): (t: State)
    ensures SameProtocol(s, t) && t.pass == s.pass
  {
    s.(published := s.published - {k}, ended := s.ended + multiset{k})
  }

  function ArmStep(s: State, k: Key): (t: State)
    ensures t.pass == s.pass && t.now == s.now && t.grace == s.grace
    ensures t.pending == s.pending && t.fired == s.fired && t.closing == s.closing
  {
    s.(ended := s.ended - multiset{k},
       armed := s.armed[s.nextId := Timer(k, s.now + s.grace)],
       inserting := s.inserting[s.nextId := Arrival(k, s.now)],
       nextId := s.nextId + 1)
  }

  function InsertStep(s: State, id: nat): (t: State)
    requires id in s.inserting
    ensures t.pass == s.pass && t.now == s.now && t.grace == s.grace
    ensures t.inserting == s.inserting - {id}
  {
    var k := s.inserting[id].key;
    var l := s.ledger;
    s.(pending := s.pending[k := Entry(id, s.inserting[id].at, None)],
       inserting := s.inserting - {id},
       armed := if k in s.pending then s.armed - {s.pending[k].id} else s.armed,
       ledger := if k in s.pending
                 then l.(accepted := l.accepted + multiset{id},
                         replaced := l.replaced + multiset{s.pending[k].id},
                         stopped := l.stopped + Stopped(s, s.pending[k].id),
                         discarded := l.discarded + Bag(s.pending[k].dvr))
                 else l.(accepted := l.accepted + multiset{id}),
       history := s.history + [Unpublished(k, s.inserting[id].at)])
  }

  function FireStep(s: State, id: nat): (t: State)
    requires id in s.armed
    ensures t.pass == s.pass && t.now == s.now && t.grace == s.grace
    ensures t.inserting == s.inserting
  {
    s.(armed := s.armed - {id}, fired := s.fired[id := s.armed[id]])
  }

  function TakeStep(s: State, id: nat): (t: State)
    requires id in s.fired
    ensures t.pass == s.pass && t.now == s.now && t.grace == s.grace
    ensures t.inserting == s.inserting
  {
    var k := s.fired[id].key;
    var l := s.ledger;
    if k !in s.pending then
      s.(fired := s.fired - {id}, ledger := l.(ran := l.ran + multiset{id}))
    else
      s.(fired := s.fired - {id},
         pending := s.pending - {k},
         closing := s.closing[id := Closing(k, s.pending[k].dvr)],
         ledger := l.(ran := l.ran + multiset{id}, consumed := l.consumed + multiset{s.pending[k].id}),
         history := s.history + [Finalized(k, s.now)])
  }

  function TakeOffline(rows: map<Key, Row>, k: Key, now: int): map<Key, Row> {
    if k in rows then rows[k := rows[k].(live := false, endedAt := Some(now))] else rows
  }

  function OfflineStep(s: State, id: nat): (t: State)
    requires id in s.closing
    ensures SameProtocol(s, t) && t.pass == s.pass
  {
    var c := s.closing[id];
    var l := s.ledger;
    s.(rows := TakeOffline(s.rows, c.key, s.now),
       closing := s.closing - {id},
       ledger := if c.key in s.rows then l.(processed := l.processed + Bag(c.dvr))
                 else l.(failed := l.failed + Bag(c.dvr)))
  }

  function AdmitStep(s: State, k: Key): (t: State)
    ensures t.pass == s.pass && t.now == s.now && t.grace == s.grace
    ensures t.inserting == s.inserting
  {
    var l := s.ledger;
    if k !in s.pending then s.(admitting := s.admitting + multiset{k})
    else
      s.(pending := s.pending - {k},
         armed := s.armed - {s.pending[k].id},
         published := s.published + {k},
         ledger := l.(cancelled := l.cancelled + multiset{s.pending[k].id},
                      stopped := l.stopped + Stopped(s, s.pending[k].id),
                      discarded := l.discarded + Bag(s.pending[k].dvr)),
         history := s.history + [Published(k, s.now)])
  }

  function GoLiveStep(s: State, k: Key): (t: State)
    ensures SameProtocol(s, t) && t.pass == s.pass
  {
    if k !in s.rows then s.(admitting := s.admitting - multiset{k})
    else
      s.(admitting := s.admitting - multiset{k},
         rows := s.rows[k := s.rows[k].(live := true, startedAt := Some(s.now), endedAt := None)],
         published := s.published + {k},
         history := s.history + [Published(k, s.now)])
  }

  function DvrStep(s: State, k: Key): (t: State)
    ensures t.pass == s.pass && t.now == s.now && t.grace == s.grace
    ensures t.inserting == s.inserting && t.armed == s.armed && t.fired == s.fired && t.closing == s.closing
  {
    var d := s.nextDvr;
    var l := s.ledger;
    if k in s.pending then
      s.(pending := s.pending[k := s.pending[k].(dvr := Some(d))],
         nextDvr := d + 1,
         ledger := l.(overwritten := l.overwritten + Bag(s.pending[k].dvr), home := l.home[d := s.pending[k].id]))
    else
      s.(nextDvr := d + 1,
         ledger := if k in s.rows then l.(processed := l.processed + multiset{d})
                   else l.(failed := l.failed + multiset{d}))
  }

  /** A row that SRS is not receiving is stale unless its key is in grace. */
  function InspectPass(s: State): Pass
    requires s.pass.Scanning? && s.pass.todo != []
  {
    var p := s.pass;
    if p.todo[0] in p.active || p.todo[0] in s.pending then Scanning(p.active, p.at, p.seen, p.todo[1..])
    else Repairing(p.active, p.at, p.seen, p.todo)
  }

  /** The update writes the whole row as it was read, taken offline. */
  function RepairStep(s: State): (t: State)
    requires s.pass.Repairing? && s.pass.todo != []
    ensures SameProtocol(s, t)
  {
    var p := s.pass;
    var k := p.todo[0];
    s.(rows := if k in s.rows && k in p.seen then s.rows[k := p.seen[k].(live := false, endedAt := Some(p.at))]
               else s.rows,
       pass := Scanning(p.active, p.at, p.seen, p.todo[1..]))
  }

  function Next(s: State, step: Step): State
    requires Enabled(s, step)
  {
    match step
    case Tick(d) => s.(now := s.now + d)
    case End(k) => EndStep(s, k)
    case Arm(k) => ArmStep(s, k)
    case Insert(id) => InsertStep(s, id)
    case Fire(id) => FireStep(s, id)
    case Take(id) => TakeStep(s, id)
    case Offline(id) => OfflineStep(s, id)
    case Admit(k) => AdmitStep(s, k)
    case GoLive(k) => GoLiveStep(s, k)
    case Dvr(k) => DvrStep(s, k)
    case Drop(k) => s.(published := s.published - {k})
    case Survey => s.(pass := Surveyed(s.published))
    case List(listing) => s.(pass := Scanning(s.pass.active, s.now, s.rows, listing))
    case Inspect => s.(pass := InspectPass(s))
    case Repair => RepairStep(s)
    case Finish => s.(pass := Idle)
  }

  predicate CanRun(s: State, steps: seq<Step>)
    decreases |steps|
  {
    steps == [] || (Enabled(s, steps[0]) && CanRun(Next(s, steps[0]), steps[1..]))
  }

  function Run(s: State, steps: seq<Step>): State
    requires CanRun(s, steps)
    decreases |steps|
  {
    if steps == [] then s else Run(Next(s, steps[0]), steps[1..])
  }
}
