/**
 * The livestream use case as it runs: a table of rows, a heap object per pending entry, timers. The ghost field
 * `model` is the protocol state of module Livestream; every method moves both in step.
 */
module LivestreamService {
  import opened Wrappers
  import opened Livestream
  import opened LivestreamHandlers
  import opened LivestreamRuns

  datatype Error = InvalidStreamKey

  function WentLive(row: Row, at: int): (r: Row)
    ensures r.live && r.startedAt == Some(at) && r.endedAt == None && r.viewers == row.viewers
  {
    row.(live := true, startedAt := Some(at), endedAt := None)
  }

  function WentOffline(row: Row, at: int): (r: Row)
    ensures !r.live && r.startedAt == row.startedAt && r.endedAt == Some(at) && r.viewers == row.viewers
  {
    row.(live := false, endedAt := Some(at))
  }

  /** `pendingEnd`: its timer, and the recording stashed in it while the grace period lasts. */
  class PendingEnd {
    const timer: nat
    const since: int
    var dvr: Option<nat>

    constructor (timer: nat, since: int)
      ensures this.timer == timer && this.since == since && dvr == None
    {
      this.timer := timer;
      this.since := since;
      dvr := None;
    }

    function Value(): Entry
      reads this
    {
      Entry(timer, since, dvr)
    }
  }

  class UseCase {
    const grace: nat
    var now: int
    var rows: map<Key, Row>
    var pending: map<Key, PendingEnd>
    var timers: map<nat, Timer>
    var nextTimer: nat
    var nextDvr: nat
    ghost var model: State

    /** The concrete fields show what the model says, and no two keys share an entry object. */
    ghost predicate Valid()
      reads this, pending.Values
    {
      && model.grace == grace && model.now == now && model.rows == rows
      && model.armed == timers && model.nextId == nextTimer && model.nextDvr == nextDvr
      && Showing(model.pending)
    }

    /** The entry objects show these entries, and no two keys share one. */
    ghost predicate Showing(entries: map<Key, Entry>)
      reads this`pending, pending.Values
    {
      && entries.Keys == pending.Keys
      && (forall k :: k in pending ==> entries[k] == pending[k].Value())
      && (forall k, l :: k in pending && l in pending && k != l ==> pending[k] != pending[l])
    }

    constructor (grace: nat, rows: map<Key, Row>, now: int, ghost published: set<Key>)
      requires forall k :: k in published ==> k in rows && rows[k].live
      ensures Valid() && Init(model) && model.rows == rows && model.published == published
    {
      this.grace, this.rows, this.now := grace, rows, now;
      pending, timers, nextTimer, nextDvr := map[], map[], 0, 0;
      model := State(grace, now, rows, published, multiset{}, map[], map[], map[], map[], multiset{}, map[], Idle,
                     0, 0, NO_LEDGER, []);
    }

    /** `Timer.Stop`. */
    method StopTimer(id: nat)
      modifies this`timers
      ensures timers == old(timers) - {id}
    {
      timers := timers - {id};
    }

    lemma TimerShown(entries: map<Key, Entry>, k: Key)
      requires Showing(entries)
      ensures entries.Keys == pending.Keys && (k in pending ==> entries[k].id == pending[k].timer)
    {
    }

    /** Stops the timer of an entry that `k` has, and gives `k` a new entry. */
    method ReplaceEntry(k: Key, timer: nat, since: int, ghost entries: map<Key, Entry>)
      requires Showing(entries)
      modifies this`timers, this`pending
      ensures Showing(entries[k := Entry(timer, since, None)])
      ensures timers == if k in old(pending) then old(timers) - {old(pending)[k].timer} else old(timers)
      ensures pending.Keys == old(pending.Keys) + {k} && fresh(pending[k])
      ensures pending[k].Value() == Entry(timer, since, None)
      ensures forall l :: l in old(pending) && l != k ==>
        pending[l] == old(pending)[l] && pending[l] != pending[k] && pending[l].Value() == old(pending[l].Value())
    {
      if k in pending {
        StopTimer(pending[k].timer);
      }
      var entry := new PendingEnd(timer, since);
      pending := pending[k := entry];
    }

    // -------------------------------------------------------------- lock sections and writes

    /** on_publish, lock section: a reconnect cancels the pending end. */
    method AdmitLocked(k: Key) returns (reconnected: bool)
      requires Valid()
      modifies this
      ensures Valid() && model == AdmitStep(old(model), k)
      ensures reconnected <==> k in old(pending)
      ensures pending == old(pending) - {k} && rows == old(rows)
      ensures timers == if reconnected then old(timers) - {old(pending)[k].timer} else old(timers)
    {
      reconnected := k in pending;
      if reconnected {
        StopTimer(pending[k].timer);
        pending := pending - {k};
      }
      model := AdmitStep(model, k);
    }

    /** on_publish, outside the lock: look the row up and mark it live. */
    method MarkLive(k: Key) returns (r: Result<(), Error>)
      requires Valid() && k in model.admitting
      modifies this
      ensures Valid() && model == GoLiveStep(old(model), k)
      ensures r.Ok? <==> k in rows
      ensures pending == old(pending) && timers == old(timers) && now == old(now)
      ensures rows == if k in old(rows) then old(rows)[k := WentLive(old(rows)[k], now)] else old(rows)
    {
      if k in rows {
        rows := rows[k := rows[k].(live := true, startedAt := Some(now), endedAt := None)];
        r := Ok(());
      } else {
        r := Err(InvalidStreamKey);
      }
      model := GoLiveStep(model, k);
    }

    /** SRS: the stream ends, and its end is reported. */
    method StreamEnds(k: Key)
      requires Valid()
      modifies this`model
      ensures Valid() && model == EndStep(old(model), k) && k in model.ended
    {
      model := EndStep(model, k);
    }

    /** on_unpublish, outside the lock: look the row up and start the grace timer. */
    method ArmTimer(k: Key) returns (r: Result<nat, Error>)
      requires Valid() && (k in rows ==> k in model.ended)
      modifies this
      ensures Valid() && pending == old(pending) && rows == old(rows)
      ensures r.Ok? <==> k in rows
      ensures timers == if r.Ok? then old(timers)[r.value := Timer(k, now + grace)] else old(timers)
      ensures r.Ok? ==> model == ArmStep(old(model), k) && r.value == old(nextTimer) && now == old(now)
      ensures r.Ok? ==> r.value in model.inserting && model.inserting[r.value] == Arrival(k, now)
      ensures r.Err? ==> model == old(model)
    {
      if k !in rows {
        return Err(InvalidStreamKey);
      }
      r := Ok(nextTimer);
      timers := timers[nextTimer := Timer(k, now + grace)];
      nextTimer := nextTimer + 1;
      model := ArmStep(model, k);
    }

    /** on_unpublish, lock section: the new entry replaces an older one and stops its timer. */
    method InsertLocked(k: Key, timer: nat, since: int)
      requires Valid() && timer in model.inserting && model.inserting[timer] == Arrival(k, since)
      modifies this
      ensures Valid() && model == InsertStep(old(model), timer) && rows == old(rows)
      ensures timers == if k in old(pending) then old(timers) - {old(pending)[k].timer} else old(timers)
      ensures pending.Keys == old(pending.Keys) + {k} && fresh(pending[k])
      ensures pending[k].Value() == Entry(timer, since, None)
      ensures forall l :: l in old(pending) && l != k ==> pending[l] == old(pending)[l]
    {
      hide InsertStep, Showing;
      InsertShows(model, timer);
      TimerShown(model.pending, k);
      ReplaceEntry(k, timer, since, model.pending);
      model := InsertStep(model, timer);
    }

    /** A timer reaches its deadline: its callback is now waiting for the lock. */
    method FireTimer(id: nat)
      requires Valid() && id in timers && timers[id].deadline <= now
      modifies this
      ensures Valid() && model == FireStep(old(model), id) && pending == old(pending) && rows == old(rows)
      ensures now == old(now) && timers == old(timers) - {id}
    {
      timers := timers - {id};
      model := FireStep(model, id);
    }

    /** finalizeStreamEnd, lock section: take whatever entry the key has. */
    method TakeLocked(k: Key, ghost id: nat) returns (p: PendingEnd?)
      requires Valid() && id in model.fired && model.fired[id].key == k
      modifies this
      ensures Valid() && model == TakeStep(old(model), id) && pending == old(pending) - {k}
      ensures rows == old(rows) && timers == old(timers) && now == old(now)
      ensures if k in old(pending) then p == old(pending)[k] && p.dvr == old(p.dvr) else p == null
      ensures p != null ==> p !in pending.Values && id in model.closing && model.closing[id] == Closing(k, p.dvr)
    {
      p := null;
      if k in pending {
        p := pending[k];
        pending := pending - {k};
      }
      model := TakeStep(model, id);
    }

    /**
     * finalizeStreamEnd, outside the lock: mark the row offline and report the recording to process. The entry
     * object is no longer reachable from `pending`, so its recording is what it was under the lock.
     */
    method MarkOffline(k: Key, p: PendingEnd, ghost id: nat) returns (recording: Option<nat>)
      requires Valid() && id in model.closing && model.closing[id] == Closing(k, p.dvr) && p !in pending.Values
      modifies this
      ensures Valid() && model == OfflineStep(old(model), id) && pending == old(pending) && now == old(now)
      ensures rows == if k in old(rows) then old(rows)[k := WentOffline(old(rows)[k], now)] else old(rows)
      ensures recording == if k in rows then p.dvr else None
    {
      recording := None;
      if k in rows {
        rows := rows[k := rows[k].(live := false, endedAt := Some(now))];
        recording := p.dvr;
      }
      model := OfflineStep(model, id);
    }

    /** on_dvr: stash the recording in the pending entry, or hand it on for processing. */
    method HandleDVRComplete(k: Key) returns (r: Result<Option<nat>, Error>)
      requires Valid()
      modifies this, if k in pending then {pending[k]} else {}
      ensures Valid() && model == DvrStep(old(model), k) && pending == old(pending) && rows == old(rows)
      ensures forall l :: l in pending ==>
        pending[l].dvr == if l == k then Some(old(nextDvr)) else old(pending[l].dvr)
      ensures r == if k in pending then Ok(None)
                   else if k in rows then Ok(Some(old(nextDvr)))
                   else Err(InvalidStreamKey)
    {
      var recording := nextDvr;
      nextDvr := nextDvr + 1;
      model := DvrStep(model, k);
      if k in pending {
        pending[k].dvr := Some(recording);
        return Ok(None);
      }
      if k in rows {
        return Ok(Some(recording));
      }
      return Err(InvalidStreamKey);
    }

    // -------------------------------------------------------------- whole handlers

    /** on_publish. */
    method AuthenticateStreamKey(k: Key) returns (r: Result<(), Error>)
      requires Valid()
      modifies this
      ensures Valid() && model == PublishHandler(old(model), k)
      ensures r.Ok? <==> k in old(pending) || k in rows
      ensures pending == old(pending) - {k}
      ensures timers == if k in old(pending) then old(timers) - {old(pending)[k].timer} else old(timers)
      ensures rows == if k !in old(pending) && k in old(rows) then old(rows)[k := WentLive(old(rows)[k], now)]
                      else old(rows)
    {
      var reconnected := AdmitLocked(k);
      if reconnected {
        return Ok(());
      }
      r := MarkLive(k);
    }

    /** on_unpublish. */
    method UnpublishStream(k: Key) returns (r: Result<(), Error>)
      requires Valid()
      modifies this
      ensures Valid()
      ensures r.Ok? <==> k in rows
      ensures model == UnpublishHandler(old(model), k) && rows == old(rows)
      ensures r.Ok? ==>
        && pending.Keys == old(pending.Keys) + {k} && pending[k].Value() == Entry(old(nextTimer), old(now), None)
        && timers == var started := old(timers)[old(nextTimer) := Timer(k, old(now) + grace)];
                     if k in old(pending) then started - {old(pending)[k].timer} else started
    {
      hide ArmStep, InsertStep, EndStep;
      if k in rows {
        StreamEnds(k);
      }
      var armed := ArmTimer(k);
      if armed.Err? {
        return Err(armed.error);
      }
      InsertLocked(k, armed.value, now);
      return Ok(());
    }

    /** A grace timer fires and finalizes the stream. */
    method FinalizeStreamEnd(id: nat) returns (recording: Option<nat>)
      requires Valid() && id in timers && timers[id].deadline <= now && id !in model.closing
      modifies this
      ensures Valid() && model == ExpireHandler(old(model), id)
      ensures var k := old(timers)[id].key;
        && pending == old(pending) - {k} && timers == old(timers) - {id}
        && rows == if k in old(pending) && k in old(rows) then old(rows)[k := WentOffline(old(rows)[k], now)]
                   else old(rows)
      ensures recording ==
        var k := old(timers)[id].key;
        if k in old(pending) && k in rows then old(pending[k].dvr) else None
    {
      var k := timers[id].key;
      FireTimer(id);
      var p := TakeLocked(k, id);
      if p == null {
        return None;
      }
      recording := MarkOffline(k, p, id);
    }

    /** Reconcile, one row: whether it is to be taken offline; the key is looked up in `pending` under the lock. */
    method InspectLocked(k: Key, active: set<Key>) returns (stale: bool)
      requires Valid() && model.pass.Scanning? && model.pass.active == active
      requires model.pass.todo != [] && model.pass.todo[0] == k
      modifies this`model
      ensures Valid() && model == old(model).(pass := InspectPass(old(model)))
      ensures stale <==> k !in active && k !in pending
    {
      stale := k !in active && k !in pending;
      model := model.(pass := InspectPass(model));
    }

    /** Reconcile, one stale row: the row as it was read is written back offline, outside the lock. */
    method RepairRow(k: Key, row: Row, at: int)
      requires Valid() && model.pass.Repairing? && model.pass.at == at
      requires model.pass.todo != [] && model.pass.todo[0] == k
      requires k in model.pass.seen && model.pass.seen[k] == row
      modifies this`rows, this`model
      ensures Valid() && model == RepairStep(old(model))
      ensures rows == if k in old(rows) then old(rows)[k := WentOffline(row, at)] else old(rows)
    {
      if k in rows {
        rows := rows[k := row.(live := false, endedAt := Some(at))];
      }
      model := RepairStep(model);
    }

    /** Reconcile, one turn of the loop. */
    method ReconcileOne(k: Key, active: set<Key>, row: Row, at: int, ghost s: State, ghost done: seq<Key>,
                        ghost todo: seq<Key>)
      requires Valid() && todo != [] && todo[0] == k && k in s.rows && row == s.rows[k] && at == s.now
      requires model == MidPass(s, active, done, todo)
      modifies this`rows, this`model
      ensures Valid() && model == MidPass(s, active, done + [k], todo[1..])
    {
      hide ReconcileRows, InspectPass, RepairStep;
      TurnSteps(s, active, done, todo);
      var stale := InspectLocked(k, active);
      if stale {
        RepairRow(k, row, at);
      }
    }

    /**
     * Reconcile, from the listing on, for whatever SRS answered before: exactly the listed rows that were not in the
     * answer and are not in grace go offline.
     */
    method ReconcileListed(active: set<Key>, listing: seq<Key>)
      requires Valid() && model.pass == Surveyed(active) && IsListing(rows, listing)
      modifies this`rows, this`model
      ensures Valid()
      ensures model == old(model).(rows := ReconcileRows(old(model), active, listing), pass := Idle)
      ensures rows == map k | k in old(rows) ::
        if k in listing && k !in active && k !in pending then WentOffline(old(rows)[k], now) else old(rows)[k]
    {
      hide ReconcileRows, IsListing;
      ghost var start := model;
      ReconcileRowsAre(start, active, listing);
      var at, seen := now, rows;
      ListedAreRows(rows, listing);
      ReconcileNothing(start, active);
      model := MidPass(start, active, [], listing);
      for i := 0 to |listing|
        invariant Valid() && model == MidPass(start, active, listing[..i], listing[i..])
      {
        var k := listing[i];
        assert listing[..i + 1] == listing[..i] + [k] && listing[i..][1..] == listing[i + 1..];
        ReconcileOne(k, active, seen[k], at, start, listing[..i], listing[i..]);
      }
      assert listing[..|listing|] == listing;
      model := model.(pass := Idle);
    }

    /** One whole reconcile pass: `active` is what SRS receives, `listing` what `ListActive` returned. */
    method ReconcileLiveStreams(active: set<Key>, listing: seq<Key>)
      requires Valid() && model.pass == Idle && active == model.published && IsListing(rows, listing)
      modifies this`rows, this`model
      ensures Valid() && model == Handle(old(model), Reconcile(listing))
    {
      hide ReconcileRows, IsListing;
      PassIrrelevant(model, Surveyed(active), active, listing);
      model := model.(pass := Surveyed(active));
      ReconcileListed(active, listing);
    }
  }

  lemma InsertShows(s: State, id: nat)
    requires id in s.inserting
    ensures var k, t := s.inserting[id].key, InsertStep(s, id);
      && t.pending == s.pending[k := Entry(id, s.inserting[id].at, None)]
      && t.armed == (if k in s.pending then s.armed - {s.pending[k].id} else s.armed)
      && t.rows == s.rows && t.nextId == s.nextId && t.nextDvr == s.nextDvr
  {
  }

  lemma ListedAreRows(rows: map<Key, Row>, listing: seq<Key>)
    requires IsListing(rows, listing)
    ensures forall i :: 0 <= i < |listing| ==> listing[i] in rows
  {
  }

  lemma ReconcileRowsAre(s: State, active: set<Key>, listing: seq<Key>)
    ensures ReconcileRows(s, active, listing) == map k | k in s.rows ::
      if k in listing && k !in active && k !in s.pending then WentOffline(s.rows[k], s.now) else s.rows[k]
  {
  }

  lemma PassIrrelevant(s: State, p: Pass, active: set<Key>, listing: seq<Key>)
    ensures ReconcileRows(s.(pass := p), active, listing) == ReconcileRows(s, active, listing)
  {
  }

  /** One turn of the loop: the row is skipped, or found stale and repaired. */
  lemma TurnSteps(s: State, active: set<Key>, done: seq<Key>, todo: seq<Key>)
    requires todo != [] && todo[0] in s.rows
    ensures var r, t := MidPass(s, active, done, todo), MidPass(s, active, done + [todo[0]], todo[1..]);
      if todo[0] in active || todo[0] in s.pending then r.(pass := InspectPass(r)) == t
      else r.(pass := InspectPass(r)).pass == Repairing(active, s.now, s.rows, todo) &&
           RepairStep(r.(pass := InspectPass(r))) == t
  {
    hide ReconcileRows;
    ReconcileOneMore(s, active, done, todo[0]);
  }
}
