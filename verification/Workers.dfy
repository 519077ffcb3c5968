/** The code that consumes stream entries and runs handlers. Every method does to the
    tables, the stream and the dispatcher exactly what moves of the system do, database
    first and acknowledgement after. */
module Workers {
  import opened Lifecycle
  import opened Ledger
  import opened Store
  import W = World

  /** What a move does to the tables and to the sets a consumer sees. */
  lemma DoView(c: Config, w: W.World, m: W.Move, id: Uuid, act: Act)
    requires W.LedgerStep(m) == Some(Do(id, act))
    ensures W.Next(c, w, m).led.db == Touch(w.led.db, id, act, w.led.clock)
    ensures W.Next(c, w, m).led.clock == w.led.clock
    ensures var t, n := W.Transport(w, m), W.Next(c, w, m);
            n.entries == t.entries && n.queued == t.queued && n.running == t.running && n.returned == t.returned &&
            n.lingering == t.lingering
  {
  }

  /** The moves one stream entry stands for. */
  ghost function Processed(c: Config, w: W.World, id: Uuid, worker: string, token: Uuid, open: bool, recorded: bool)
    : W.World
  {
    var w1, d := W.Next(c, w, W.Deliver(id, worker, token)), W.Dispatch(id, token);
    if !W.Takes(w, id, Claim(worker, token)) || open then w1
    else if recorded then W.Next(c, w1, W.DispatchFailed(d))
    else Abandoned(c, w1, d)
  }

  /** The database refuses to record how a dispatch ended: its row stays running until the
      reaper finds it, while the entry is acknowledged all the same. */
  function Abandoned(c: Config, w: W.World, d: W.Dispatch): W.World {
    var w1 := W.Next(c, w, W.Crash(d));
    if d.id in w1.entries then W.Next(c, w1, W.Lose(d.id)) else w1
  }

  /** A refused claim: the tables stay and the entry is acknowledged. */
  lemma RefusedView(c: Config, w: W.World, id: Uuid, worker: string, token: Uuid, open: bool, recorded: bool)
    requires W.NotClaimable(w.led, id)
    ensures var n := Processed(c, w, id, worker, token, open, recorded);
            && n.led.db == Touch(w.led.db, id, Claim(worker, token), w.led.clock)
            && n.entries == w.entries - multiset{id} && n.queued == w.queued
            && n.running == w.running && n.returned == w.returned && n.lingering == w.lingering
  {
    DoView(c, w, W.Deliver(id, worker, token), id, Claim(worker, token));
  }

  /** A claim the database fails on: the entry stays pending. */
  lemma FaultyView(c: Config, w: W.World, id: Uuid, worker: string, token: Uuid, open: bool, recorded: bool)
    requires !W.NotClaimable(w.led, id) && !W.Takes(w, id, Claim(worker, token))
    ensures var n := Processed(c, w, id, worker, token, open, recorded);
            && n.led.db == Touch(w.led.db, id, Claim(worker, token), w.led.clock)
            && n.entries == w.entries && n.queued == w.queued
            && n.running == w.running && n.returned == w.returned && n.lingering == w.lingering
  {
    DoView(c, w, W.Deliver(id, worker, token), id, Claim(worker, token));
  }

  /** A claimed job handed to the dispatcher. */
  lemma DispatchedView(c: Config, w: W.World, id: Uuid, worker: string, token: Uuid, recorded: bool)
    requires W.Takes(w, id, Claim(worker, token))
    ensures var n := Processed(c, w, id, worker, token, true, recorded);
            && n.led.db == Touch(w.led.db, id, Claim(worker, token), w.led.clock)
            && n.entries == w.entries && n.queued == w.queued + multiset{W.Dispatch(id, token)}
            && n.running == w.running && n.returned == w.returned && n.lingering == w.lingering
  {
    DoView(c, w, W.Deliver(id, worker, token), id, Claim(worker, token));
  }

  lemma FailedView(c: Config, w: W.World, d: W.Dispatch)
    ensures var n := W.Next(c, w, W.DispatchFailed(d));
            && n.led.db == Touch(w.led.db, d.id, Fail(d.token, "dispatch failed"), w.led.clock)
            && n.entries == w.entries - multiset{d.id} && n.queued == w.queued - multiset{d}
            && n.running == w.running && n.returned == w.returned && n.lingering == w.lingering
  {
    DoView(c, w, W.DispatchFailed(d), d.id, Fail(d.token, "dispatch failed"));
  }

  /** A claimed job that cannot be dispatched leaves the dispatcher as it was. */
  lemma UndispatchedView(c: Config, w: W.World, id: Uuid, worker: string, token: Uuid)
    requires W.Takes(w, id, Claim(worker, token))
    ensures var n := Processed(c, w, id, worker, token, false, true);
            var claimed := Touch(w.led.db, id, Claim(worker, token), w.led.clock);
            && n.led.db == Touch(claimed, id, Fail(token, "dispatch failed"), w.led.clock)
            && n.entries == w.entries - multiset{id} && n.queued == w.queued
            && n.running == w.running && n.returned == w.returned && n.lingering == w.lingering
  {
    var d, w1 := W.Dispatch(id, token), W.Next(c, w, W.Deliver(id, worker, token));
    DispatchedView(c, w, id, worker, token, true);
    assert w1 == Processed(c, w, id, worker, token, true, true);
    DoView(c, w, W.Deliver(id, worker, token), id, Claim(worker, token));
    FailedView(c, w1, d);
    assert w.queued + multiset{d} - multiset{d} == w.queued;
  }

  lemma AbandonedView(c: Config, w: W.World, d: W.Dispatch)
    requires d in w.queued || (d !in w.running && d in w.returned)
    ensures W.CanMove(c, w, W.Crash(d))
    ensures var n := Abandoned(c, w, d);
            && n.led == w.led && n.entries == w.entries - multiset{d.id}
            && n.queued == (if d in w.queued then w.queued - multiset{d} else w.queued)
            && n.returned == (if d in w.queued then w.returned else w.returned - multiset{d})
            && n.running == w.running && n.lingering == w.lingering
  {
    CrashView(c, w, d);
    if d.id in w.entries { LoseView(c, W.Next(c, w, W.Crash(d)), d.id); }
  }

  lemma CrashView(c: Config, w: W.World, d: W.Dispatch)
    requires d in w.queued || (d !in w.running && d in w.returned)
    ensures W.CanMove(c, w, W.Crash(d))
    ensures var n := W.Next(c, w, W.Crash(d));
            && n.led == w.led && n.entries == w.entries
            && n.queued == (if d in w.queued then w.queued - multiset{d} else w.queued)
            && n.returned == (if d in w.queued then w.returned else w.returned - multiset{d})
            && n.running == w.running && n.lingering == w.lingering
  {
    assert d in W.InFlight(w);
  }

  lemma LoseView(c: Config, w: W.World, id: Uuid)
    ensures var n := W.Next(c, w, W.Lose(id));
            && n.led == w.led && n.entries == w.entries - multiset{id} && n.queued == w.queued
            && n.returned == w.returned && n.running == w.running && n.lingering == w.lingering
  {
  }

  /** Neither dispatched nor given back: the claimed row waits for the reaper. */
  lemma UnrecordedView(c: Config, w: W.World, id: Uuid, worker: string, token: Uuid)
    requires W.Takes(w, id, Claim(worker, token))
    ensures var n := Processed(c, w, id, worker, token, false, false);
            && n.led.db == Touch(w.led.db, id, Claim(worker, token), w.led.clock)
            && n.entries == w.entries - multiset{id} && n.queued == w.queued
            && n.running == w.running && n.returned == w.returned && n.lingering == w.lingering
  {
    var d, w1 := W.Dispatch(id, token), W.Next(c, w, W.Deliver(id, worker, token));
    DispatchedView(c, w, id, worker, token, true);
    assert w1 == Processed(c, w, id, worker, token, true, true);
    AbandonedView(c, w1, d);
    assert w.queued + multiset{d} - multiset{d} == w.queued;
  }

  /** ErrNotClaimable: no such row, a status no claim takes, or a closed gate. */
  predicate Refuses(db: Db, id: Uuid, now: Time) {
    id !in db.rows || !Claimable(db.rows[id].status) || !GateOpen(db.rows[id], now)
  }

  /** The tables and the part of the process one stream entry may change. */
  datatype Bench = Bench(db: Db, entries: multiset<Uuid>, queued: multiset<W.Dispatch>)

  function GivenBack(db: Db, id: Uuid, token: Uuid, now: Time, recorded: bool): Db {
    if recorded then Touch(db, id, Fail(token, "dispatch failed"), now) else db
  }

  function ProcessEntry(b: Bench, id: Uuid, worker: string, token: Uuid, now: Time, open: bool, recorded: bool): Bench {
    var claimed := Touch(b.db, id, Claim(worker, token), now);
    if Refuses(b.db, id, now) then Bench(claimed, b.entries - multiset{id}, b.queued)
    else if !Applies(b.db, id, Claim(worker, token), now) then Bench(claimed, b.entries, b.queued)
    else if open then Bench(claimed, b.entries, b.queued + multiset{W.Dispatch(id, token)})
    else Bench(GivenBack(claimed, id, token, now, recorded), b.entries - multiset{id}, b.queued)
  }

  /** The row of a fresh claim. */
  function ClaimedRow(r: Row, worker: string, token: Uuid, now: Time): Row {
    r.(status := Running, worker := Some(worker), token := Some(token), heartbeatAt := Some(now),
       startedAt := if r.startedAt.Some? then r.startedAt else Some(now), notBefore := None, attempts := r.attempts + 1)
  }

  predicate Waits(r: Row, now: Time) {
    r.status in {Pending, Queued, Scheduled} && (r.notBefore.Some? ==> r.notBefore.value <= now)
  }

  lemma ClaimView(db: Db, id: Uuid, worker: string, token: Uuid, now: Time)
    ensures var claimed := Touch(db, id, Claim(worker, token), now);
            if id in db.rows && Waits(db.rows[id], now) && db.rows[id].attempts < 32767
            then claimed.rows == db.rows[id := ClaimedRow(db.rows[id], worker, token, now)] && claimed.keys == db.keys
            else claimed == db
  {
  }

  lemma GivenBackView(db: Db, id: Uuid, token: Uuid, now: Time, recorded: bool)
    requires id in db.rows && db.rows[id].status == Running && db.rows[id].token == Some(token)
    ensures var back := GivenBack(db, id, token, now, recorded);
            && (!recorded ==> back == db)
            && (recorded ==> id in back.rows && back.rows == db.rows[id := back.rows[id]] &&
                             Recorded(db.rows[id], back.rows[id], Some("dispatch failed"), now))
  {
    ResultIsRecorded(db, W.Dispatch(id, token), Some("dispatch failed"), now, recorded);
  }

  /** What becomes of an entry, by the row it names: missing, not waiting or gated, it is
      acknowledged; at the SMALLINT limit it stays; else the job is claimed and either queued or,
      with the entry acknowledged, given back as a failed attempt, if that can be recorded. */
  lemma EntryOutcomes(b: Bench, id: Uuid, worker: string, token: Uuid, now: Time, open: bool, recorded: bool)
    ensures var e, rows := ProcessEntry(b, id, worker, token, now, open, recorded), b.db.rows;
            if id !in rows || !Waits(rows[id], now) then e == Bench(b.db, b.entries - multiset{id}, b.queued)
            else if rows[id].attempts >= 32767 then e == b
            else
              var q := ClaimedRow(rows[id], worker, token, now);
              && id in e.db.rows && e.db.rows == rows[id := e.db.rows[id]]
              && e.queued == (if open then b.queued + multiset{W.Dispatch(id, token)} else b.queued)
              && e.entries == (if open then b.entries else b.entries - multiset{id})
              && if open || !recorded then e.db.rows[id] == q
                 else Recorded(q, e.db.rows[id], Some("dispatch failed"), now)
  {
    ClaimView(b.db, id, worker, token, now);
    var claimed := Touch(b.db, id, Claim(worker, token), now);
    if id in b.db.rows && Waits(b.db.rows[id], now) && b.db.rows[id].attempts < 32767 {
      GivenBackView(claimed, id, token, now, recorded);
    }
  }

  lemma ProcessedView(c: Config, w: W.World, id: Uuid, worker: string, token: Uuid, open: bool, recorded: bool)
    ensures var n, now := Processed(c, w, id, worker, token, open, recorded), w.led.clock;
            && Bench(n.led.db, n.entries, n.queued) ==
               ProcessEntry(Bench(w.led.db, w.entries, w.queued), id, worker, token, now, open, recorded)
            && n.running == w.running && n.returned == w.returned && n.lingering == w.lingering
  {
    if Refuses(w.led.db, id, w.led.clock) {
      RefusedView(c, w, id, worker, token, open, recorded);
    } else if !W.Takes(w, id, Claim(worker, token)) {
      FaultyView(c, w, id, worker, token, open, recorded);
    } else if open {
      DispatchedView(c, w, id, worker, token, recorded);
    } else if recorded {
      UndispatchedView(c, w, id, worker, token);
    } else {
      UnrecordedView(c, w, id, worker, token);
    }
  }

  lemma EndedClaim(db: Db, id: Uuid, token: Uuid, act: Act, at: Time)
    requires act == Finish(token) || (act.Fail? && act.token == token)
    ensures id in Touch(db, id, act, at).rows ==> !HeldBy(Touch(db, id, act, at).rows[id], token)
  {
  }

  function Settlement(d: W.Dispatch, error: Option<string>): W.Move {
    if error.Some? then W.GiveUp(d, error.value) else W.Complete(d)
  }

  function Ending(d: W.Dispatch, error: Option<string>): Act {
    if error.Some? then Fail(d.token, error.value) else Act.Finish(d.token)
  }

  function Settled(c: Config, w: W.World, d: W.Dispatch, error: Option<string>, recorded: bool): W.World {
    if recorded then W.Next(c, w, Settlement(d, error)) else Abandoned(c, w, d)
  }

  function ResultDb(db: Db, d: W.Dispatch, error: Option<string>, now: Time, recorded: bool): Db {
    if recorded then Touch(db, d.id, Ending(d, error), now) else db
  }

  /** How a recorded result leaves the row of its claim: completed without an error, else failed
      once its attempts are used up, else pending behind its backoff. */
  predicate Recorded(r: Row, q: Row, error: Option<string>, now: Time) {
    && (error == None <==> q.status == Completed)
    && (error.Some? <==> q.status == Failed || q.status == Pending)
    && (error == None ==> q == r.(status := Completed, completedAt := Some(now)))
    && (error.Some? ==>
          && (q.status == Failed <==> r.attempts >= r.maxRetry)
          && q == r.(status := q.status, token := None,
                     lastError := if error.value == "" then None else error,
                     notBefore := if q.status == Failed then None else Some(now + RetryBackoff(r.attempts)),
                     completedAt := if q.status == Failed then Some(now) else r.completedAt))
  }

  predicate Owns(db: Db, d: W.Dispatch) {
    d.id in db.rows && db.rows[d.id].status == Running && db.rows[d.id].token == Some(d.token)
  }

  /** A result is recorded for the holder and for nobody else, and touches its own row only. */
  predicate ResultOutcome(db: Db, db': Db, d: W.Dispatch, error: Option<string>, now: Time, recorded: bool) {
    if recorded && Owns(db, d)
    then d.id in db'.rows && Recorded(db.rows[d.id], db'.rows[d.id], error, now) &&
         db'.rows == db.rows[d.id := db'.rows[d.id]] && db'.keys == db.keys
    else db' == db
  }

  lemma ResultIsRecorded(db: Db, d: W.Dispatch, error: Option<string>, now: Time, recorded: bool)
    ensures ResultOutcome(db, ResultDb(db, d, error, now, recorded), d, error, now, recorded)
  {
  }

  lemma SettledView(c: Config, w: W.World, d: W.Dispatch, error: Option<string>, recorded: bool)
    requires d in w.returned && (recorded || (d !in w.queued && d !in w.running))
    ensures W.CanMove(c, w, if recorded then Settlement(d, error) else W.Crash(d))
    ensures var n := Settled(c, w, d, error, recorded);
            && n.led.db == ResultDb(w.led.db, d, error, w.led.clock, recorded)
            && n.entries == w.entries - multiset{d.id} && n.returned == w.returned - multiset{d}
            && n.queued == w.queued && n.running == w.running && n.lingering == w.lingering
  {
    if recorded { DoView(c, w, Settlement(d, error), d.id, Ending(d, error)); } else { AbandonedView(c, w, d); }
  }

  class Consumer {
    const jobs: JobsStore
    var entries: multiset<Uuid>
    var queued: multiset<W.Dispatch>
    var running: multiset<W.Dispatch>
    var returned: multiset<W.Dispatch>
    /** Handler goroutines still alive after their timeout. */
    var lingering: multiset<W.Dispatch>

    constructor (jobs: JobsStore)
      ensures this.jobs == jobs
    {
      this.jobs := jobs;
      entries, queued, running := multiset{}, multiset{}, multiset{};
      returned, lingering := multiset{}, multiset{};
    }

    /** This process and its tables, as world w has them. */
    ghost predicate Shows(w: W.World)
      reads this, jobs
    {
      && w.led.db == jobs.Tables() && w.entries == entries && w.queued == queued && w.running == running
      && w.returned == returned && w.lingering == lingering
    }

    method AckJob(id: Uuid)
      modifies this`entries
      ensures entries == old(entries) - multiset{id}
    {
      entries := entries - multiset{id};
    }

    /** Hand over to the dispatcher's queue; false when the context is cancelled first. */
    method DispatchTask(d: W.Dispatch, open: bool) returns (ok: bool)
      modifies this`queued
      ensures ok == open && queued == if open then old(queued) + multiset{d} else old(queued)
    {
      ok := open;
      if open {
        queued := queued + multiset{d};
      }
    }

    method RecordFailure(id: Uuid, token: Uuid, error: string, now: Time)
      requires jobs.Valid()
      modifies jobs
      ensures jobs.Valid() && jobs.Tables() == Touch(old(jobs.Tables()), id, Fail(token, error), now)
    {
      var failed := jobs.FailOrRetry(id, token, error, now);
    }

    /** Dispatch a job just claimed, or give it back with its backoff. */
    method HandOver(id: Uuid, token: Uuid, now: Time, open: bool, recorded: bool)
      requires jobs.Valid()
      modifies this`queued, this`entries, jobs
      ensures jobs.Valid()
      ensures jobs.Tables() ==
              if open then old(jobs.Tables()) else GivenBack(old(jobs.Tables()), id, token, now, recorded)
      ensures queued == if open then old(queued) + multiset{W.Dispatch(id, token)} else old(queued)
      ensures entries == if open then old(entries) else old(entries) - multiset{id}
    {
      var ok := DispatchTask(W.Dispatch(id, token), open);
      if !ok {
        if recorded {
          RecordFailure(id, token, "dispatch failed", now);
        }
        AckJob(id);
      }
    }

    /** Claim the job of a stream entry and hand it over; a refused claim is acknowledged. */
    method ClaimEntry(id: Uuid, worker: string, token: Uuid, now: Time, open: bool, recorded: bool)
      requires jobs.Valid()
      modifies this`queued, this`entries, jobs
      ensures jobs.Valid()
      ensures Bench(jobs.Tables(), entries, queued) ==
              ProcessEntry(old(Bench(jobs.Tables(), entries, queued)), id, worker, token, now, open, recorded)
    {
      var claimed := jobs.ClaimRunning(id, worker, token, now);
      if claimed.NotClaimable? {
        AckJob(id);
        return;
      }
      if claimed.DatabaseError? {
        return;
      }
      HandOver(id, token, now, open, recorded);
    }

    /** One stream entry: claim, then dispatch. A refused claim is acknowledged; a job that
        cannot be dispatched goes back with its backoff, if the database records that. */
    method ProcessRef(c: Config, ghost w: W.World, id: Uuid, worker: string, token: Uuid, now: Time, open: bool,
                      recorded: bool)
      requires jobs.Valid() && Shows(w) && w.led.clock == now && W.CanMove(c, w, W.Deliver(id, worker, token))
      modifies this`queued, this`entries, jobs
      ensures jobs.Valid() && Shows(Processed(c, w, id, worker, token, open, recorded))
    {
      ProcessedView(c, w, id, worker, token, open, recorded);
      ClaimEntry(id, worker, token, now, open, recorded);
    }

    /** A worker takes a dispatched job and starts its handler. */
    method PickUp(c: Config, ghost w: W.World, d: W.Dispatch)
      requires Shows(w) && d in queued
      modifies this`queued, this`running
      ensures W.CanMove(c, w, W.Start(d)) && Shows(W.Next(c, w, W.Start(d)))
      ensures queued == old(queued) - multiset{d} && running == old(running) + multiset{d}
    {
      queued, running := queued - multiset{d}, running + multiset{d};
    }

    /** While the handler runs, its claim is refreshed. */
    method HeartbeatJob(c: Config, ghost w: W.World, d: W.Dispatch, now: Time)
      requires jobs.Valid() && Shows(w) && w.led.clock == now && d in running
      modifies jobs
      ensures jobs.Valid()
      ensures W.CanMove(c, w, W.Heartbeat(d)) && Shows(W.Next(c, w, W.Heartbeat(d)))
      ensures jobs.rows == if Owns(old(jobs.Tables()), d)
                           then old(jobs.rows)[d.id := old(jobs.rows)[d.id].(heartbeatAt := Some(now))]
                           else old(jobs.rows)
    {
      var beat := jobs.Heartbeat(d.id, d.token, now);
    }

    /** The handler returns. */
    method Returned(c: Config, ghost w: W.World, d: W.Dispatch)
      requires Shows(w) && d in running
      modifies this`running, this`returned
      ensures W.CanMove(c, w, W.Return(d)) && Shows(W.Next(c, w, W.Return(d)))
      ensures running == old(running) - multiset{d} && returned == old(returned) + multiset{d}
    {
      running, returned := running - multiset{d}, returned + multiset{d};
    }

    /** The handler's limit or context is up. A result already delivered counts; else the slot
        counts as returned with an error, but the handler itself may go on until it ends. */
    method TimedOut(c: Config, ghost w: W.World, d: W.Dispatch, delivered: bool)
      requires Shows(w) && d in running
      modifies this`running, this`returned, this`lingering
      ensures var m := if delivered then W.Return(d) else W.TimeOut(d);
              W.CanMove(c, w, m) && Shows(W.Next(c, w, m))
      ensures running == old(running) - multiset{d} && returned == old(returned) + multiset{d}
      ensures lingering == if delivered then old(lingering) else old(lingering) + multiset{d}
    {
      if delivered {
        Returned(c, w, d);
      } else {
        running, returned, lingering := running - multiset{d}, returned + multiset{d}, lingering + multiset{d};
      }
    }

    method LateResultDropped(c: Config, ghost w: W.World, d: W.Dispatch)
      requires Shows(w) && d in lingering
      modifies this`lingering
      ensures W.CanMove(c, w, W.HandlerEnds(d)) && Shows(W.Next(c, w, W.HandlerEnds(d)))
      ensures lingering == old(lingering) - multiset{d}
    {
      lingering := lingering - multiset{d};
    }

    method RecordResult(d: W.Dispatch, error: Option<string>, now: Time, recorded: bool)
      requires jobs.Valid()
      modifies jobs
      ensures jobs.Valid() && jobs.Tables() == ResultDb(old(jobs.Tables()), d, error, now, recorded)
    {
      if !recorded {
        return;
      }
      if error.Some? {
        RecordFailure(d.id, d.token, error.value, now);
      } else {
        var done := jobs.Complete(d.id, d.token, now);
      }
    }

    method RecordAndAck(d: W.Dispatch, error: Option<string>, now: Time, recorded: bool)
      requires jobs.Valid()
      modifies this`returned, this`entries, jobs
      ensures jobs.Valid() && jobs.Tables() == ResultDb(old(jobs.Tables()), d, error, now, recorded)
      ensures returned == old(returned) - multiset{d} && entries == old(entries) - multiset{d.id}
      ensures ResultOutcome(old(jobs.Tables()), jobs.Tables(), d, error, now, recorded)
      ensures recorded && d.id in jobs.rows ==> !HeldBy(jobs.rows[d.id], d.token)
    {
      ResultIsRecorded(jobs.Tables(), d, error, now, recorded);
      EndedClaim(jobs.Tables(), d.id, d.token, Ending(d, error), now);
      RecordResult(d, error, now, recorded);
      returned := returned - multiset{d};
      AckJob(d.id);
    }

    /** Record the result, then acknowledge, even when the claim was lost meanwhile or the
        database refuses. A recorded result completes the job if and only if the handler gave no
        error; once recorded, the claim holds the row no more. */
    method Finish(c: Config, ghost w: W.World, d: W.Dispatch, error: Option<string>, now: Time, recorded: bool)
      requires jobs.Valid() && Shows(w) && w.led.clock == now
      requires d in returned && (recorded || (d !in queued && d !in running))
      modifies this`returned, this`entries, jobs
      ensures jobs.Valid() && Shows(Settled(c, w, d, error, recorded))
      ensures W.CanMove(c, w, if recorded then Settlement(d, error) else W.Crash(d))
      ensures recorded && d.id in jobs.rows ==> !HeldBy(jobs.rows[d.id], d.token)
      ensures ResultOutcome(old(jobs.Tables()), jobs.Tables(), d, error, now, recorded)
      ensures entries == old(entries) - multiset{d.id} && returned == old(returned) - multiset{d}
    {
      SettledView(c, w, d, error, recorded);
      RecordAndAck(d, error, now, recorded);
    }
  }

  /** A worker that dies between recording the result and acknowledging leaves an entry;
      its redelivery changes no table and is acknowledged. */
  lemma RedeliveryIsAbsorbed(c: Config, w: W.World, d: W.Dispatch, worker: string, token: Uuid)
    requires d.id in w.led.db.rows && HeldBy(w.led.db.rows[d.id], d.token) && d in w.returned && d.id in w.entries
    ensures var w1 := W.Next(c, w, W.Complete(d)).(entries := w.entries);
            var m := W.Deliver(d.id, worker, token);
            && W.Next(c, w1, m).led.db == w1.led.db && W.Next(c, w1, m).queued == w1.queued
            && W.Next(c, w1, m).entries == w.entries - multiset{d.id}
  {
    var w1 := W.Next(c, w, W.Complete(d)).(entries := w.entries);
    DoView(c, w, W.Complete(d), d.id, Act.Finish(d.token));
    CompletedInPlace(w.led.db, d.id, d.token, w.led.clock);
    CompletedRefuses(c, w1, d.id, worker, token);
  }

  lemma CompletedInPlace(db: Db, id: Uuid, token: Uuid, now: Time)
    requires id in db.rows && HeldBy(db.rows[id], token)
    ensures var rows := Touch(db, id, Act.Finish(token), now).rows; id in rows && rows[id].status == Completed
  {
  }

  lemma CompletedRefuses(c: Config, w: W.World, id: Uuid, worker: string, token: Uuid)
    requires id in w.led.db.rows && w.led.db.rows[id].status == Completed
    ensures var n := W.Next(c, w, W.Deliver(id, worker, token));
            n.led.db == w.led.db && n.queued == w.queued && n.entries == w.entries - multiset{id}
  {
    DoView(c, w, W.Deliver(id, worker, token), id, Claim(worker, token));
  }
}
