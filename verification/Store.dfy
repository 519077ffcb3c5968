/** The jobs store: one method per transaction, changing the tables in place. Clock
    readings, fresh UUIDs and the row lists that locking SELECTs return are parameters.
    Each method is proved against the ledger's row changes. */
module Store {
  import opened Lifecycle
  import opened Ledger
  import opened Batches

  datatype Outcome<+T> =
    | Ok(value: T)
    | NotClaimable
    | NotRetryable
    | NotCancellable
    | JobExists
    | RetryKeyConflict
    | DatabaseError

  /** The argument of CreateJob; `None` stands for a zero or NULL field. */
  datatype NewJob = NewJob(
    status: Option<Status>, kind: string, payload: Option<string>, queue: string, priority: int,
    attempts: int, maxRetry: int, key: Option<string>, owner: Option<Uuid>, cron: Option<string>,
    tz: Option<string>, series: Option<Uuid>, recurring: bool, scheduledAt: Option<Time>,
    notBefore: Option<Time>, createdAt: Option<Time>)

  function Normalised(j: NewJob, now: Time): Row {
    Row(if j.status.Some? then j.status.value else Pending,
        j.kind, j.payload, j.queue, j.priority, j.attempts,
        if j.maxRetry == 0 then 3 else j.maxRetry,
        None, None, j.key, j.owner, j.cron,
        if j.tz.Some? && j.tz.value != "" then j.tz.value else "UTC",
        j.series, j.recurring, j.scheduledAt, j.notBefore,
        if j.createdAt.Some? then j.createdAt.value else now,
        None, None, None, None)
  }

  /** A row together with its job_id, as the batch transactions return it. */
  datatype Job = Job(id: Uuid, row: Row)

  /** The jobs behind a list of ids. */
  function JobsOf(rows: map<Uuid, Row>, ids: seq<Uuid>): seq<Job>
    requires forall i | 0 <= i < |ids| :: ids[i] in rows
  {
    seq(|ids|, i requires 0 <= i < |ids| => Job(ids[i], rows[ids[i]]))
  }

  function PromotedJobs(rows: map<Uuid, Row>, ids: seq<Uuid>): seq<Job>
    requires forall i | 0 <= i < |ids| :: ids[i] in rows
  {
    seq(|ids|, i requires 0 <= i < |ids| => Job(ids[i], Promoted(rows[ids[i]])))
  }

  function MaturedJobs(rows: map<Uuid, Row>, ids: seq<Uuid>): seq<Job>
    requires forall i | 0 <= i < |ids| :: ids[i] in rows
  {
    seq(|ids|, i requires 0 <= i < |ids| => Job(ids[i], Ungated(rows[ids[i]])))
  }

  function OrphanedJobs(rows: map<Uuid, Row>, ids: seq<Uuid>): seq<Job>
    requires forall i | 0 <= i < |ids| :: ids[i] in rows
  {
    seq(|ids|, i requires 0 <= i < |ids| => Job(ids[i], Orphaned(rows[ids[i]])))
  }

  class JobsStore {
    var rows: map<Uuid, Row>
    var events: seq<Event>
    var keys: map<string, Uuid>
    var retryKeys: map<string, Uuid>

    ghost predicate Valid()
      reads this
    {
      KeysAgree(Tables())
    }

    function Tables(): Db
      reads this
    {
      Db(rows, events, keys)
    }

    constructor ()
      ensures Valid() && Tables() == Db(map[], [], map[]) && retryKeys == map[]
    {
      rows, events, keys, retryKeys := map[], [], map[], map[];
    }

    /** Insert under a fresh id, unless another live job carries the idempotency key. */
    method CreateJob(id: Uuid, input: NewJob, now: Time) returns (r: Outcome<Row>)
      requires Valid() && id !in rows
      modifies this
      ensures Valid() && retryKeys == old(retryKeys)
      ensures r.Ok? || r.JobExists?
      ensures r.Ok? ==> rows == old(rows)[id := r.value] && r.value == Normalised(input, now)
      ensures !r.Ok? ==> Tables() == old(Tables())
      ensures input.key.Some? && input.key.value != "" ==>
                (r.JobExists? <==> exists j | j in old(rows) :: old(rows)[j].key == input.key)
      ensures input.key == None ==> r.Ok?
      ensures input.key != Some("") && NewRow(Normalised(input, now), now) ==>
                Tables() == Touch(old(Tables()), id, Create(Normalised(input, now)), now)
    {
      var row := Normalised(input, now);
      InsertView(Tables(), id, row, now);
      if row.key.Some? && exists j | j in rows :: rows[j].key == row.key && rows[j].createdAt == row.createdAt {
        return JobExists;
      }
      if row.key.Some? && row.key.value != "" {
        if row.key.value in keys {
          return JobExists;
        }
        keys := keys[row.key.value := id];
      }
      rows := rows[id := row];
      events := events + [Event(id, None, row.status, now)];
      return Ok(row);
    }

    method ClaimRunning(id: Uuid, worker: string, token: Uuid, now: Time) returns (r: Outcome<Row>)
      requires Valid()
      modifies this
      ensures Valid() && retryKeys == old(retryKeys)
      ensures Tables() == Touch(old(Tables()), id, Claim(worker, token), now)
      ensures r.NotClaimable? <==>
                id !in old(rows) || !Claimable(old(rows)[id].status) || !GateOpen(old(rows)[id], now)
      ensures r.Ok? <==> Applies(old(Tables()), id, Claim(worker, token), now)
      ensures r.Ok? ==> id in rows && r.value == rows[id] && HeldBy(rows[id], token)
      ensures r.Ok? ==>
                rows == old(rows)[id := r.value] && var job := old(rows)[id];
                r.value == job.(status := Running, worker := Some(worker), token := Some(token),
                                heartbeatAt := Some(now),
                                startedAt := if job.startedAt.Some? then job.startedAt else Some(now),
                                notBefore := None, attempts := job.attempts + 1)
      ensures r.Ok? || r.NotClaimable? || r.DatabaseError?
    {
      ghost var before := Tables();
      if id !in rows {
        return NotClaimable;
      }
      var job := rows[id];
      if !(job.status == Pending || job.status == Queued || job.status == Scheduled) {
        return NotClaimable;
      }
      if job.notBefore.Some? && job.notBefore.value > now {
        return NotClaimable;
      }
      if job.attempts >= MAX_SMALLINT {
        return DatabaseError;
      }
      var started := if job.startedAt.Some? then job.startedAt else Some(now);
      var claimed := job.(status := Running, worker := Some(worker), token := Some(token), startedAt := started,
                          heartbeatAt := Some(now), notBefore := None, attempts := job.attempts + 1);
      rows := rows[id := claimed];
      events := events + [Event(id, Some(job.status), Running, now)];
      TouchKeepsKeys(before, id, Claim(worker, token), now);
      return Ok(claimed);
    }

    method Heartbeat(id: Uuid, token: Uuid, now: Time) returns (r: Outcome<()>)
      requires Valid()
      modifies this
      ensures Valid() && retryKeys == old(retryKeys)
      ensures Tables() == Touch(old(Tables()), id, Beat(token), now)
      ensures r == if id in old(rows) && HeldBy(old(rows)[id], token) then Ok(()) else NotClaimable
      ensures rows == if r.Ok? then old(rows)[id := old(rows)[id].(heartbeatAt := Some(now))] else old(rows)
    {
      ghost var before := Tables();
      if id !in rows || rows[id].token != Some(token) || rows[id].status != Running {
        return NotClaimable;
      }
      rows := rows[id := rows[id].(heartbeatAt := Some(now))];
      TouchKeepsKeys(before, id, Beat(token), now);
      return Ok(());
    }

    method Complete(id: Uuid, token: Uuid, now: Time) returns (r: Outcome<()>)
      requires Valid()
      modifies this
      ensures Valid() && retryKeys == old(retryKeys)
      ensures Tables() == Touch(old(Tables()), id, Finish(token), now)
      ensures r == if id in old(rows) && HeldBy(old(rows)[id], token) then Ok(()) else NotClaimable
      ensures rows == if r.Ok? then old(rows)[id := old(rows)[id].(status := Completed, completedAt := Some(now))]
                      else old(rows)
    {
      ghost var before := Tables();
      if id !in rows {
        return NotClaimable;
      }
      var job := rows[id];
      if job.status != Running || job.token == None || job.token.value != token {
        return NotClaimable;
      }
      rows := rows[id := job.(status := Completed, completedAt := Some(now))];
      events := events + [Event(id, Some(Running), Completed, now)];
      TouchKeepsKeys(before, id, Finish(token), now);
      return Ok(());
    }

    method FailOrRetry(id: Uuid, token: Uuid, error: string, now: Time) returns (r: Outcome<Row>)
      requires Valid()
      modifies this
      ensures Valid() && retryKeys == old(retryKeys)
      ensures Tables() == Touch(old(Tables()), id, Fail(token, error), now)
      ensures r.Ok? <==> id in old(rows) && HeldBy(old(rows)[id], token)
      ensures r.Ok? || r.NotClaimable?
      ensures r.Ok? ==> id in rows && r.value == rows[id] && r.value.token == None
      ensures r.Ok? ==> (r.value.status == Failed <==> old(rows)[id].attempts >= old(rows)[id].maxRetry)
      ensures r.Ok? && r.value.status != Failed ==>
                r.value.status == Pending && r.value.notBefore == Some(now + RetryBackoff(old(rows)[id].attempts))
      ensures r.Ok? && r.value.status == Failed ==> r.value.completedAt == Some(now) && r.value.notBefore == None
      ensures r.Ok? ==> r.value.lastError == (if error == "" then None else Some(error)) &&
                        rows == old(rows)[id := r.value]
    {
      if id !in rows {
        return NotClaimable;
      }
      var job := rows[id];
      if job.status != Running || job.token == None || job.token.value != token {
        return NotClaimable;
      }
      FailView(Tables(), id, token, error, now);
      var next := Pending;
      if job.attempts >= job.maxRetry {
        next := Failed;
      }
      var gate: Option<Time> := None;
      if next == Pending {
        gate := Some(now + RetryBackoff(job.attempts));
      }
      var out := job.(status := next, token := None, lastError := if error != "" then Some(error) else None,
                      notBefore := gate);
      if next == Failed {
        out := out.(completedAt := Some(now));
      }
      assert out == AfterFail(job, error, now);
      rows := rows[id := out];
      events := events + [Event(id, Some(Running), next, now)];
      return Ok(out);
    }

    /** Promote a batch of due rows; each recurring one schedules its follow-up in the same
        transaction. `ids` is what the locking SELECT returned, `kids` are fresh ids. */
    method ClaimDueScheduled(c: Config, now: Time, limit: int, at: Time, ghost locked: set<Uuid>,
                             ids: seq<Uuid>, kids: seq<Uuid>) returns (out: seq<Job>)
      requires Valid() && now <= at && |kids| == |ids| && FreshKids(rows, kids)
      requires Selects(rows, DueAt(now), ByScheduled(), locked, ClampBatch(limit), ids)
      requires forall id | id in rows :: Fertile(rows[id])
      modifies this`rows, this`events
      ensures Valid()
      ensures Tables() == FireAll(c, old(Tables()), ids, now, kids, at)
      ensures (forall i | 0 <= i < |ids| :: ids[i] in old(rows)) && out == PromotedJobs(old(rows), ids)
    {
      ghost var before := Tables();
      assert Fireable(before.rows, ids, now) && forall k | 0 <= k < |ids| :: Fertile(before.rows[ids[k]]) by {
        SelectedAreDue(before.rows, now, locked, ClampBatch(limit), ids);
      }
      ghost var jobs := PromotedJobs(rows, ids);
      out := [];
      var i := 0;
      while i < |ids|
        invariant 0 <= i <= |ids|
        invariant Tables() == FireAll(c, before, ids[..i], now, kids[..i], at)
        invariant out == jobs[..i]
      {
        FireNext(c, before, ids, i, now, kids, at);
        assert jobs[i] == Job(ids[i], Promoted(rows[ids[i]]));
        if rows[ids[i]].status == Scheduled {
          var job := PromoteOne(c, ids[i], now, kids[i], at);
          out := out + [Job(ids[i], job)];
        }
        TakeOneMore(jobs, i);
        i := i + 1;
      }
      assert ids[..|ids|] == ids && kids[..|ids|] == kids;
      FireAllKeys(c, before, ids, now, kids, at);
    }

    /** One row of the batch: its UPDATE, its event and its follow-up. */
    method PromoteOne(c: Config, id: Uuid, now: Time, child: Uuid, at: Time) returns (job: Row)
      requires id in rows && rows[id].status == Scheduled
      modifies this`rows, this`events
      ensures job == Promoted(old(rows)[id]) && Tables() == PromotedDb(c, old(Tables()), id, now, child, at)
    {
      job := Promoted(rows[id]);
      rows := rows[id := job];
      events := events + [Event(id, Some(Scheduled), Pending, at)];
      ScheduleFollowup(c, job, now, child, at);
    }

    /** Queue the next occurrence of a recurring series member, if it has one. */
    method ScheduleFollowup(c: Config, parent: Row, now: Time, child: Uuid, at: Time)
      modifies this`rows, this`events
      ensures var f := Followup(c, parent, now);
              if f == None then rows == old(rows) && events == old(events)
              else rows == old(rows)[child := f.value] &&
                   events == old(events) + [Event(child, None, Scheduled, at)]
      ensures var zone := if parent.tz == "" then "UTC" else parent.tz;
              if parent.recurring && parent.cron.Some? && parent.cron.value != "" && parent.series.Some? &&
                 c.next(parent.cron.value, zone, now).Some?
              then child in rows && rows[child] ==
                   parent.(status := Scheduled, attempts := 0, key := None, tz := zone, createdAt := now,
                           scheduledAt := c.next(parent.cron.value, zone, now), notBefore := None, worker := None,
                           token := None, startedAt := None, completedAt := None, heartbeatAt := None,
                           lastError := None)
              else rows == old(rows)
    {
      if !parent.recurring || parent.cron == None || parent.cron.value == "" {
        return;
      }
      if parent.series == None {
        return;
      }
      var tz := "UTC";
      if parent.tz != "" {
        tz := parent.tz;
      }
      var next := c.next(parent.cron.value, tz, now);
      if next == None {
        return;
      }
      rows := rows[child := FollowupRow(parent, next.value, now)];
      events := events + [Event(child, None, Scheduled, at)];
    }

    /** Open the gate of matured retries. */
    method ClaimDueRetries(now: Time, limit: int, at: Time, ghost locked: set<Uuid>, ids: seq<Uuid>)
      returns (out: seq<Job>)
      requires Valid() && now <= at
      requires Selects(rows, MaturedAt(now), ByGate(), locked, ClampBatch(limit), ids)
      modifies this`rows
      ensures Valid()
      ensures Tables() == TouchAll(old(Tables()), ids, Mature(now), at)
      ensures (forall i | 0 <= i < |ids| :: ids[i] in old(rows)) && out == MaturedJobs(old(rows), ids)
    {
      ghost var before := Tables();
      SelectedAreMatured(rows, now, at, locked, ClampBatch(limit), ids);
      ghost var jobs := MaturedJobs(rows, ids);
      out := [];
      var i := 0;
      while i < |ids|
        invariant 0 <= i <= |ids|
        invariant Tables() == TouchAll(before, ids[..i], Mature(now), at)
        invariant out == jobs[..i]
      {
        ghost var mid := Tables();
        NextInBatch(before, ids, i, Mature(now), at);
        MatureTouch(mid, ids[i], now, at);
        if rows[ids[i]].status == Pending || rows[ids[i]].status == Queued {
          var job := Ungated(rows[ids[i]]);
          rows := rows[ids[i] := job];
          out := out + [Job(ids[i], job)];
        }
        TakeOneMore(jobs, i);
        i := i + 1;
      }
      assert ids[..|ids|] == ids;
      TouchAllKeys(before, ids, Mature(now), at);
    }

    /** The pending jobs created before a cutoff whose gate is open, oldest first. The rows
        come from a read replica, so they may be out of date. */
    method ListStalePending(replica: map<Uuid, Row>, olderThan: Time, limit: nat, at: Time, ids: seq<Uuid>)
      returns (out: seq<Job>)
      requires Selects(replica, StalePendingAt(olderThan, at), ByCreated(), {}, limit, ids)
      ensures out == JobsOf(replica, ids)
      ensures |out| == |ids| && forall i | 0 <= i < |ids| :: out[i] == Job(ids[i], replica[ids[i]])
    {
      out := [];
      for i := 0 to |ids|
        invariant |out| == i && forall j | 0 <= j < i :: out[j] == Job(ids[j], replica[ids[j]])
      {
        out := out + [Job(ids[i], replica[ids[i]])];
      }
    }

    /** Take running rows with an old heartbeat back to pending. */
    method ClaimStaleRunning(staleBefore: Time, limit: int, at: Time, ghost locked: set<Uuid>, ids: seq<Uuid>)
      returns (out: seq<Job>)
      requires Valid()
      requires Selects(rows, StaleAt(staleBefore), ByHeartbeat(), locked, ClampBatch(limit), ids)
      modifies this`rows, this`events
      ensures Valid()
      ensures Tables() == TouchAll(old(Tables()), ids, Reclaim(staleBefore), at)
      ensures (forall i | 0 <= i < |ids| :: ids[i] in old(rows)) && out == OrphanedJobs(old(rows), ids)
    {
      ghost var before := Tables();
      SelectedAreStale(rows, staleBefore, at, locked, ClampBatch(limit), ids);
      ghost var jobs := OrphanedJobs(rows, ids);
      out := [];
      var i := 0;
      while i < |ids|
        invariant 0 <= i <= |ids|
        invariant Tables() == TouchAll(before, ids[..i], Reclaim(staleBefore), at)
        invariant out == jobs[..i]
      {
        ghost var mid := Tables();
        NextInBatch(before, ids, i, Reclaim(staleBefore), at);
        ReclaimTouch(mid, ids[i], staleBefore, at);
        if rows[ids[i]].status == Running {
          var job := Orphaned(rows[ids[i]]);
          rows := rows[ids[i] := job];
          events := events + [Event(ids[i], Some(Running), Pending, at)];
          out := out + [Job(ids[i], job)];
        }
        TakeOneMore(jobs, i);
        i := i + 1;
      }
      assert ids[..|ids|] == ids;
      TouchAllKeys(before, ids, Reclaim(staleBefore), at);
    }

    method RetryJob(id: Uuid, now: Time) returns (r: Outcome<Row>)
      requires Valid()
      modifies this
      ensures Valid() && retryKeys == old(retryKeys)
      ensures Tables() == Touch(old(Tables()), id, Replay, now)
      ensures r.Ok? <==> id in old(rows) && old(rows)[id].status == Failed
      ensures r.Ok? || r.NotRetryable?
      ensures r.Ok? ==> id in rows && r.value == rows[id] && r.value.status == Pending && r.value.attempts == 0
      ensures r.Ok? ==>
                rows == old(rows)[id := r.value] &&
                r.value == old(rows)[id].(status := Pending, attempts := 0, token := None, worker := None,
                                          lastError := None, notBefore := None, completedAt := None)
    {
      ghost var before := Tables();
      if id !in rows || rows[id].status != Failed {
        return NotRetryable;
      }
      var out := rows[id].(status := Pending, attempts := 0, token := None, worker := None,
                           lastError := None, notBefore := None, completedAt := None);
      rows := rows[id := out];
      events := events + [Event(id, Some(Failed), Pending, now)];
      TouchKeepsKeys(before, id, Replay, now);
      return Ok(out);
    }

    method CancelJob(id: Uuid, now: Time) returns (r: Outcome<Row>)
      requires Valid()
      modifies this
      ensures Valid() && retryKeys == old(retryKeys)
      ensures Tables() == Touch(old(Tables()), id, Cancel, now)
      ensures r.Ok? <==> id in old(rows) && Claimable(old(rows)[id].status)
      ensures r.Ok? || r.NotCancellable?
      ensures r.Ok? ==> id in rows && r.value == rows[id] && r.value.status == Cancelled
      ensures r.Ok? ==> rows == old(rows)[id := r.value] &&
                        r.value == old(rows)[id].(status := Cancelled, completedAt := Some(now))
    {
      ghost var before := Tables();
      if id !in rows {
        return NotCancellable;
      }
      var status := rows[id].status;
      if status != Scheduled && status != Pending && status != Queued {
        return NotCancellable;
      }
      var out := rows[id].(status := Cancelled, completedAt := Some(now));
      rows := rows[id := out];
      events := events + [Event(id, Some(status), Cancelled, now)];
      TouchKeepsKeys(before, id, Cancel, now);
      return Ok(out);
    }

    /** Cancel every not-yet-running member that no other transaction holds. */
    method CancelSeries(series: Uuid, owner: Option<Uuid>, at: Time, ghost locked: set<Uuid>, ids: seq<Uuid>)
      returns (n: nat)
      requires Valid()
      requires Selects(rows, CancellableIn(series, owner), ByScheduled(), locked, |ids|, ids)
      requires forall id | id in rows && id !in locked && CancellableIn(series, owner)(rows[id]) :: id in ids
      modifies this`rows, this`events
      ensures Valid()
      ensures Tables() == TouchAll(old(Tables()), ids, Cancel, at) && n == |ids|
      ensures forall id :: id in rows && CancellableIn(series, owner)(rows[id]) <==>
                           id in locked && id in old(rows) && CancellableIn(series, owner)(old(rows)[id])
    {
      ghost var before := Tables();
      SelectedAreCancellable(rows, series, owner, at, locked, ids);
      // The statuses in the events are those the SELECT returned, read before the loop.
      var selected := rows;
      n := 0;
      var i := 0;
      while i < |ids|
        invariant 0 <= i <= |ids| && n == i
        invariant Tables() == TouchAll(before, ids[..i], Cancel, at)
      {
        CancelNext(before, ids, i, at);
        if Claimable(rows[ids[i]].status) {
          rows := rows[ids[i] := rows[ids[i]].(status := Cancelled, completedAt := Some(at))];
          events := events + [Event(ids[i], Some(selected[ids[i]].status), Cancelled, at)];
          n := n + 1;
        }
        i := i + 1;
      }
      assert ids[..|ids|] == ids;
      LockedAreLeft(before, series, owner, at, locked, ids);
      TouchAllKeys(before, ids, Cancel, at);
    }

    /** Delete up to limit expired rows, then up to limit keys whose job is gone. Because
        the index agreed before, this leaves exactly the keys of the remaining rows. */
    method DeleteOldJobs(before: Time, limit: int, at: Time, ids: seq<Uuid>, orphans: set<string>) returns (n: nat)
      requires Valid()
      requires Selects(rows, ExpiredAt(before), ByCompleted(), {}, ClampPurge(limit), ids)
      requires var dangling := Dangling(Tables(), ids);
               orphans <= dangling && |orphans| <= ClampPurge(limit) &&
               (|orphans| < ClampPurge(limit) ==> orphans == dangling)
      modifies this
      ensures Valid() && retryKeys == old(retryKeys)
      ensures Tables() == TouchAll(old(Tables()), ids, Purge(before), at) && n == |ids|
      ensures rows == old(rows) - Elements(ids)
    {
      SelectedAreExpired(rows, before, at, ClampPurge(limit), ids);
      PurgeView(Tables(), before, at, ClampPurge(limit), ids, orphans);
      rows := rows - Elements(ids);
      keys := keys - orphans;
      n := |ids|;
    }

    /** First use binds the key to the job; a replay of the pair is a duplicate; the same
        key for another job is a conflict. */
    method RecordRetryKey(key: string, id: Uuid) returns (r: Outcome<bool>)
      modifies this`retryKeys
      ensures key == "" ==> r == Ok(false) && retryKeys == old(retryKeys)
      ensures key != "" && key !in old(retryKeys) ==> r == Ok(false) && retryKeys == old(retryKeys)[key := id]
      ensures key != "" && key in old(retryKeys) ==>
                retryKeys == old(retryKeys) && r == if old(retryKeys)[key] == id then Ok(true) else RetryKeyConflict
    {
      if key == "" {
        return Ok(false);
      }
      if key !in retryKeys {
        retryKeys := retryKeys[key := id];
        return Ok(false);
      }
      if retryKeys[key] != id {
        return RetryKeyConflict;
      }
      return Ok(true);
    }
  }

  lemma TakeOneMore<T>(s: seq<T>, i: nat)
    requires i < |s|
    ensures s[..i + 1] == s[..i] + [s[i]]
  {
  }

  /** What an insert finds in the key index and leaves there. */
  lemma InsertView(db: Db, id: Uuid, row: Row, now: Time)
    requires KeysAgree(db) && id !in db.rows
    ensures HasKey(row) ==> (row.key.value in db.keys <==> exists j | j in db.rows :: db.rows[j].key == row.key)
    ensures var keys' := if HasKey(row) then db.keys[row.key.value := id] else db.keys;
            var inserted := Db(db.rows[id := row], db.events + [Event(id, None, row.status, now)], keys');
            && (!(HasKey(row) && row.key.value in db.keys) ==> KeysAgree(inserted))
            && (NewRow(row, now) ==>
                  Touch(db, id, Create(row), now) == if HasKey(row) && row.key.value in db.keys then db else inserted)
  {
    if HasKey(row) && row.key.value in db.keys { assert db.rows[db.keys[row.key.value]].key == row.key; }
  }

  /** What a holder's failure writes. */
  lemma FailView(db: Db, id: Uuid, token: Uuid, error: string, now: Time)
    requires KeysAgree(db) && id in db.rows && HeldBy(db.rows[id], token)
    ensures var out := AfterFail(db.rows[id], error, now);
            var failed := Db(db.rows[id := out], db.events + [Event(id, Some(Running), out.status, now)], db.keys);
            Touch(db, id, Fail(token, error), now) == failed && KeysAgree(failed)
  {
    TouchKeepsKeys(db, id, Fail(token, error), now);
  }

  lemma SelectedAreDue(rows: map<Uuid, Row>, now: Time, locked: set<Uuid>, limit: nat, ids: seq<Uuid>)
    requires Selects(rows, DueAt(now), ByScheduled(), locked, limit, ids)
    ensures Fireable(rows, ids, now)
  {
  }

  lemma SelectedAreMatured(rows: map<Uuid, Row>, now: Time, at: Time, locked: set<Uuid>, limit: nat, ids: seq<Uuid>)
    requires Selects(rows, MaturedAt(now), ByGate(), locked, limit, ids) && now <= at
    ensures Distinct(ids) && forall id | id in ids :: Guard(Find(rows, id), Mature(now), at)
  {
  }

  lemma SelectedAreStale(rows: map<Uuid, Row>, cutoff: Time, at: Time, locked: set<Uuid>, limit: nat, ids: seq<Uuid>)
    requires Selects(rows, StaleAt(cutoff), ByHeartbeat(), locked, limit, ids)
    ensures Distinct(ids) && forall id | id in ids :: Guard(Find(rows, id), Reclaim(cutoff), at)
  {
  }

  lemma SelectedAreExpired(rows: map<Uuid, Row>, before: Time, at: Time, limit: nat, ids: seq<Uuid>)
    requires Selects(rows, ExpiredAt(before), ByCompleted(), {}, limit, ids)
    ensures |ids| <= limit && Distinct(ids) && forall id | id in ids :: Guard(Find(rows, id), Purge(before), at)
  {
  }

  lemma SelectedAreCancellable(rows: map<Uuid, Row>, series: Uuid, owner: Option<Uuid>, at: Time,
                               locked: set<Uuid>, ids: seq<Uuid>)
    requires Selects(rows, CancellableIn(series, owner), ByScheduled(), locked, |ids|, ids)
    ensures Distinct(ids) && forall id | id in ids :: Guard(Find(rows, id), Cancel, at)
  {
  }

  /** What cancelling a series does to each row, in its columns: a not-yet-running member of the
      caller's that nobody has locked is cancelled now, and every other row is left alone. */
  lemma CancelledRow(db: Db, series: Uuid, owner: Option<Uuid>, at: Time, locked: set<Uuid>, ids: seq<Uuid>, id: Uuid)
    requires Selects(db.rows, CancellableIn(series, owner), ByScheduled(), locked, |ids|, ids)
    requires forall j | j in db.rows && j !in locked && CancellableIn(series, owner)(db.rows[j]) :: j in ids
    ensures var rows := TouchAll(db, ids, Cancel, at).rows;
            if id in db.rows && id !in locked && IsMember(db.rows[id], series, owner)
            then Find(rows, id) == Some(db.rows[id].(status := Cancelled, completedAt := Some(at)))
            else Find(rows, id) == Find(db.rows, id)
  {
    SelectedAreCancellable(db.rows, series, owner, at, locked, ids);
    TouchAllRow(db, ids, Cancel, at, id);
    if id in db.rows { MembersSelected(db.rows, series, owner, id); }
  }

  function Ungated(r: Row): Row { r.(notBefore := None) }

  function Orphaned(r: Row): Row { r.(status := Pending, worker := None, token := None) }

  /** The jobs a promotion returns are the rows its transaction left. */
  lemma PromotedAsStored(c: Config, db: Db, ids: seq<Uuid>, now: Time, kids: seq<Uuid>, at: Time)
    requires |kids| == |ids| && Fireable(db.rows, ids, now) && FreshKids(db.rows, kids) && now <= at
    requires forall i | 0 <= i < |ids| :: Fertile(db.rows[ids[i]])
    ensures var out, rows := PromotedJobs(db.rows, ids), FireAll(c, db, ids, now, kids, at).rows;
            |out| == |ids| && forall i | 0 <= i < |ids| :: out[i].id == ids[i] && Find(rows, ids[i]) == Some(out[i].row)
  {
    FireAllRows(c, db, ids, now, kids, at);
  }

  lemma MaturedAsStored(db: Db, ids: seq<Uuid>, now: Time, at: Time)
    requires Distinct(ids) && forall id | id in ids :: Guard(Find(db.rows, id), Mature(now), at)
    ensures forall i | 0 <= i < |ids| :: ids[i] in db.rows
    ensures var out, rows := MaturedJobs(db.rows, ids), TouchAll(db, ids, Mature(now), at).rows;
            |out| == |ids| && forall i | 0 <= i < |ids| :: out[i].id == ids[i] && Find(rows, ids[i]) == Some(out[i].row)
  {
    forall i | 0 <= i < |ids| ensures ids[i] in db.rows { assert Guard(Find(db.rows, ids[i]), Mature(now), at); }
    var out, rows := MaturedJobs(db.rows, ids), TouchAll(db, ids, Mature(now), at).rows;
    forall i | 0 <= i < |ids| ensures Find(rows, ids[i]) == Some(out[i].row) {
      TouchAllRow(db, ids, Mature(now), at, ids[i]);
    }
  }

  lemma OrphanedAsStored(db: Db, ids: seq<Uuid>, cutoff: Time, at: Time)
    requires Distinct(ids) && forall id | id in ids :: Guard(Find(db.rows, id), Reclaim(cutoff), at)
    ensures forall i | 0 <= i < |ids| :: ids[i] in db.rows
    ensures var out, rows := OrphanedJobs(db.rows, ids), TouchAll(db, ids, Reclaim(cutoff), at).rows;
            |out| == |ids| && forall i | 0 <= i < |ids| :: out[i].id == ids[i] && Find(rows, ids[i]) == Some(out[i].row)
  {
    forall i | 0 <= i < |ids| ensures ids[i] in db.rows { assert Guard(Find(db.rows, ids[i]), Reclaim(cutoff), at); }
    var out, rows := OrphanedJobs(db.rows, ids), TouchAll(db, ids, Reclaim(cutoff), at).rows;
    forall i | 0 <= i < |ids| ensures Find(rows, ids[i]) == Some(out[i].row) {
      TouchAllRow(db, ids, Reclaim(cutoff), at, ids[i]);
    }
  }

  lemma MatureTouch(db: Db, id: Uuid, now: Time, at: Time)
    requires Guard(Find(db.rows, id), Mature(now), at)
    ensures Touch(db, id, Mature(now), at) == Db(db.rows[id := Ungated(db.rows[id])], db.events, db.keys)
    ensures db.rows[id].status == Pending || db.rows[id].status == Queued
  {
  }

  lemma ReclaimTouch(db: Db, id: Uuid, cutoff: Time, at: Time)
    requires Guard(Find(db.rows, id), Reclaim(cutoff), at)
    ensures Touch(db, id, Reclaim(cutoff), at) ==
            Db(db.rows[id := Orphaned(db.rows[id])], db.events + [Event(id, Some(Running), Pending, at)], db.keys)
    ensures db.rows[id].status == Running
  {
  }

  lemma CancelTouch(db: Db, id: Uuid, at: Time)
    requires Guard(Find(db.rows, id), Cancel, at)
    ensures Touch(db, id, Cancel, at) ==
            Db(db.rows[id := db.rows[id].(status := Cancelled, completedAt := Some(at))],
               db.events + [Event(id, Some(db.rows[id].status), Cancelled, at)], db.keys)
    ensures Claimable(db.rows[id].status)
  {
  }

  /** After cancelling the selected members, the cancellable ones are those that were locked. */
  lemma LockedAreLeft(db: Db, series: Uuid, owner: Option<Uuid>, at: Time, locked: set<Uuid>, ids: seq<Uuid>)
    requires Distinct(ids) && forall id | id in ids :: Guard(Find(db.rows, id), Cancel, at) && id !in locked
    requires forall id | id in db.rows && id !in locked && CancellableIn(series, owner)(db.rows[id]) :: id in ids
    ensures var rows := TouchAll(db, ids, Cancel, at).rows;
            forall id :: id in rows && CancellableIn(series, owner)(rows[id]) <==>
                         id in locked && id in db.rows && CancellableIn(series, owner)(db.rows[id])
  {
    var rows := TouchAll(db, ids, Cancel, at).rows;
    forall id
      ensures id in rows && CancellableIn(series, owner)(rows[id]) <==>
              id in locked && id in db.rows && CancellableIn(series, owner)(db.rows[id])
    {
      TouchAllRow(db, ids, Cancel, at, id);
    }
  }

  /** In a batch, the row about to be updated is still as it was selected. */
  lemma NextInBatch(before: Db, ids: seq<Uuid>, i: nat, act: Act, at: Time)
    requires i < |ids| && Distinct(ids) && !act.Create?
    requires forall id | id in ids :: Guard(Find(before.rows, id), act, at)
    ensures var mid := TouchAll(before, ids[..i], act, at);
            && Find(mid.rows, ids[i]) == Find(before.rows, ids[i]) && Guard(Find(mid.rows, ids[i]), act, at)
            && TouchAll(before, ids[..i + 1], act, at) == Touch(mid, ids[i], act, at)
  {
    assert ids[i] !in ids[..i] && ids[i] in ids;
    assert forall id | id in ids[..i] :: id in ids;
    TouchAllRow(before, ids[..i], act, at, ids[i]);
    assert ids[..i + 1][..i] == ids[..i];
  }

  /** What cancelling the next row of a batch writes. */
  lemma CancelNext(before: Db, ids: seq<Uuid>, i: nat, at: Time)
    requires i < |ids| && Distinct(ids) && forall id | id in ids :: Guard(Find(before.rows, id), Cancel, at)
    ensures var mid, id := TouchAll(before, ids[..i], Cancel, at), ids[i];
            && id in before.rows && id in mid.rows && mid.rows[id] == before.rows[id] && Claimable(mid.rows[id].status)
            && TouchAll(before, ids[..i + 1], Cancel, at) ==
               Db(mid.rows[id := mid.rows[id].(status := Cancelled, completedAt := Some(at))],
                  mid.events + [Event(id, Some(before.rows[id].status), Cancelled, at)], mid.keys)
  {
    NextInBatch(before, ids, i, Cancel, at);
    CancelTouch(TouchAll(before, ids[..i], Cancel, at), ids[i], at);
  }

  /** The tables after promoting a scheduled row and inserting its follow-up. */
  function PromotedDb(c: Config, db: Db, id: Uuid, now: Time, child: Uuid, at: Time): Db
    requires id in db.rows
  {
    var job := Promoted(db.rows[id]);
    var promoted := Db(db.rows[id := job], db.events + [Event(id, Some(Scheduled), Pending, at)], db.keys);
    var f := Followup(c, job, now);
    if f == None then promoted
    else Db(promoted.rows[child := f.value], promoted.events + [Event(child, None, Scheduled, at)], db.keys)
  }

  lemma PromoteTouch(c: Config, db: Db, id: Uuid, now: Time, child: Uuid, at: Time)
    requires id in db.rows && DueAt(now)(db.rows[id]) && now <= at && child !in db.rows && Fertile(db.rows[id])
    ensures FireDb(c, db, id, now, child, at) == PromotedDb(c, db, id, now, child, at)
  {
  }

  /** While firing a batch, the row and the child about to be used are still as at the start. */
  lemma NextToFire(c: Config, before: Db, ids: seq<Uuid>, i: nat, now: Time, kids: seq<Uuid>, at: Time)
    requires |kids| == |ids| && i < |ids| && Fireable(before.rows, ids, now) && FreshKids(before.rows, kids)
    requires now <= at
    requires forall k | 0 <= k < |ids| :: Fertile(before.rows[ids[k]])
    ensures var mid := FireAll(c, before, ids[..i], now, kids[..i], at);
            && Find(mid.rows, ids[i]) == Some(before.rows[ids[i]]) && kids[i] !in mid.rows
            && FireAll(c, before, ids[..i + 1], now, kids[..i + 1], at) == FireDb(c, mid, ids[i], now, kids[i], at)
  {
    FireAllRows(c, before, ids[..i], now, kids[..i], at);
    assert ids[i] !in ids[..i] && ids[i] !in kids[..i] && kids[i] !in ids[..i] && kids[i] !in kids[..i];
    assert ids[..i + 1][..i] == ids[..i] && kids[..i + 1][..i] == kids[..i];
    var mid := FireAll(c, before, ids[..i], now, kids[..i], at);
    assert Find(mid.rows, kids[i]) == Find(before.rows, kids[i]);
  }

  /** What firing the next row of a batch writes. */
  lemma FireNext(c: Config, before: Db, ids: seq<Uuid>, i: nat, now: Time, kids: seq<Uuid>, at: Time)
    requires |kids| == |ids| && i < |ids| && Fireable(before.rows, ids, now) && FreshKids(before.rows, kids)
    requires now <= at
    requires forall k | 0 <= k < |ids| :: Fertile(before.rows[ids[k]])
    ensures var mid := FireAll(c, before, ids[..i], now, kids[..i], at);
            && ids[i] in mid.rows && mid.rows[ids[i]] == before.rows[ids[i]] && mid.rows[ids[i]].status == Scheduled
            && FireAll(c, before, ids[..i + 1], now, kids[..i + 1], at) == PromotedDb(c, mid, ids[i], now, kids[i], at)
  {
    NextToFire(c, before, ids, i, now, kids, at);
    PromoteTouch(c, FireAll(c, before, ids[..i], now, kids[..i], at), ids[i], now, kids[i], at);
  }

  lemma {:induction false} PurgeAll(db: Db, ids: seq<Uuid>, cutoff: Time, at: Time)
    requires Distinct(ids) && forall id | id in ids :: Guard(Find(db.rows, id), Purge(cutoff), at)
    ensures TouchAll(db, ids, Purge(cutoff), at) ==
            Db(db.rows - Elements(ids), db.events, map k | k in db.keys && db.keys[k] !in ids :: db.keys[k])
  {
    if ids != [] {
      var p, id := ids[..|ids| - 1], ids[|ids| - 1];
      assert id !in p && forall x | x in p :: x in ids;
      PurgeAll(db, p, cutoff, at);
      TouchAllRow(db, p, Purge(cutoff), at, id);
      assert id in ids && (forall x :: x in ids <==> x in p || x == id);
      assert Elements(ids) == Elements(p) + {id};
    }
  }

  /** The keys whose job is gone, or goes with the listed rows. */
  function Dangling(db: Db, ids: seq<Uuid>): set<string> {
    set k | k in db.keys && (db.keys[k] !in db.rows || db.keys[k] in ids)
  }

  /** At most one key per deleted row dangles. */
  lemma {:induction false} FewDangling(db: Db, ids: seq<Uuid>)
    requires KeysAgree(db)
    ensures |Dangling(db, ids)| <= |ids|
  {
    if ids == [] {
      assert Dangling(db, ids) == {};
    } else {
      var p, id := ids[..|ids| - 1], ids[|ids| - 1];
      FewDangling(db, p);
      var own := if id in db.rows && HasKey(db.rows[id]) then {db.rows[id].key.value} else {};
      DanglingOneMore(db, ids, own);
      SubsetSize(Dangling(db, ids), Dangling(db, p) + own);
    }
  }

  lemma DanglingOneMore(db: Db, ids: seq<Uuid>, own: set<string>)
    requires KeysAgree(db) && ids != []
    requires var id := ids[|ids| - 1];
             own == if id in db.rows && HasKey(db.rows[id]) then {db.rows[id].key.value} else {}
    ensures Dangling(db, ids) <= Dangling(db, ids[..|ids| - 1]) + own
  {
    forall k | k in Dangling(db, ids) && k !in Dangling(db, ids[..|ids| - 1]) ensures k in own {
      assert db.keys[k] == ids[|ids| - 1] && db.rows[db.keys[k]].key == Some(k);
    }
  }

  /** The two deletes of one purge are the whole purge. */
  lemma PurgeView(db: Db, before: Time, at: Time, limit: nat, ids: seq<Uuid>, orphans: set<string>)
    requires KeysAgree(db) && |ids| <= limit && Distinct(ids)
    requires forall id | id in ids :: Guard(Find(db.rows, id), Purge(before), at)
    requires orphans <= Dangling(db, ids) && |orphans| <= limit && (|orphans| < limit ==> orphans == Dangling(db, ids))
    ensures TouchAll(db, ids, Purge(before), at) == Db(db.rows - Elements(ids), db.events, db.keys - orphans)
    ensures KeysAgree(Db(db.rows - Elements(ids), db.events, db.keys - orphans))
  {
    FewDangling(db, ids);
    SameSizeIsEqual(orphans, Dangling(db, ids));
    PurgeAll(db, ids, before, at);
    TouchAllKeys(db, ids, Purge(before), at);
    assert db.keys - orphans == map k | k in db.keys && db.keys[k] !in ids :: db.keys[k];
  }

  lemma SameSizeIsEqual<T>(a: set<T>, b: set<T>)
    requires a <= b
    ensures |a| >= |b| ==> a == b
  {
    if a != b {
      var x :| x in b && x !in a;
      SubsetSize(a, b - {x});
    }
  }
}
