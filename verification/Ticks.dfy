/** One tick of the scheduler and one tick of the reaper: what they change in the tables and
    what they put on the streams, whatever other processes commit between their steps. */
module Ticks {
  import opened Lifecycle
  import opened Ledger
  import opened Batches
  import opened Store
  import opened Queue

  datatype Entry = Entry(stream: string, id: Uuid)

  /** The Redis side: entries are appended; an XADD may fail (`refused` says for which
      jobs), and the client may be missing altogether. */
  class StreamPusher {
    var entries: seq<Entry>
    const connected: bool

    constructor (connected: bool)
      ensures entries == [] && this.connected == connected
    {
      this.connected := connected;
      entries := [];
    }

    method AddJobRefToStream(stream: string, job: Job, refused: set<Uuid>) returns (ok: bool)
      requires connected
      modifies this
      ensures ok == (stream != "" && job.id !in refused)
      ensures entries == if ok then old(entries) + [Entry(stream, job.id)] else old(entries)
    {
      ok := stream != "" && job.id !in refused;
      if ok {
        entries := entries + [Entry(stream, job.id)];
      }
    }
  }

  predicate Reaches(job: Job, connected: bool, refused: set<Uuid>) {
    Routable(job.row) && connected && job.id !in refused
  }

  /** The entries a tick appends for a list of jobs: one per job that reaches its stream. */
  function Pushes(jobs: seq<Job>, connected: bool, refused: set<Uuid>): seq<Entry> {
    if jobs == [] then []
    else
      var job := jobs[|jobs| - 1];
      Pushes(jobs[..|jobs| - 1], connected, refused) +
      if Reaches(job, connected, refused)
      then [Entry(StreamFor(job.row.queue, job.row.priority).stream, job.id)] else []
  }

  lemma RoutesHaveStreams(queue: string, priority: int)
    ensures StreamFor(queue, priority) != UnknownQueue ==> StreamFor(queue, priority).stream != ""
  {
  }

  predicate OncePerJob(entries: seq<Entry>) {
    forall i, j | 0 <= i < j < |entries| :: entries[i].id != entries[j].id
  }

  predicate DistinctJobs(jobs: seq<Job>) {
    forall i, j | 0 <= i < j < |jobs| :: jobs[i].id != jobs[j].id
  }

  /** The entry a job gives when it reaches its stream. */
  predicate Gives(job: Job, connected: bool, refused: set<Uuid>, e: Entry) {
    Reaches(job, connected, refused) && e == Entry(StreamFor(job.row.queue, job.row.priority).stream, job.id)
  }

  /** An entry is pushed exactly when some listed job gives it. */
  lemma {:induction false} PushedExactly(jobs: seq<Job>, connected: bool, refused: set<Uuid>, e: Entry)
    ensures e in Pushes(jobs, connected, refused) <==>
            exists job :: job in jobs && Gives(job, connected, refused, e)
  {
    if jobs != [] {
      var init, last := jobs[..|jobs| - 1], jobs[|jobs| - 1];
      PushedExactly(init, connected, refused, e);
      assert jobs == init + [last];
      assert last in jobs;
    }
  }

  /** Distinct jobs give at most one entry each. */
  lemma {:induction false} PushesOnce(jobs: seq<Job>, connected: bool, refused: set<Uuid>)
    requires DistinctJobs(jobs)
    ensures OncePerJob(Pushes(jobs, connected, refused)) && |Pushes(jobs, connected, refused)| <= |jobs|
  {
    if jobs != [] {
      var n := |jobs| - 1;
      var p := Pushes(jobs[..n], connected, refused);
      PushesOnce(jobs[..n], connected, refused);
      forall e | e in p ensures e.id != jobs[n].id {
        PushedExactly(jobs[..n], connected, refused, e);
        var job :| job in jobs[..n] && Gives(job, connected, refused, e);
      }
    }
  }

  // ---------- two transactions of one tick ----------

  /** Any gate on the job was set by a failure at time t0 or later. */
  predicate LateGate(s: State, id: Uuid, t0: Time) {
    && t0 <= s.clock && id in s.minted
    && (id in s.db.rows && s.db.rows[id].notBefore.Some? ==> s.db.rows[id].notBefore.value >= t0 + RetryBackoff(1))
  }

  lemma FirstBackoffIsLeast(attempt: int)
    requires attempt >= 1
    ensures RetryBackoff(attempt) >= RetryBackoff(1) == 20 * SECOND
  {
    assert Pow2(1) == 2 * Pow2(0) == 2;
    Pow2Monotone(1, MinAttemptShift(attempt));
  }

  lemma StepKeepsLateGate(c: Config, s: State, step: Step, id: Uuid, t0: Time)
    requires Sound(s) && Enabled(c, s, step) && LateGate(s, id, t0)
    ensures LateGate(Apply(c, s, step), id, t0)
  {
    StepOnRow(c, s, step, id);
    if id in s.db.rows {
      RowsAreShaped(s, id);
      var a := ActOn(c, s, step, id);
      if a.Some? { ActGatesLate(s.db.rows[id], a.value, s.clock); }
    }
  }

  lemma ActGatesLate(r: Row, act: Act, at: Time)
    requires Guard(Some(r), act, at) && (r.status == Running ==> r.attempts >= 1)
    ensures var q := Effect(Some(r), act, at);
            q.Some? && q.value.notBefore.Some? ==>
              q.value.notBefore == r.notBefore || q.value.notBefore.value >= at + RetryBackoff(1)
  {
    if act.Fail? { FirstBackoffIsLeast(r.attempts); }
  }

  lemma {:induction false} RunKeepsLateGate(c: Config, s: State, steps: seq<Step>, id: Uuid, t0: Time)
    requires Sound(s) && ValidFrom(c, s, steps) && LateGate(s, id, t0)
    ensures LateGate(RunFrom(c, s, steps), id, t0)
    decreases |steps|
  {
    if steps != [] {
      StepKeepsLateGate(c, s, steps[0], id, t0);
      StepKeepsSound(c, s, steps[0]);
      RunKeepsLateGate(c, Apply(c, s, steps[0]), steps[1..], id, t0);
    }
  }

  /** What the promotion transaction of a tick selects and inserts. */
  ghost predicate Promotes(s: State, ids: seq<Uuid>, now: Time, kids: seq<Uuid>, locked: set<Uuid>, limit: nat) {
    && Sound(s) && now <= s.clock && Selects(s.db.rows, DueAt(now), ByScheduled(), locked, limit, ids)
    && |kids| == |ids| && Distinct(kids) && forall k | k in kids :: k !in s.minted
  }

  lemma PromotesFits(s: State, ids: seq<Uuid>, now: Time, kids: seq<Uuid>, locked: set<Uuid>, limit: nat)
    requires Promotes(s, ids, now, kids, locked, limit)
    ensures Fireable(s.db.rows, ids, now) && FreshKids(s.db.rows, kids)
    ensures forall id | id in s.db.rows :: Fertile(s.db.rows[id])
  {
    SelectedAreDue(s.db.rows, now, locked, limit, ids);
    forall id | id in s.db.rows ensures Fertile(s.db.rows[id]) && id in s.minted { RowsAreShaped(s, id); }
  }

  /** The state right after the promotion transaction. */
  ghost function PromotedState(c: Config, s: State, ids: seq<Uuid>, now: Time, kids: seq<Uuid>): State
    requires |kids| == |ids|
  {
    RunFrom(c, s, FireSteps(ids, now, kids))
  }

  lemma PromotedRow(c: Config, s: State, ids: seq<Uuid>, now: Time, kids: seq<Uuid>, locked: set<Uuid>, limit: nat,
                    id: Uuid)
    requires Promotes(s, ids, now, kids, locked, limit) && id in ids
    ensures var mid := PromotedState(c, s, ids, now, kids);
            && Sound(mid) && mid.clock == s.clock && id in s.db.rows && id in mid.minted
            && id in mid.db.rows && mid.db.rows[id] == Promoted(s.db.rows[id])
            && Promoted(s.db.rows[id]).notBefore == None && s.db.rows[id].attempts == 0
  {
    PromotesFits(s, ids, now, kids, locked, limit);
    FireAllIsRun(c, s, ids, now, kids);
    RunKeepsSound(c, s, FireSteps(ids, now, kids));
    FireAllRows(c, s.db, ids, now, kids, s.clock);
    var i :| 0 <= i < |ids| && ids[i] == id;
    assert Find(PromotedState(c, s, ids, now, kids).db.rows, ids[i]) == Some(Promoted(s.db.rows[ids[i]]));
    RowsAreShaped(s, id);
  }

  /** Whatever other processes do between the two transactions of a tick: while the second
      clock reading is less than 20s after the promotion, no promoted job is in the second
      batch. */
  lemma BatchesAreDisjoint(c: Config, s: State, ids: seq<Uuid>, now: Time, kids: seq<Uuid>, locked: set<Uuid>,
                           limit: nat,
                           steps: seq<Step>, ids2: seq<Uuid>, now2: Time, locked2: set<Uuid>, limit2: nat)
    requires Promotes(s, ids, now, kids, locked, limit)
    requires var mid := PromotedState(c, s, ids, now, kids);
             && ValidFrom(c, mid, steps)
             && Selects(RunFrom(c, mid, steps).db.rows, MaturedAt(now2), ByGate(), locked2, limit2, ids2)
    requires now2 < s.clock + RetryBackoff(1)
    ensures forall id | id in ids2 :: id !in ids
    ensures Distinct(ids + ids2)
  {
    var mid := PromotedState(c, s, ids, now, kids);
    forall n | 0 <= n < |ids2| ensures ids2[n] !in ids {
      assert MaturedAt(now2)(RunFrom(c, mid, steps).db.rows[ids2[n]]);
      if ids2[n] in ids {
        PromotedRow(c, s, ids, now, kids, locked, limit, ids2[n]);
        RunKeepsLateGate(c, mid, steps, ids2[n], s.clock);
      }
    }
  }

  /** The job is one the second transaction of the tick would open. */
  ghost predicate MaturesAfter(c: Config, mid: State, steps: seq<Step>, id: Uuid, now2: Time) {
    ValidFrom(c, mid, steps) && var late := RunFrom(c, mid, steps);
    now2 <= late.clock && id in late.db.rows && MaturedAt(now2)(late.db.rows[id])
  }

  predicate NeverGated(s: State, id: Uuid) {
    id in s.minted && (id in s.db.rows ==> s.db.rows[id].notBefore == None && s.db.rows[id].maxRetry < 2)
  }

  lemma StepKeepsNeverGated(c: Config, s: State, step: Step, id: Uuid)
    requires Sound(s) && Enabled(c, s, step) && NeverGated(s, id)
    ensures NeverGated(Apply(c, s, step), id)
  {
    StepOnRow(c, s, step, id);
    var a := ActOn(c, s, step, id);
    if id in s.db.rows && a.Some? {
      RowsAreShaped(s, id);
      ActGatesNothing(s.db.rows[id], a.value, s.clock);
    }
  }

  lemma ActGatesNothing(r: Row, act: Act, at: Time)
    requires Guard(Some(r), act, at) && (r.status == Running ==> r.attempts >= 1) && r.notBefore == None
    requires r.maxRetry < 2
    ensures var q := Effect(Some(r), act, at); q.Some? ==> q.value.notBefore == None && q.value.maxRetry < 2
  {
  }

  lemma {:induction false} RunKeepsNeverGated(c: Config, s: State, steps: seq<Step>, id: Uuid)
    requires Sound(s) && ValidFrom(c, s, steps) && NeverGated(s, id)
    ensures NeverGated(RunFrom(c, s, steps), id)
    decreases |steps|
  {
    if steps != [] {
      StepKeepsNeverGated(c, s, steps[0], id);
      StepKeepsSound(c, s, steps[0]);
      RunKeepsNeverGated(c, Apply(c, s, steps[0]), steps[1..], id);
    }
  }

  /** A worker claims and fails the job at once, and the clock moves on. */
  lemma FailsMeanwhile(c: Config, s: State, id: Uuid, now2: Time) returns (steps: seq<Step>)
    requires id in s.db.rows && s.db.rows[id].status == Pending && s.db.rows[id].notBefore == None
    requires s.db.rows[id].attempts == 0 && s.db.rows[id].maxRetry >= 2 && now2 >= s.clock + RetryBackoff(1)
    ensures MaturesAfter(c, s, steps, id, now2)
  {
    FreshId(s.minted);
    var token: Uuid :| token !in s.minted;
    var s1 := ClaimedBy(c, s, id, token);
    var s2 := FailedWith(c, s1, id, token);
    steps := [Do(id, Claim("worker", token))] + [Do(id, Fail(token, "failed"))];
    RunSnoc(c, s, [], Do(id, Claim("worker", token)));
    RunSnoc(c, s, [Do(id, Claim("worker", token))], Do(id, Fail(token, "failed")));
    RunSnoc(c, s, steps, Advance(now2));
    FirstBackoffIsLeast(1);
    assert [] + [Do(id, Claim("worker", token))] == [Do(id, Claim("worker", token))];
    steps := steps + [Advance(now2)];
  }

  lemma ClaimedBy(c: Config, s: State, id: Uuid, token: Uuid) returns (s1: State)
    requires id in s.db.rows && s.db.rows[id].status == Pending && s.db.rows[id].notBefore == None
    requires s.db.rows[id].attempts == 0 && s.db.rows[id].maxRetry >= 2
    ensures s1 == Apply(c, s, Do(id, Claim("worker", token))) && s1.clock == s.clock && id in s1.db.rows
    ensures HeldBy(s1.db.rows[id], token) && s1.db.rows[id].attempts == 1 && s1.db.rows[id].maxRetry >= 2
  {
    s1 := Apply(c, s, Do(id, Claim("worker", token)));
  }

  lemma FailedWith(c: Config, s: State, id: Uuid, token: Uuid) returns (s1: State)
    requires id in s.db.rows && HeldBy(s.db.rows[id], token)
    requires s.db.rows[id].attempts == 1 && s.db.rows[id].maxRetry >= 2
    ensures s1 == Apply(c, s, Do(id, Fail(token, "failed"))) && s1.clock == s.clock && id in s1.db.rows
    ensures s1.db.rows[id].status == Pending && s1.db.rows[id].notBefore == Some(s.clock + RetryBackoff(1))
  {
    s1 := Apply(c, s, Do(id, Fail(token, "failed")));
  }

  /** A job promoted by a tick can also mature in that tick if and only if it has a second
      attempt and the second clock reading is at least 20s after the promotion. */
  lemma TwiceInOneTickExactly(c: Config, s: State, ids: seq<Uuid>, now: Time, kids: seq<Uuid>, locked: set<Uuid>,
                              limit: nat,
                              id: Uuid, now2: Time)
    requires Promotes(s, ids, now, kids, locked, limit) && id in ids
    ensures id in s.db.rows
    ensures (exists steps :: MaturesAfter(c, PromotedState(c, s, ids, now, kids), steps, id, now2)) <==>
            s.db.rows[id].maxRetry >= 2 && now2 >= s.clock + RetryBackoff(1)
  {
    var mid := PromotedState(c, s, ids, now, kids);
    PromotedRow(c, s, ids, now, kids, locked, limit, id);
    if s.db.rows[id].maxRetry >= 2 && now2 >= s.clock + RetryBackoff(1) {
      var steps := FailsMeanwhile(c, mid, id, now2);
    } else {
      forall steps | MaturesAfter(c, mid, steps, id, now2) ensures false {
        if s.db.rows[id].maxRetry < 2 {
          RunKeepsNeverGated(c, mid, steps, id);
        } else {
          RunKeepsLateGate(c, mid, steps, id, s.clock);
        }
      }
    }
  }

  /** What the scheduler pushes in one tick. */
  function TickJobs(rows: map<Uuid, Row>, ids: seq<Uuid>, rows2: map<Uuid, Row>, ids2: seq<Uuid>): seq<Job>
    requires forall i | 0 <= i < |ids| :: ids[i] in rows
    requires forall i | 0 <= i < |ids2| :: ids2[i] in rows2
  {
    PromotedJobs(rows, ids) + MaturedJobs(rows2, ids2)
  }

  lemma TickJobsDiffer(rows: map<Uuid, Row>, ids: seq<Uuid>, rows2: map<Uuid, Row>, ids2: seq<Uuid>)
    requires forall i | 0 <= i < |ids| :: ids[i] in rows
    requires forall i | 0 <= i < |ids2| :: ids2[i] in rows2
    requires Distinct(ids + ids2)
    ensures DistinctJobs(TickJobs(rows, ids, rows2, ids2))
  {
    var jobs := TickJobs(rows, ids, rows2, ids2);
    forall n | 0 <= n < |jobs| ensures jobs[n].id == (ids + ids2)[n] {}
  }

  /** A scheduler tick whose two clock readings are that close pushes each job at most once,
      whatever other processes do in between, and exactly the promoted and the matured jobs
      that reach their stream. */
  lemma TickPushesOnce(c: Config, s: State, ids: seq<Uuid>, now: Time, kids: seq<Uuid>, locked: set<Uuid>, limit: nat,
                       steps: seq<Step>, ids2: seq<Uuid>, now2: Time, locked2: set<Uuid>, limit2: nat,
                       connected: bool, refused: set<Uuid>)
    requires Promotes(s, ids, now, kids, locked, limit)
    requires var mid := PromotedState(c, s, ids, now, kids);
             && ValidFrom(c, mid, steps)
             && Selects(RunFrom(c, mid, steps).db.rows, MaturedAt(now2), ByGate(), locked2, limit2, ids2)
    requires now2 < s.clock + RetryBackoff(1)
    ensures var rows2 := RunFrom(c, PromotedState(c, s, ids, now, kids), steps).db.rows;
            var jobs := TickJobs(s.db.rows, ids, rows2, ids2);
            && OncePerJob(Pushes(jobs, connected, refused))
            && forall id :: Names(Pushes(jobs, connected, refused), id) <==>
                            exists job :: job in jobs && job.id == id && Reaches(job, connected, refused)
  {
    BatchesAreDisjoint(c, s, ids, now, kids, locked, limit, steps, ids2, now2, locked2, limit2);
    var rows2 := RunFrom(c, PromotedState(c, s, ids, now, kids), steps).db.rows;
    var jobs := TickJobs(s.db.rows, ids, rows2, ids2);
    TickJobsDiffer(s.db.rows, ids, rows2, ids2);
    PushesOnce(jobs, connected, refused);
    forall id
      ensures Names(Pushes(jobs, connected, refused), id) <==>
              exists job :: job in jobs && job.id == id && Reaches(job, connected, refused)
    {
      PushedNames(jobs, connected, refused, id);
    }
  }

  datatype Fault = NoFault | FirstFails | SecondFails

  /** What other processes commit between two transactions of ours. */
  method Meanwhile(jobs: JobsStore, others: Db)
    requires KeysAgree(others)
    modifies jobs
    ensures jobs.Valid() && jobs.Tables() == others
  {
    jobs.rows, jobs.events, jobs.keys := others.rows, others.events, others.keys;
  }

  class Scheduler {
    const jobs: JobsStore
    const redis: StreamPusher
    const batchSize: int

    constructor (jobs: JobsStore, redis: StreamPusher, batchSize: int)
      ensures this.jobs == jobs && this.redis == redis
      ensures this.batchSize == if batchSize <= 0 then 100 else batchSize
    {
      this.jobs, this.redis := jobs, redis;
      this.batchSize := if batchSize <= 0 then 100 else batchSize;
    }

    /** Promote one batch of due jobs, then, after whatever others commit meanwhile, open one
        batch of matured retries; push each once. A failed push leaves the tables exactly as
        the two claims left them; when the second claim fails, nothing is pushed at all. */
    method Tick(c: Config, now: Time, now2: Time, at: Time, at2: Time, ghost s: State,
                ghost locked: set<Uuid>, ids: seq<Uuid>, kids: seq<Uuid>, ghost steps: seq<Step>, others: Db,
                ghost locked2: set<Uuid>, ids2: seq<Uuid>, refused: set<Uuid>, fault: Fault)
      returns (n: nat, ok: bool)
      requires jobs.Valid() && jobs.Tables() == s.db && at == s.clock && now2 <= at2
      requires Promotes(s, ids, now, kids, locked, ClampBatch(batchSize))
      requires ValidFrom(c, PromotedState(c, s, ids, now, kids), steps)
      requires others == RunFrom(c, PromotedState(c, s, ids, now, kids), steps).db
      requires Selects(others.rows, MaturedAt(now2), ByGate(), locked2, ClampBatch(batchSize), ids2)
      modifies jobs, redis
      ensures jobs.Valid() && ok == (fault == NoFault)
      ensures fault != NoFault ==> n == 0 && redis.entries == old(redis.entries)
      ensures fault == FirstFails ==> jobs.Tables() == s.db
      ensures fault == SecondFails ==> jobs.Tables() == others
      ensures fault == NoFault ==> jobs.Tables() == TouchAll(others, ids2, Mature(now2), at2)
      ensures fault == NoFault ==>
                && (forall i | 0 <= i < |ids| :: ids[i] in s.db.rows)
                && (forall i | 0 <= i < |ids2| :: ids2[i] in others.rows)
                && var pushed := Pushes(TickJobs(s.db.rows, ids, others.rows, ids2), redis.connected, refused);
                redis.entries == old(redis.entries) + pushed && n == |pushed|
    {
      if fault == FirstFails {
        return 0, false;
      }
      OthersAgree(c, s, ids, now, kids, locked, ClampBatch(batchSize), steps);
      var due := jobs.ClaimDueScheduled(c, now, batchSize, at, locked, ids, kids);
      Meanwhile(jobs, others);
      if fault == SecondFails {
        return 0, false;
      }
      var retries := jobs.ClaimDueRetries(now2, batchSize, at2, locked2, ids2);
      due := due + retries;
      n := PushAll(redis, due, refused);
      ok := true;
    }
  }

  lemma OthersAgree(c: Config, s: State, ids: seq<Uuid>, now: Time, kids: seq<Uuid>, locked: set<Uuid>, limit: nat,
                    steps: seq<Step>)
    requires Promotes(s, ids, now, kids, locked, limit) && ValidFrom(c, PromotedState(c, s, ids, now, kids), steps)
    ensures FreshKids(s.db.rows, kids) && forall id | id in s.db.rows :: Fertile(s.db.rows[id])
    ensures KeysAgree(RunFrom(c, PromotedState(c, s, ids, now, kids), steps).db)
    ensures PromotedState(c, s, ids, now, kids).db == FireAll(c, s.db, ids, now, kids, s.clock)
  {
    PromotesFits(s, ids, now, kids, locked, limit);
    FireAllIsRun(c, s, ids, now, kids);
    RunKeepsSound(c, s, FireSteps(ids, now, kids));
    RunKeepsSound(c, PromotedState(c, s, ids, now, kids), steps);
  }

  // ---------- the reaper ----------

  datatype TickStats = TickStats(reclaimed: nat, reenqueued: nat, swept: nat)

  /** The sweep skips what this tick has just reclaimed. */
  function Skipping(jobs: seq<Job>, skip: set<Uuid>): seq<Job> {
    if jobs == [] then []
    else Skipping(jobs[..|jobs| - 1], skip) + if jobs[|jobs| - 1].id in skip then [] else [jobs[|jobs| - 1]]
  }

  lemma {:induction false} SkippingKeeps(jobs: seq<Job>, skip: set<Uuid>)
    requires DistinctJobs(jobs)
    ensures DistinctJobs(Skipping(jobs, skip)) && |Skipping(jobs, skip)| <= |jobs|
    ensures forall job :: job in Skipping(jobs, skip) <==> job in jobs && job.id !in skip
  {
    if jobs != [] {
      var n := |jobs| - 1;
      SkippingKeeps(jobs[..n], skip);
      assert forall job :: job in jobs <==> job in jobs[..n] || job == jobs[n];
      assert forall job | job in jobs[..n] :: job.id != jobs[n].id;
    }
  }

  class Reaper {
    const jobs: JobsStore
    const redis: StreamPusher
    const batchSize: int
    const staleAfter: Time
    const sweepAfter: Time

    constructor (jobs: JobsStore, redis: StreamPusher, batchSize: int, staleAfter: Time, sweepAfter: Time)
      ensures this.jobs == jobs && this.redis == redis
      ensures this.batchSize == (if batchSize <= 0 then 100 else batchSize)
      ensures this.staleAfter == (if staleAfter <= 0 then 90 * SECOND else staleAfter)
      ensures this.sweepAfter == (if sweepAfter <= 0 then 60 * SECOND else sweepAfter)
    {
      this.jobs, this.redis := jobs, redis;
      this.batchSize := if batchSize <= 0 then 100 else batchSize;
      this.staleAfter := if staleAfter <= 0 then 90 * SECOND else staleAfter;
      this.sweepAfter := if sweepAfter <= 0 then 60 * SECOND else sweepAfter;
    }

    /** Take one batch of stale running jobs back to pending and push them. */
    method ReclaimBatch(now: Time, at: Time, ghost locked: set<Uuid>, ids: seq<Uuid>, refused: set<Uuid>)
      returns (reclaimed: set<Uuid>, n: nat)
      requires jobs.Valid()
      requires Selects(jobs.rows, StaleAt(now - staleAfter), ByHeartbeat(), locked, ClampBatch(batchSize), ids)
      modifies jobs`rows, jobs`events, redis
      ensures jobs.Valid() && jobs.Tables() == TouchAll(old(jobs.Tables()), ids, Reclaim(now - staleAfter), at)
      ensures reclaimed == Elements(ids) && forall i | 0 <= i < |ids| :: ids[i] in old(jobs.rows)
      ensures var pushed := Pushes(OrphanedJobs(old(jobs.rows), ids), redis.connected, refused);
              redis.entries == old(redis.entries) + pushed && n == |pushed|
    {
      var stale := jobs.ClaimStaleRunning(now - staleAfter, batchSize, at, locked, ids);
      OrphanedIds(old(jobs.rows), ids);
      reclaimed := set job | job in stale :: job.id;
      n := PushAll(redis, stale, refused);
    }

    /** Push one batch of old pending jobs except those just reclaimed. */
    method SweepBatch(now: Time, at: Time, replica: map<Uuid, Row>, listed: seq<Uuid>, reclaimed: set<Uuid>,
                      refused: set<Uuid>) returns (n: nat)
      requires batchSize > 0
      requires Selects(replica, StalePendingAt(now - sweepAfter, at), ByCreated(), {}, batchSize, listed)
      modifies redis
      ensures var pushed := Pushes(Skipping(JobsOf(replica, listed), reclaimed), redis.connected, refused);
              redis.entries == old(redis.entries) + pushed && n == |pushed|
    {
      var pending := jobs.ListStalePending(replica, now - sweepAfter, batchSize, at, listed);
      n := SweepAll(redis, pending, reclaimed, refused);
    }

    /** Reclaim one batch of stale running jobs and push them, then sweep one batch of old
        pending jobs, read from a replica, except those just reclaimed. When the claim fails
        nothing happens; when the listing fails the sweep is left out. */
    method Tick(now: Time, at: Time, at2: Time, ghost locked: set<Uuid>, ids: seq<Uuid>,
                replica: map<Uuid, Row>, listed: seq<Uuid>, refused: set<Uuid>, fault: Fault)
      returns (stats: TickStats, ok: bool)
      requires jobs.Valid() && now <= at && batchSize > 0
      requires Selects(jobs.rows, StaleAt(now - staleAfter), ByHeartbeat(), locked, ClampBatch(batchSize), ids)
      requires Selects(replica, StalePendingAt(now - sweepAfter, at2), ByCreated(), {}, batchSize, listed)
      modifies jobs`rows, jobs`events, redis
      ensures jobs.Valid() && ok == (fault == NoFault)
      ensures fault == FirstFails ==>
                && stats == TickStats(0, 0, 0)
                && jobs.Tables() == old(jobs.Tables()) && redis.entries == old(redis.entries)
      ensures fault != FirstFails ==>
                && jobs.Tables() == TouchAll(old(jobs.Tables()), ids, Reclaim(now - staleAfter), at)
                && (forall i | 0 <= i < |ids| :: ids[i] in old(jobs.rows))
                && var first := Pushes(OrphanedJobs(old(jobs.rows), ids), redis.connected, refused);
                var second := if fault == SecondFails then []
                              else Pushes(Skipping(JobsOf(replica, listed), Elements(ids)), redis.connected, refused);
                && redis.entries == old(redis.entries) + first + second
                && stats == TickStats(|ids|, |first|, |second|)
    {
      if fault == FirstFails {
        return TickStats(0, 0, 0), false;
      }
      var reclaimed, reenqueued := ReclaimBatch(now, at, locked, ids, refused);
      if fault == SecondFails {
        return TickStats(|ids|, reenqueued, 0), false;
      }
      var swept := SweepBatch(now, at2, replica, listed, reclaimed, refused);
      return TickStats(|ids|, reenqueued, swept), true;
    }
  }

  lemma OrphanedIds(rows: map<Uuid, Row>, ids: seq<Uuid>)
    requires forall i | 0 <= i < |ids| :: ids[i] in rows
    ensures (set job | job in OrphanedJobs(rows, ids) :: job.id) == Elements(ids)
  {
    var jobs := OrphanedJobs(rows, ids);
    forall id | id in Elements(ids) ensures id in (set job | job in jobs :: job.id) {
      var i :| 0 <= i < |ids| && ids[i] == id;
      assert jobs[i].id == id && jobs[i] in jobs;
    }
  }

  method SweepAll(redis: StreamPusher, pending: seq<Job>, reclaimed: set<Uuid>, refused: set<Uuid>) returns (swept: nat)
    modifies redis
    ensures redis.entries == old(redis.entries) + Pushes(Skipping(pending, reclaimed), redis.connected, refused)
    ensures swept == |Pushes(Skipping(pending, reclaimed), redis.connected, refused)|
  {
    swept := 0;
    for i := 0 to |pending|
      invariant redis.entries ==
                old(redis.entries) + Pushes(Skipping(pending[..i], reclaimed), redis.connected, refused)
      invariant swept == |Pushes(Skipping(pending[..i], reclaimed), redis.connected, refused)|
    {
      assert pending[..i + 1][..i] == pending[..i];
      ghost var kept := Skipping(pending[..i], reclaimed);
      if pending[i].id !in reclaimed {
        var ok := PushOne(redis, pending[i], refused);
        assert (kept + [pending[i]])[..|kept|] == kept;
        if ok { swept := swept + 1; }
        assert Skipping(pending[..i + 1], reclaimed) == kept + [pending[i]];
      } else {
        assert Skipping(pending[..i + 1], reclaimed) == kept;
      }
    }
    assert pending[..|pending|] == pending;
  }

  lemma OnceJoined(first: seq<Entry>, second: seq<Entry>)
    requires OncePerJob(first) && OncePerJob(second)
    requires forall a, b | a in first && b in second :: a.id != b.id
    ensures OncePerJob(first + second)
  {
    forall i, j | 0 <= i < j < |first + second| ensures (first + second)[i].id != (first + second)[j].id {
      if i < |first| <= j {
        assert first[i] in first && second[j - |first|] in second;
      }
    }
  }

  /** One reaper tick pushes no job twice, re-enqueues at most what it reclaimed, and
      neither part exceeds its batch. */
  lemma ReaperPushesOnce(rows: map<Uuid, Row>, cutoff: Time, locked: set<Uuid>, limit: nat, ids: seq<Uuid>,
                         replica: map<Uuid, Row>, olderThan: Time, at: Time, batch: nat, listed: seq<Uuid>,
                         connected: bool, refused: set<Uuid>)
    requires Selects(rows, StaleAt(cutoff), ByHeartbeat(), locked, limit, ids)
    requires Selects(replica, StalePendingAt(olderThan, at), ByCreated(), {}, batch, listed)
    ensures var first := Pushes(OrphanedJobs(rows, ids), connected, refused);
            var second := Pushes(Skipping(JobsOf(replica, listed), Elements(ids)), connected, refused);
            OncePerJob(first + second) && |first| <= |ids| <= limit && |second| <= |listed| <= batch
  {
    var stale, kept := OrphanedJobs(rows, ids), Skipping(JobsOf(replica, listed), Elements(ids));
    var first, second := Pushes(stale, connected, refused), Pushes(kept, connected, refused);
    SkippingKeeps(JobsOf(replica, listed), Elements(ids));
    PushesOnce(stale, connected, refused);
    PushesOnce(kept, connected, refused);
    forall a, b | a in first && b in second ensures a.id != b.id {
      PushedExactly(stale, connected, refused, a);
      PushedExactly(kept, connected, refused, b);
      var job :| job in stale && Gives(job, connected, refused, a);
      var other :| other in kept && Gives(other, connected, refused, b);
      assert job.id in Elements(ids) && other.id !in Elements(ids);
    }
    OnceJoined(first, second);
  }

  predicate Names(entries: seq<Entry>, id: Uuid) {
    exists e | e in entries :: e.id == id
  }

  lemma PushedNames(jobs: seq<Job>, connected: bool, refused: set<Uuid>, id: Uuid)
    ensures Names(Pushes(jobs, connected, refused), id) <==>
            exists job :: job in jobs && job.id == id && Reaches(job, connected, refused)
  {
    var pushed := Pushes(jobs, connected, refused);
    if Names(pushed, id) {
      var e :| e in pushed && e.id == id;
      PushedExactly(jobs, connected, refused, e);
      var job :| job in jobs && Gives(job, connected, refused, e);
    }
    if job :| job in jobs && job.id == id && Reaches(job, connected, refused) {
      var e := Entry(StreamFor(job.row.queue, job.row.priority).stream, id);
      assert Gives(job, connected, refused, e);
      PushedExactly(jobs, connected, refused, e);
    }
  }

  /** The push loop both ticks run. */
  method PushAll(redis: StreamPusher, jobs: seq<Job>, refused: set<Uuid>) returns (n: nat)
    modifies redis
    ensures redis.entries == old(redis.entries) + Pushes(jobs, redis.connected, refused)
    ensures n == |Pushes(jobs, redis.connected, refused)|
  {
    n := 0;
    for i := 0 to |jobs|
      invariant redis.entries == old(redis.entries) + Pushes(jobs[..i], redis.connected, refused)
      invariant n == |Pushes(jobs[..i], redis.connected, refused)|
    {
      assert jobs[..i + 1][..i] == jobs[..i];
      var ok := PushOne(redis, jobs[i], refused);
      if ok { n := n + 1; }
    }
    assert jobs[..|jobs|] == jobs;
  }

  method PushOne(redis: StreamPusher, job: Job, refused: set<Uuid>) returns (ok: bool)
    modifies redis
    ensures ok == Reaches(job, redis.connected, refused)
    ensures redis.entries == old(redis.entries) +
              if ok then [Entry(StreamFor(job.row.queue, job.row.priority).stream, job.id)] else []
  {
    var route := StreamFor(job.row.queue, job.row.priority);
    RoutesHaveStreams(job.row.queue, job.row.priority);
    if route == UnknownQueue || !redis.connected {
      return false;
    }
    ok := redis.AddJobRefToStream(route.stream, job, refused);
  }
}
