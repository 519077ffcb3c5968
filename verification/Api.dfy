/** The API's writes: enqueue, replay and cancel. Each handler checks its input, changes
    the tables first and the stream after, and is proved here undisturbed by others. */
module Api {
  import opened Lifecycle
  import opened Ledger
  import opened Batches
  import opened Store
  import opened Queue
  import opened Ticks

  const MAX_PAYLOAD_BYTES := 15 * 1024

  datatype Request = Request(
    kind: string, queue: string, payload: Option<string>, priority: int, maxRetry: int,
    key: string, scheduledAt: string, cron: string, cronTz: string)

  datatype Reply =
    | BadRequest
    | TooLarge
    | NotFound
    | Conflict
    | NoReply
    | Deduplicated(row: Row)
    | Accepted(row: Row, dispatched: bool)
    | CancelledJobs(n: nat)

  function Trim(s: string): string {
    TrimRight(TrimLeft(s))
  }

  // ---------- enqueue ----------

  datatype Checked = Draft(job: NewJob) | Refused(reply: Reply)

  /** The Idempotency-Key header wins over the body's key. */
  function RequestKey(req: Request, header: string): Option<string> {
    var key := if Trim(header) != "" then Trim(header) else req.key;
    if key == "" then None else Some(key)
  }

  function Zone(req: Request): string {
    if Trim(req.cronTz) == "" then "UTC" else Trim(req.cronTz)
  }

  function OneShot(req: Request, header: string, user: Uuid, status: Status, scheduledAt: Option<Time>): NewJob {
    var queue := if Trim(req.queue) == "" then Trim(req.kind) + "-high" else Trim(req.queue);
    NewJob(Some(status), Trim(req.kind), req.payload, queue, req.priority, 0, req.maxRetry, RequestKey(req, header),
           Some(user), None, None, None, false, scheduledAt, None, None)
  }

  /** What the request asks for; cron starts a series, a time over a minute away waits for
      the scheduler. */
  function Check(c: Config, parse: string -> Option<Time>, req: Request, header: string, user: Uuid, series: Uuid,
                 now: Time): Checked {
    if !IsPool(Trim(req.kind)) || req.payload == None then Refused(BadRequest)
    else if |req.payload.value| > MAX_PAYLOAD_BYTES then Refused(TooLarge)
    else if Trim(req.cron) != "" then
      if Trim(req.scheduledAt) != "" then Refused(BadRequest)
      else
        match c.next(Trim(req.cron), Zone(req), now)
        case None => Refused(BadRequest)
        case Some(t) =>
          Draft(OneShot(req, header, user, Scheduled, Some(t))
                .(recurring := true, cron := Some(Trim(req.cron)), tz := Some(Zone(req)), series := Some(series)))
    else if req.scheduledAt != "" then
      match parse(req.scheduledAt)
      case None => Refused(BadRequest)
      case Some(t) => Draft(OneShot(req, header, user, if t > now + MINUTE then Scheduled else Pending, Some(t)))
    else Draft(OneShot(req, header, user, Pending, None))
  }

  predicate SmallInt(n: int) {
    -MAX_SMALLINT - 1 <= n <= MAX_SMALLINT
  }

  /** Whatever the API accepts is a row every run of the system may start from: pending and
      due within a minute, or scheduled with a time, and a series exactly when recurring. */
  lemma AcceptedIsNewRow(c: Config, parse: string -> Option<Time>, req: Request, header: string, user: Uuid,
                         series: Uuid, now: Time, at: Time)
    requires now <= at && SmallInt(req.maxRetry)
    ensures var d := Check(c, parse, req, header, user, series, now);
            d.Draft? ==>
              && NewRow(Normalised(d.job, at), at) && Fertile(Normalised(d.job, at)) && d.job.key != Some("")
              && Normalised(d.job, at).owner == Some(user)
              && (Normalised(d.job, at).recurring ==>
                    c.next(Normalised(d.job, at).cron.value, Normalised(d.job, at).tz, now) ==
                    Normalised(d.job, at).scheduledAt)
  {
  }

  /** The idempotency key of a request: its header's, trimmed, if there is one, else its body's. */
  predicate KeyOf(req: Request, header: string, key: Option<string>) {
    var h := Trim(header);
    key == if h != "" then Some(h) else if req.key != "" then Some(req.key) else None
  }

  /** The row an accepted request becomes, column by column. */
  lemma RequestedRow(c: Config, parse: string -> Option<Time>, req: Request, header: string, user: Uuid,
                     series: Uuid, now: Time, at: Time)
    ensures var d := Check(c, parse, req, header, user, series, now);
            d.Draft? ==>
              var r, cron := Normalised(d.job, at), Trim(req.cron);
              && r.kind == Trim(req.kind) && r.payload == req.payload && r.payload.Some? && |r.payload.value| <= 15360
              && r.queue == (if Trim(req.queue) == "" then r.kind + "-high" else Trim(req.queue))
              && r.priority == req.priority && r.maxRetry == (if req.maxRetry == 0 then 3 else req.maxRetry)
              && KeyOf(req, header, r.key) && r.owner == Some(user) && r.createdAt == at && r.attempts == 0
              && (if cron != "" then
                    && r.status == Scheduled && r.recurring && r.cron == Some(cron) && r.series == Some(series)
                    && r.tz == (if Trim(req.cronTz) == "" then "UTC" else Trim(req.cronTz))
                    && r.scheduledAt.Some? && r.scheduledAt == c.next(cron, r.tz, now)
                  else
                    && !r.recurring && r.cron == None && r.series == None && r.tz == "UTC"
                    && r.scheduledAt == (if req.scheduledAt == "" then None else parse(req.scheduledAt))
                    && (r.status == Scheduled <==>
                          r.scheduledAt.Some? && r.scheduledAt.value > now + 60_000_000_000)
                    && (r.status != Scheduled ==> r.status == Pending))
  {
  }

  /** Which requests are accepted, and why the others are not: a known type, a payload of at most
      15 KB, and a schedule that reads, given one way only. */
  lemma AcceptedExactly(c: Config, parse: string -> Option<Time>, req: Request, header: string, user: Uuid,
                        series: Uuid, now: Time)
    ensures var d, cron, zone := Check(c, parse, req, header, user, series, now), Trim(req.cron), Trim(req.cronTz);
            var known := Trim(req.kind) in {"email", "file", "file_processing", "exec", "exec_processing"};
            var fits := req.payload.Some? && |req.payload.value| <= 15360;
            var timed := if cron != "" then
                           Trim(req.scheduledAt) == "" && c.next(cron, if zone == "" then "UTC" else zone, now).Some?
                         else req.scheduledAt == "" || parse(req.scheduledAt).Some?;
            && (d.Draft? <==> known && fits && timed)
            && (d.Refused? ==> d.reply == if known && req.payload.Some? && !fits then TooLarge else BadRequest)
  {
  }

  predicate IsLower(s: string) {
    forall i | 0 <= i < |s| :: Lower(s[i]) == s[i] && !IsSpace(s[i])
  }

  lemma NormalNames(s: string)
    requires IsLower(s)
    ensures Normal(s) == s
  {
  }

  lemma PoolNamesAreLower(name: string)
    requires IsPool(name)
    ensures name != "" && IsLower(name)
  {
  }

  lemma DefaultQueueRoutes(name: string, priority: int)
    requires IsPool(name)
    ensures StreamFor(name + "-high", priority) == RouteOf(name, true) != UnknownQueue
  {
    PoolNamesAreLower(name);
    assert IsLower("-high");
    var s := name + "-high";
    assert IsLower(s);
    NormalNames(s);
    PoolRoutes(s, priority, name);
  }

  /** A request that names no queue always gets a routable one. */
  lemma DefaultQueueIsRoutable(c: Config, parse: string -> Option<Time>, req: Request, header: string, user: Uuid,
                               series: Uuid, now: Time, at: Time)
    requires Trim(req.queue) == ""
    ensures var d := Check(c, parse, req, header, user, series, now);
            d.Draft? ==> Routable(Normalised(d.job, at))
  {
    if IsPool(Trim(req.kind)) {
      DefaultQueueRoutes(Trim(req.kind), req.priority);
    }
  }

  // ---------- keyed replay ----------

  /** One POST .../retry. The key is bound in one transaction and the job replayed in another:
      `failed` is the job's state at the second one, and `crashed` says that the process
      died before it. */
  datatype Ask = Ask(key: string, id: Uuid, failed: bool, crashed: bool)

  datatype Answer = Replayed | NotFailed | Duplicate | Taken | Unanswered

  function AnswerTo(bound: map<string, Uuid>, a: Ask): Answer {
    if a.key != "" && a.key in bound then (if bound[a.key] == a.id then Duplicate else Taken)
    else if a.crashed then Unanswered
    else if a.failed then Replayed else NotFailed
  }

  function BoundAfter(bound: map<string, Uuid>, key: string, id: Uuid): map<string, Uuid> {
    if key != "" && key !in bound then bound[key := id] else bound
  }

  /** How many of the requests with this key replay a job. */
  function Replays(bound: map<string, Uuid>, asks: seq<Ask>, key: string): nat
    decreases |asks|
  {
    if asks == [] then 0
    else (if asks[0].key == key && AnswerTo(bound, asks[0]) == Replayed then 1 else 0)
         + Replays(BoundAfter(bound, asks[0].key, asks[0].id), asks[1..], key)
  }

  function FirstUse(asks: seq<Ask>, key: string): Option<Ask> {
    if asks == [] then None else if asks[0].key == key then Some(asks[0]) else FirstUse(asks[1..], key)
  }

  /** A key replays at most one job ever, and its first use decides: when it meets a job that
      is not failed, or dies between binding the key and replaying, the key is spent without
      a replay. */
  lemma {:induction false} KeyReplaysOnce(bound: map<string, Uuid>, asks: seq<Ask>, key: string)
    requires key != ""
    ensures Replays(bound, asks, key) ==
            if key !in bound && FirstUse(asks, key).Some? && FirstUse(asks, key).value.failed &&
               !FirstUse(asks, key).value.crashed
            then 1 else 0
    decreases |asks|
  {
    if asks != [] {
      KeyReplaysOnce(BoundAfter(bound, asks[0].key, asks[0].id), asks[1..], key);
    }
  }

  /** A failed row put back to work by hand. */
  function Restarted(r: Row): Row {
    r.(status := Pending, attempts := 0, token := None, worker := None, lastError := None, notBefore := None,
       completedAt := None)
  }

  class Handlers {
    const jobs: JobsStore
    const redis: StreamPusher

    constructor (jobs: JobsStore, redis: StreamPusher)
      ensures this.jobs == jobs && this.redis == redis
    {
      this.jobs, this.redis := jobs, redis;
    }

    predicate Visible(id: Uuid, user: Uuid)
      reads jobs
    {
      id in jobs.rows && jobs.rows[id].owner == Some(user)
    }

    /** The checks of a request, and the job it asks for. */
    method Admit(c: Config, parse: string -> Option<Time>, req: Request, header: string, user: Uuid, series: Uuid,
                 now: Time) returns (d: Checked)
      ensures d == Check(c, parse, req, header, user, series, now)
    {
      var kind, queue := Trim(req.kind), Trim(req.queue);
      if !IsPool(kind) {
        return Refused(BadRequest);
      }
      if queue == "" {
        queue := kind + "-high";
      }
      if req.payload == None {
        return Refused(BadRequest);
      }
      if |req.payload.value| > MAX_PAYLOAD_BYTES {
        return Refused(TooLarge);
      }
      var input := NewJob(Some(Pending), kind, req.payload, queue, req.priority, 0, req.maxRetry,
                          RequestKey(req, header), Some(user), None, None, None, false, None, None, None);
      if Trim(req.cron) != "" {
        if Trim(req.scheduledAt) != "" {
          return Refused(BadRequest);
        }
        var tz := Trim(req.cronTz);
        if tz == "" {
          tz := "UTC";
        }
        var next := c.next(Trim(req.cron), tz, now);
        if next == None {
          return Refused(BadRequest);
        }
        input := input.(recurring := true, cron := Some(Trim(req.cron)), tz := Some(tz), series := Some(series),
                        scheduledAt := next, status := Some(Scheduled));
      } else if req.scheduledAt != "" {
        var ts := parse(req.scheduledAt);
        if ts == None {
          return Refused(BadRequest);
        }
        input := input.(scheduledAt := ts);
        if ts.value > now + MINUTE {
          input := input.(status := Some(Scheduled));
        }
      }
      return Draft(input);
    }

    /** Insert first, then one entry for a pending job; a failed XADD changes no row. */
    method Enqueue(c: Config, parse: string -> Option<Time>, req: Request, header: string, user: Uuid,
                   id: Uuid, series: Uuid, now: Time, at: Time, refused: set<Uuid>) returns (r: Reply)
      requires jobs.Valid() && id !in jobs.rows && now <= at && SmallInt(req.maxRetry)
      modifies jobs, redis
      ensures jobs.Valid() && jobs.retryKeys == old(jobs.retryKeys)
      ensures var d := Check(c, parse, req, header, user, series, now);
              if d.Refused? then
                r == d.reply && jobs.Tables() == old(jobs.Tables()) && redis.entries == old(redis.entries)
              else if d.job.key.Some? && exists j | j in old(jobs.rows) :: old(jobs.rows)[j].key == d.job.key then
                r == Conflict && jobs.Tables() == old(jobs.Tables()) && redis.entries == old(redis.entries)
              else
                var row := Normalised(d.job, at);
                var go := row.status == Pending && Reaches(Job(id, row), redis.connected, refused);
                && r == Accepted(row, go) && jobs.rows == old(jobs.rows)[id := row]
                && jobs.Tables() == Touch(old(jobs.Tables()), id, Create(row), at)
                && redis.entries == old(redis.entries) +
                     if go then [Entry(StreamFor(row.queue, row.priority).stream, id)] else []
    {
      var d := Admit(c, parse, req, header, user, series, now);
      if d.Refused? {
        return d.reply;
      }
      AcceptedIsNewRow(c, parse, req, header, user, series, now, at);
      var created := jobs.CreateJob(id, d.job, at);
      if created.JobExists? {
        return Conflict;
      }
      if created.value.status == Scheduled {
        return Accepted(created.value, false);
      }
      var ok := PushOne(redis, Job(id, created.value), refused);
      return Accepted(created.value, ok);
    }

    /** A resent key changes nothing; a fresh one is bound and the failed job replayed, unless
        the process dies in between. */
    method Retry(id: Uuid, header: string, user: Uuid, at: Time, refused: set<Uuid>, crashed: bool) returns (r: Reply)
      requires jobs.Valid()
      modifies jobs, redis
      ensures jobs.Valid()
      ensures !old(Visible(id, user)) ==>
                r == NotFound && jobs.Tables() == old(jobs.Tables()) && jobs.retryKeys == old(jobs.retryKeys) &&
                redis.entries == old(redis.entries)
      ensures old(Visible(id, user)) ==>
                var ask := Ask(Trim(header), id, old(jobs.rows)[id].status == Failed, crashed);
                var answer := AnswerTo(old(jobs.retryKeys), ask);
                && jobs.retryKeys == BoundAfter(old(jobs.retryKeys), Trim(header), id)
                && jobs.Tables() ==
                   (if answer == Replayed then Touch(old(jobs.Tables()), id, Replay, at) else old(jobs.Tables()))
                && (answer == Taken || answer == NotFailed ==> r == Conflict)
                && (answer == Unanswered ==> r == NoReply)
                && (answer == Duplicate ==> r == Deduplicated(old(jobs.rows)[id]))
                && (answer == Replayed ==> (r.Accepted? && id in jobs.rows && r.row == jobs.rows[id] &&
                                            r.dispatched == Reaches(Job(id, r.row), redis.connected, refused)))
                && redis.entries == old(redis.entries) +
                     if r.Accepted? && r.dispatched
                     then [Entry(StreamFor(r.row.queue, r.row.priority).stream, id)] else []
      ensures var key, seen := Trim(header), old(Visible(id, user));
              && jobs.retryKeys == (if seen && key != "" && key !in old(jobs.retryKeys)
                                    then old(jobs.retryKeys)[key := id] else old(jobs.retryKeys))
              && (seen && key != "" && key in old(jobs.retryKeys) ==>
                    && r == (if old(jobs.retryKeys)[key] == id then Deduplicated(old(jobs.rows)[id]) else Conflict)
                    && jobs.rows == old(jobs.rows) && redis.entries == old(redis.entries))
              && (seen && (key == "" || key !in old(jobs.retryKeys)) && crashed ==> jobs.rows == old(jobs.rows))
              && (seen && (key == "" || key !in old(jobs.retryKeys)) && !crashed ==>
                    if old(jobs.rows)[id].status != Failed then r == Conflict && jobs.rows == old(jobs.rows)
                    else r.Accepted? && r.row == Restarted(old(jobs.rows)[id]) &&
                         jobs.rows == old(jobs.rows)[id := r.row])
    {
      if id !in jobs.rows || jobs.rows[id].owner != Some(user) {
        return NotFound;
      }
      var key := Trim(header);
      if key != "" {
        var recorded := jobs.RecordRetryKey(key, id);
        if recorded.RetryKeyConflict? {
          return Conflict;
        }
        if recorded.value {
          return Deduplicated(jobs.rows[id]);
        }
      }
      if crashed {
        return NoReply;
      }
      var out := jobs.RetryJob(id, at);
      if out.NotRetryable? {
        return Conflict;
      }
      var ok := PushOne(redis, Job(id, out.value), refused);
      return Accepted(out.value, ok);
    }

    /** Cancel one job, or on request every unlocked not-yet-running member of its series
        that the caller owns. */
    method Cancel(id: Uuid, wholeSeries: bool, user: Uuid, at: Time, ghost locked: set<Uuid>, ids: seq<Uuid>)
      returns (r: Reply)
      requires jobs.Valid()
      requires Visible(id, user) && wholeSeries && jobs.rows[id].series.Some? ==>
                 var wanted := CancellableIn(jobs.rows[id].series.value, Some(user));
                 && Selects(jobs.rows, wanted, ByScheduled(), locked, |ids|, ids)
                 && forall j | j in jobs.rows && j !in locked && wanted(jobs.rows[j]) :: j in ids
      modifies jobs
      ensures jobs.Valid() && jobs.retryKeys == old(jobs.retryKeys)
      ensures !old(Visible(id, user)) ==> r == NotFound && jobs.Tables() == old(jobs.Tables())
      ensures old(Visible(id, user)) && wholeSeries && old(jobs.rows)[id].series.Some? ==>
                && r == CancelledJobs(|ids|) && jobs.Tables() == TouchAll(old(jobs.Tables()), ids, Act.Cancel, at)
                && var wanted := CancellableIn(old(jobs.rows)[id].series.value, Some(user));
                forall j :: j in jobs.rows && wanted(jobs.rows[j]) <==>
                            j in locked && j in old(jobs.rows) && wanted(old(jobs.rows)[j])
      ensures old(Visible(id, user)) && !(wholeSeries && old(jobs.rows)[id].series.Some?) ==>
                && jobs.Tables() == Touch(old(jobs.Tables()), id, Act.Cancel, at)
                && r == if Claimable(old(jobs.rows)[id].status) then CancelledJobs(1) else Conflict
      ensures old(Visible(id, user)) && !(wholeSeries && old(jobs.rows)[id].series.Some?) ==>
                if old(jobs.rows)[id].status in {Scheduled, Pending, Queued}
                then r == CancelledJobs(1) &&
                     jobs.rows == old(jobs.rows)[id := old(jobs.rows)[id].(status := Status.Cancelled,
                                                                           completedAt := Some(at))]
                else r == Conflict && jobs.rows == old(jobs.rows)
    {
      if id !in jobs.rows || jobs.rows[id].owner != Some(user) {
        return NotFound;
      }
      var job := jobs.rows[id];
      if wholeSeries && job.series.Some? {
        var n := jobs.CancelSeries(job.series.value, Some(user), at, locked, ids);
        return CancelledJobs(n);
      }
      var out := jobs.CancelJob(id, at);
      if out.NotCancellable? {
        return Conflict;
      }
      return CancelledJobs(1);
    }
  }
}
