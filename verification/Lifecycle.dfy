/** The life of one job: its row, every change the system can make to the row, and the
    sequence of changes (the "life") a job goes through from its insert to its purge.

    One row change is an `Act` that happens at a time. `Guard` says when the change is
    made and `Effect` what the row becomes; the theorems are about whole lives. */
module Lifecycle {
  type Uuid = nat
  type Time = int  // nanoseconds on one monotone clock

  datatype Option<+T> = None | Some(value: T)

  const SECOND: Time := 1_000_000_000
  const MINUTE: Time := 60 * SECOND
  const MAX_SMALLINT := 32767

  datatype Status = Pending | Queued | Scheduled | Running | Completed | Failed | Cancelled

  /** One row of the jobs table. */
  datatype Row = Row(
    status: Status,
    kind: string,
    payload: Option<string>,
    queue: string,
    priority: int,
    attempts: int,
    maxRetry: int,
    worker: Option<string>,
    token: Option<Uuid>,
    key: Option<string>,
    owner: Option<Uuid>,
    cron: Option<string>,
    tz: string,
    series: Option<Uuid>,
    recurring: bool,
    scheduledAt: Option<Time>,
    notBefore: Option<Time>,
    createdAt: Time,
    startedAt: Option<Time>,
    completedAt: Option<Time>,
    heartbeatAt: Option<Time>,
    lastError: Option<string>)

  datatype Act =
    | Create(row: Row)
    | Claim(worker: string, token: Uuid)
    | Beat(token: Uuid)
    | Finish(token: Uuid)
    | Fail(token: Uuid, error: string)
    | Promote(now: Time)
    | Mature(now: Time)
    | Reclaim(cutoff: Time)
    | Replay
    | Cancel
    | Purge(cutoff: Time)

  lemma SubsetSize<T>(a: set<T>, b: set<T>)
    requires a <= b
    ensures |a| <= |b|
  {
    if a != {} {
      var x :| x in a;
      SubsetSize(a - {x}, b - {x});
    }
  }

  lemma FreshId(used: set<Uuid>)
    ensures exists x: Uuid :: x !in used
  {
    var bound := Above(used);
    assert bound !in used;
  }

  ghost function Above(used: set<Uuid>): (b: Uuid)
    ensures forall x | x in used :: x < b
  {
    if used == {} then 0
    else
      var x :| x in used;
      var b := Above(used - {x});
      assert forall y | y in used :: y == x || y in used - {x};
      if x < b then b else x + 1
  }

  // ---------- retry backoff ----------

  function Pow2(n: nat): (p: nat)
    ensures p >= 1
  {
    if n == 0 then 1 else 2 * Pow2(n - 1)
  }

  function MinAttemptShift(attempt: int): nat {
    if attempt < 0 then 0 else if attempt > 5 then 5 else attempt
  }

  function RetryBackoff(attempt: int): Time {
    var d := 10 * SECOND * Pow2(MinAttemptShift(attempt));
    if d > 5 * MINUTE then 5 * MINUTE else d
  }

  lemma {:induction false} Pow2Monotone(a: nat, b: nat)
    requires a <= b
    ensures Pow2(a) <= Pow2(b)
  {
    if a < b { Pow2Monotone(a, b - 1); }
  }

  /** Clamping the shift at 5 never changes the delay: it is min(5m, 10s * 2^attempt). */
  lemma BackoffIsCappedExponential(attempt: nat)
    ensures RetryBackoff(attempt) ==
            if 10 * SECOND * Pow2(attempt) > 5 * MINUTE then 5 * MINUTE else 10 * SECOND * Pow2(attempt)
  {
    assert Pow2(5) == 2 * Pow2(4) == 4 * Pow2(3) == 8 * Pow2(2) == 32;
    if attempt > 5 { Pow2Monotone(5, attempt); }
  }

  /** The delays themselves: 10s, doubling with each attempt, and 5 minutes from the fifth on. */
  lemma BackoffDelays(attempt: int)
    ensures RetryBackoff(attempt) ==
            if attempt <= 0 then 10_000_000_000
            else if attempt == 1 then 20_000_000_000
            else if attempt == 2 then 40_000_000_000
            else if attempt == 3 then 80_000_000_000
            else if attempt == 4 then 160_000_000_000
            else 300_000_000_000
  {
    assert Pow2(1) == 2 * Pow2(0) == 2;
    assert Pow2(3) == 2 * Pow2(2) == 4 * Pow2(1);
    assert Pow2(5) == 2 * Pow2(4) == 4 * Pow2(3);
  }

  // ---------- one change of one row ----------

  predicate Claimable(s: Status) {
    s == Pending || s == Queued || s == Scheduled
  }

  predicate GateOpen(r: Row, at: Time) {
    r.notBefore.Some? ==> r.notBefore.value <= at
  }

  predicate HeldBy(r: Row, token: Uuid) {
    r.status == Running && r.token == Some(token)
  }

  /** What the API and the series follow-up insert. */
  predicate NewRow(r: Row, at: Time) {
    && (r.status == Pending || r.status == Scheduled)
    && r.attempts == 0 && r.maxRetry != 0 && -MAX_SMALLINT - 1 <= r.maxRetry <= MAX_SMALLINT
    && r.worker == None && r.token == None && r.notBefore == None && r.startedAt == None
    && r.completedAt == None && r.heartbeatAt == None && r.lastError == None
    && r.createdAt <= at
    && (r.status == Scheduled ==> r.scheduledAt.Some?)
    && (r.status == Pending && r.scheduledAt.Some? ==> r.scheduledAt.value <= at + MINUTE)
    && (r.recurring <==> r.series.Some?)
    && (r.recurring ==> r.status == Scheduled && r.cron.Some? && r.cron.value != "" && r.key != Some(""))
  }

  /** When a change is made to the row (`None`: no such row). A claim of a row whose
      attempt_count is already the largest SMALLINT is refused by the database. */
  predicate Guard(before: Option<Row>, act: Act, at: Time) {
    match before
    case None => act.Create? && NewRow(act.row, at)
    case Some(r) =>
      match act
      case Create(_) => false
      case Claim(_, _) => Claimable(r.status) && GateOpen(r, at) && r.attempts < MAX_SMALLINT
      case Beat(token) => HeldBy(r, token)
      case Finish(token) => HeldBy(r, token)
      case Fail(token, _) => HeldBy(r, token)
      case Promote(now) => r.status == Scheduled && r.scheduledAt.Some? && r.scheduledAt.value <= now <= at
      case Mature(now) =>
        (r.status == Pending || r.status == Queued) && r.notBefore.Some? && r.notBefore.value <= now <= at
      case Reclaim(cutoff) => r.status == Running && r.heartbeatAt.Some? && r.heartbeatAt.value < cutoff
      case Replay => r.status == Failed
      case Cancel => Claimable(r.status)
      case Purge(cutoff) =>
        (r.status == Completed || r.status == Cancelled) && r.completedAt.Some? && r.completedAt.value < cutoff
  }

  function Coalesce(t: Option<Time>, at: Time): Option<Time> {
    if t.Some? then t else Some(at)
  }

  function AfterFail(r: Row, error: string, at: Time): Row {
    var exhausted := r.attempts >= r.maxRetry;
    r.(status := if exhausted then Failed else Pending,
       token := None,
       lastError := if error == "" then None else Some(error),
       notBefore := if exhausted then None else Some(at + RetryBackoff(r.attempts)),
       completedAt := if exhausted then Some(at) else r.completedAt)
  }

  function Effect(before: Option<Row>, act: Act, at: Time): Option<Row>
    requires Guard(before, act, at)
  {
    match act
    case Create(row) => Some(row)
    case Claim(worker, token) =>
      var r := before.value;
      Some(r.(status := Running, worker := Some(worker), token := Some(token),
              startedAt := Coalesce(r.startedAt, at), heartbeatAt := Some(at),
              notBefore := None, attempts := r.attempts + 1))
    case Beat(_) => Some(before.value.(heartbeatAt := Some(at)))
    case Finish(_) => Some(before.value.(status := Completed, completedAt := Some(at)))
    case Fail(_, error) => Some(AfterFail(before.value, error, at))
    case Promote(_) => Some(before.value.(status := Pending))
    case Mature(_) => Some(before.value.(notBefore := None))
    case Reclaim(_) => Some(before.value.(status := Pending, worker := None, token := None))
    case Replay =>
      Some(before.value.(status := Pending, attempts := 0, token := None, worker := None,
                         lastError := None, notBefore := None, completedAt := None))
    case Cancel => Some(before.value.(status := Cancelled, completedAt := Some(at)))
    case Purge(_) => None
  }

  // ---------- lives ----------

  datatype Change = Change(id: Uuid, act: Act, at: Time, before: Option<Row>, after: Option<Row>)

  predicate Fits(c: Change) {
    Guard(c.before, c.act, c.at) && c.after == Effect(c.before, c.act, c.at)
  }

  function Final(l: seq<Change>): Option<Row> {
    if l == [] then None else l[|l| - 1].after
  }

  /** Every claim token handed out in a life. */
  function Issued(l: seq<Change>): set<Uuid> {
    if l == [] then {}
    else Issued(l[..|l| - 1]) + if l[|l| - 1].act.Claim? then {l[|l| - 1].act.token} else {}
  }

  /** A life: each change fits, starts from the row the previous one left, time never
      goes back, the insert comes first and only first, and claim tokens are fresh. */
  ghost predicate IsLife(l: seq<Change>) {
    l == [] ||
    var p, c := l[..|l| - 1], l[|l| - 1];
    && IsLife(p)
    && Fits(c) && c.before == Final(p)
    && (c.act.Create? <==> p == [])
    && (p != [] ==> p[|p| - 1].at <= c.at)
    && (c.act.Claim? ==> c.act.token !in Issued(p))
  }

  /** The row a life was inserted with. */
  ghost function Born(l: seq<Change>): Row
    requires IsLife(l) && l != []
  {
    if |l| == 1 then l[0].act.row else Born(l[..|l| - 1])
  }

  lemma {:induction false} LifePrefix(l: seq<Change>, k: nat)
    requires IsLife(l) && k <= |l|
    ensures IsLife(l[..k])
  {
    if k < |l| {
      LifePrefix(l[..|l| - 1], k);
      assert l[..|l| - 1][..k] == l[..k];
    } else {
      assert l[..k] == l;
    }
  }

  /** What holds around change i of a life. */
  lemma LifeAt(l: seq<Change>, i: nat)
    requires IsLife(l) && i < |l|
    ensures IsLife(l[..i]) && IsLife(l[..i + 1]) && Final(l[..i + 1]) == l[i].after
    ensures Fits(l[i]) && l[i].before == Final(l[..i])
    ensures Issued(l[..i + 1]) == Issued(l[..i]) + if l[i].act.Claim? then {l[i].act.token} else {}
  {
    LifePrefix(l, i);
    LifePrefix(l, i + 1);
    assert l[..i + 1][..i] == l[..i];
  }

  lemma {:induction false} TimesGrow(l: seq<Change>, i: nat, j: nat)
    requires IsLife(l) && i <= j < |l|
    ensures l[i].at <= l[j].at
  {
    if i < j {
      LifePrefix(l, j + 1);
      assert l[..j + 1][..j] == l[..j];
      LifePrefix(l, j);
      TimesGrow(l[..j], i, j - 1);
    }
  }

  lemma {:induction false} BornPrefix(l: seq<Change>, k: nat)
    requires IsLife(l) && 0 < k <= |l|
    ensures IsLife(l[..k]) && Born(l[..k]) == Born(l)
  {
    if k < |l| {
      BornPrefix(l[..|l| - 1], k);
      assert l[..|l| - 1][..k] == l[..k];
    } else {
      assert l[..k] == l;
    }
  }

  lemma {:induction false} BornIsFirst(l: seq<Change>)
    requires IsLife(l) && l != []
    ensures l[0].act == Create(Born(l))
  {
    if |l| > 1 { BornIsFirst(l[..|l| - 1]); }
  }

  lemma LifeExtend(l: seq<Change>, c: Change)
    requires IsLife(l) && Fits(c) && c.before == Final(l)
    requires l != [] ==> l[|l| - 1].at <= c.at
    requires c.act.Create? <==> l == []
    requires c.act.Claim? ==> c.act.token !in Issued(l)
    ensures IsLife(l + [c]) && Final(l + [c]) == c.after
    ensures Issued(l + [c]) == Issued(l) + if c.act.Claim? then {c.act.token} else {}
    ensures Log(l + [c]) == Log(l) + EventsFor(c.id, c.before, c.act, c.at)
  {
    var m := l + [c];
    assert m != [] && m[..|m| - 1] == l && m[|m| - 1] == c;
    assert IsLife(m);
    assert Log(m) == Log(l) + EventsFor(c.id, c.before, c.act, c.at);
  }

  // ---------- row shape ----------

  /** Which columns are set in which status. */
  predicate Shape(r: Row, clock: Time) {
    && (r.token.Some? <==> r.status == Running || r.status == Completed)
    && (r.completedAt.Some? <==> r.status == Completed || r.status == Failed || r.status == Cancelled)
    && (r.notBefore.Some? ==> r.status == Pending || r.status == Cancelled)
    && (r.status == Running ==> r.worker.Some? && r.startedAt.Some? && r.heartbeatAt.Some?)
    && (r.startedAt.Some? <==> r.heartbeatAt.Some?)
    && (r.startedAt.Some? ==> r.startedAt.value <= r.heartbeatAt.value <= clock)
    && (r.completedAt.Some? ==> r.completedAt.value <= clock)
    && r.createdAt <= clock
    && (r.status == Scheduled ==> r.scheduledAt.Some? && r.attempts == 0 && r.startedAt == None)
    && r.status != Queued
    && 0 <= r.attempts <= MAX_SMALLINT
    && (r.status == Running || r.status == Completed || r.status == Failed ==> r.attempts >= 1)
    && r.maxRetry != 0 && -MAX_SMALLINT - 1 <= r.maxRetry <= MAX_SMALLINT
    && (r.recurring <==> r.series.Some?)
    && (r.recurring ==> r.cron.Some? && r.cron.value != "" && r.scheduledAt.Some?)
  }

  /** No change of a life touches the columns fixed at the insert. */
  predicate SameIdentity(r: Row, born: Row) {
    && r.kind == born.kind && r.payload == born.payload && r.queue == born.queue
    && r.priority == born.priority && r.maxRetry == born.maxRetry && r.key == born.key
    && r.owner == born.owner && r.cron == born.cron && r.tz == born.tz && r.series == born.series
    && r.recurring == born.recurring && r.scheduledAt == born.scheduledAt && r.createdAt == born.createdAt
  }

  lemma ChangeKeepsIdentity(c: Change)
    requires Fits(c) && c.before.Some? && c.after.Some?
    ensures SameIdentity(c.after.value, c.before.value)
  {
    match c.act
    case Claim(_, _) =>
    case Fail(_, _) =>
    case Replay =>
    case _ =>
  }

  lemma InsertHasShape(c: Change)
    requires Fits(c) && c.before == None
    ensures c.after.Some? && Shape(c.after.value, c.at)
  {
  }

  /** Each mutator keeps the row's shape. */
  lemma ChangeKeepsShape(c: Change, t: Time)
    requires Fits(c) && c.before.Some? && Shape(c.before.value, t) && t <= c.at
    ensures c.after.Some? ==> Shape(c.after.value, c.at)
  {
    match c.act
    case Claim(_, _) =>
    case Beat(_) =>
    case Finish(_) =>
    case Fail(_, _) =>
    case _ =>
  }

  /** All ten mutators keep the row's shape, in every life. */
  lemma {:induction false} ShapeHolds(l: seq<Change>)
    requires IsLife(l) && l != []
    ensures Final(l).Some? ==> Shape(Final(l).value, l[|l| - 1].at)
    ensures Final(l).Some? ==> SameIdentity(Final(l).value, Born(l))
  {
    var p, c := l[..|l| - 1], l[|l| - 1];
    if p == [] {
      InsertHasShape(c);
    } else {
      ShapeHolds(p);
      if c.before.Some? && c.after.Some? {
        ChangeKeepsShape(c, p[|p| - 1].at);
        ChangeKeepsIdentity(c);
      }
    }
  }

  // ---------- audit log ----------

  datatype Event = Event(id: Uuid, oldStatus: Option<Status>, newStatus: Status, at: Time)

  /** The job_events row a change appends, if any: heartbeats, gate openings and purges
      leave no trace. */
  function EventsFor(id: Uuid, before: Option<Row>, act: Act, at: Time): seq<Event>
    requires Guard(before, act, at)
  {
    match act
    case Create(row) => [Event(id, None, row.status, at)]
    case Beat(_) => []
    case Mature(_) => []
    case Purge(_) => []
    case _ => [Event(id, Some(before.value.status), Effect(before, act, at).value.status, at)]
  }

  function Log(l: seq<Change>): seq<Event>
    requires IsLife(l)
  {
    if l == [] then []
    else
      var c := l[|l| - 1];
      Log(l[..|l| - 1]) + EventsFor(c.id, c.before, c.act, c.at)
  }

  /** The events form one chain of statuses starting from nothing. */
  predicate Linked(log: seq<Event>) {
    log == [] ||
    var p := log[..|log| - 1];
    Linked(p) && log[|log| - 1].oldStatus == if p == [] then None else Some(p[|p| - 1].newStatus)
  }

  /** Entries into running since the last manual replay. */
  function RunsSinceReplay(log: seq<Event>): nat {
    if log == [] then 0
    else
      var e := log[|log| - 1];
      var n := RunsSinceReplay(log[..|log| - 1]);
      if e.oldStatus == Some(Failed) && e.newStatus == Pending then 0
      else if e.newStatus == Running then n + 1
      else n
  }

  /** Reading a job's audit log from the start gives back the row's status and its
      attempt_count; the log of a purged job ends in completed or cancelled. */
  lemma {:induction false} AuditLogReplays(l: seq<Change>)
    requires IsLife(l) && l != []
    ensures var log := Log(l);
            && log != [] && Linked(log)
            && match Final(l)
               case Some(r) => log[|log| - 1].newStatus == r.status && RunsSinceReplay(log) == r.attempts
               case None => log[|log| - 1].newStatus == Completed || log[|log| - 1].newStatus == Cancelled
  {
    var n := |l| - 1;
    if n == 0 {
      assert Log(l[..0]) == [];
      assert Log(l)[..0] == [];
      assert Linked(Log(l)[..0]);
    } else {
      AuditLogReplays(l[..n]);
      assert Log(l) == Log(l[..n]) + EventsFor(l[n].id, l[n].before, l[n].act, l[n].at);
      LogStep(Log(l[..n]), l[n]);
    }
  }

  /** A log that tells the row before a change tells the row after it, with the change's event. */
  lemma LogStep(log: seq<Event>, c: Change)
    requires Fits(c) && c.before.Some? && log != [] && Linked(log)
    requires log[|log| - 1].newStatus == c.before.value.status && RunsSinceReplay(log) == c.before.value.attempts
    ensures var more := log + EventsFor(c.id, c.before, c.act, c.at);
            && more != [] && Linked(more)
            && match c.after
               case Some(r) => more[|more| - 1].newStatus == r.status && RunsSinceReplay(more) == r.attempts
               case None => more[|more| - 1].newStatus == Completed || more[|more| - 1].newStatus == Cancelled
  {
    var e := EventsFor(c.id, c.before, c.act, c.at);
    if e != [] { assert (log + e)[..|log|] == log; } else { assert log + e == log; }
  }

  predicate LeavesEvent(c: Change) {
    !c.act.Beat? && !c.act.Mature? && !c.act.Purge?
  }

  /** The audit log is kept as it happens: its latest event has the time and the job of the latest
      change that leaves one. */
  lemma {:induction false} EventsAreTimed(l: seq<Change>)
    requires IsLife(l) && l != []
    ensures var log, last := Log(l), Latest(l, LeavesEvent);
            && log != [] && last.Some?
            && log[|log| - 1].at == last.value.at && log[|log| - 1].id == last.value.id
  {
    var n := |l| - 1;
    if n > 0 {
      EventsAreTimed(l[..n]);
    } else {
      assert Log(l[..0]) == [];
    }
  }

  // ---------- token fencing ----------

  ghost predicate Holds(l: seq<Change>, token: Uuid) {
    Final(l).Some? && HeldBy(Final(l).value, token)
  }

  predicate UsesToken(c: Change, token: Uuid) {
    c.act == Beat(token) || c.act == Finish(token) || (c.act.Fail? && c.act.token == token)
  }

  /** A successful Complete or FailOrRetry with the token, or a reclaim of its holder. */
  predicate EndsToken(c: Change, token: Uuid) {
    || c.act == Finish(token)
    || (c.act.Fail? && c.act.token == token)
    || (c.act.Reclaim? && c.before.Some? && c.before.value.token == Some(token))
  }

  lemma {:induction false} RowTokenWasIssued(l: seq<Change>, token: Uuid)
    requires IsLife(l) && Final(l).Some? && Final(l).value.token == Some(token)
    ensures token in Issued(l)
  {
    if |l| > 1 {
      if l[|l| - 1].before.value.token == Some(token) { RowTokenWasIssued(l[..|l| - 1], token); }
    }
  }

  lemma {:induction false} IssuedGrows(l: seq<Change>, k: nat)
    requires k <= |l|
    ensures Issued(l[..k]) <= Issued(l)
  {
    if k < |l| {
      assert l[..|l| - 1][..k] == l[..k];
      IssuedGrows(l[..|l| - 1], k);
    } else {
      assert l[..k] == l;
    }
  }

  lemma DeadStep(c: Change, token: Uuid)
    requires Fits(c)
    requires c.before.Some? ==> !HeldBy(c.before.value, token)
    requires c.act.Claim? ==> c.act.token != token
    ensures !UsesToken(c, token) && !EndsToken(c, token)
    ensures c.after.Some? ==> !HeldBy(c.after.value, token)
  {
  }

  /** Only the holder itself or a reclaim takes a running row away. */
  lemma HolderStep(c: Change, token: Uuid)
    requires Fits(c) && c.before.Some? && HeldBy(c.before.value, token)
    requires c.act != Finish(token) && !(c.act.Fail? && c.act.token == token)
    ensures c.after.Some? && (HeldBy(c.after.value, token) || c.act.Reclaim?)
  {
  }

  /** A token that was handed out and is no longer held never works again. */
  lemma {:induction false} DeadTokenStaysDead(l: seq<Change>, k: nat, token: Uuid)
    requires IsLife(l) && k <= |l|
    requires token in Issued(l[..k]) && !Holds(l[..k], token)
    ensures !Holds(l, token)
    ensures forall j | k <= j < |l| :: !UsesToken(l[j], token) && !EndsToken(l[j], token)
  {
    if k < |l| {
      var p := l[..|l| - 1];
      assert p[..k] == l[..k];
      DeadTokenStaysDead(p, k, token);
      IssuedGrows(p, k);
      DeadStep(l[|l| - 1], token);
    } else {
      assert l[..k] == l;
    }
  }

  /** At most one of Complete, FailOrRetry and reclaim succeeds for a token, and after it
      every heartbeat, completion and failure with that token is refused for good. */
  lemma TokenEndsOnce(l: seq<Change>, i: nat, j: nat, token: Uuid)
    requires IsLife(l) && i < j < |l| && EndsToken(l[i], token)
    ensures !EndsToken(l[j], token) && !UsesToken(l[j], token)
  {
    LifeAt(l, i);
    RowTokenWasIssued(l[..i], token);
    DeadTokenStaysDead(l, i + 1, token);
  }

  lemma LaterChange(l: seq<Change>, k: nat)
    requires IsLife(l) && 0 < k < |l|
    ensures Fits(l[k]) && l[k].before == l[k - 1].after && !l[k].act.Create?
  {
    LifeAt(l, k - 1);
    LifeAt(l, k);
    assert l[..k + 1][..k] == l[..k];
  }

  /** After completed or cancelled the only possible change is the purge, and nothing follows it. */
  lemma TerminalIsFinal(l: seq<Change>, i: nat, j: nat)
    requires IsLife(l) && i < j < |l|
    requires l[i].after.Some? && (l[i].after.value.status == Completed || l[i].after.value.status == Cancelled)
    ensures j == i + 1 == |l| - 1 && l[j].act.Purge?
  {
    LaterChange(l, i + 1);
    assert l[i + 1].act.Purge? && l[i + 1].after == None;
    if i + 2 < |l| { LaterChange(l, i + 2); }
  }

  // ---------- backoff ----------

  /** FailOrRetry with attempts left. */
  predicate SentBack(c: Change) {
    c.act.Fail? && c.before.Some? && c.after.Some? && c.after.value.status == Pending
  }

  /** After the gate g was set the job is gated, or the gate time has passed, or it is over. */
  lemma {:induction false} GateIsKept(l: seq<Change>, i: nat, g: Time)
    requires IsLife(l) && i < |l|
    requires SentBack(l[i]) && l[i].after.value.notBefore == Some(g)
    ensures var last := l[|l| - 1];
            || last.after == None
            || last.at >= g
            || (last.after.value.status == Pending && last.after.value.notBefore == Some(g))
            || last.after.value.status == Cancelled
  {
    var n := |l| - 1;
    if i < n {
      GateIsKept(l[..n], i, g);
    }
  }

  lemma SentBackGate(c: Change)
    requires Fits(c) && SentBack(c)
    ensures c.after.value.notBefore == Some(c.at + RetryBackoff(c.before.value.attempts))
  {
  }

  lemma ClaimWaitsForGate(c: Change, g: Time)
    requires Fits(c) && c.act.Claim?
    ensures c.before.Some? && Claimable(c.before.value.status)
    ensures c.before.value.notBefore == Some(g) ==> c.at >= g
  {
  }

  lemma GatedClaimWaits(l: seq<Change>, i: nat, j: nat, g: Time)
    requires IsLife(l) && i < j < |l| && l[j].act.Claim?
    requires SentBack(l[i]) && l[i].after.value.notBefore == Some(g)
    ensures l[j].at >= g
  {
    assert IsLife(l[..j]) && Fits(l[j]) && l[j].before == Final(l[..j]) && l[..j][|l[..j]| - 1].at <= l[j].at by {
      LifeAt(l, j);
      TimesGrow(l, j - 1, j);
    }
    assert l[..j][i] == l[i];
    GateIsKept(l[..j], i, g);
    ClaimWaitsForGate(l[j], g);
  }

  /** A job sent back to pending by FailOrRetry is not claimed again before its backoff
      is over, whatever happens in between. */
  lemma BackoffIsRespected(l: seq<Change>, i: nat, j: nat)
    requires IsLife(l) && i < j < |l|
    requires SentBack(l[i]) && l[j].act.Claim?
    ensures l[j].at >= l[i].at + RetryBackoff(l[i].before.value.attempts)
  {
    assert Fits(l[i]) by { LifeAt(l, i); }
    SentBackGate(l[i]);
    GatedClaimWaits(l, i, j, l[i].at + RetryBackoff(l[i].before.value.attempts));
  }

  // ---------- scheduled jobs do not run early ----------

  ghost predicate NeverClaimedFromScheduled(l: seq<Change>) {
    forall i | 0 <= i < |l| && l[i].act.Claim? && l[i].before.Some? :: l[i].before.value.status != Scheduled
  }

  lemma {:induction false} ScheduledUntilDue(l: seq<Change>)
    requires IsLife(l) && l != [] && NeverClaimedFromScheduled(l) && Born(l).status == Scheduled
    requires Born(l).scheduledAt.Some?
    ensures var last := l[|l| - 1];
            || last.after == None
            || last.at >= Born(l).scheduledAt.value
            || last.after.value.status == Cancelled
            || last.after.value.status == Scheduled
  {
    var n := |l| - 1;
    if n > 0 { ScheduledUntilDue(l[..n]); }
  }

  /** Provided it is never claimed straight out of scheduled, a job created scheduled is
      not claimed before its time, and one created pending at most a minute early. */
  lemma NotClaimedEarly(l: seq<Change>, j: nat)
    requires IsLife(l) && j < |l| && NeverClaimedFromScheduled(l) && l[j].act.Claim?
    requires Born(l).scheduledAt.Some?
    ensures l[j].at >= Born(l).scheduledAt.value - if Born(l).status == Scheduled then 0 else MINUTE
  {
    LifeAt(l, 0);
    LifeAt(l, j);
    TimesGrow(l, 0, j);
    BornPrefix(l, 1);
    assert l[..1][..0] == [];
    BornPrefix(l, j);
    if Born(l).status == Scheduled {
      TimesGrow(l, j - 1, j);
      ScheduledUntilDue(l[..j]);
    }
  }

  // ---------- bounded attempts ----------

  function Count(l: seq<Change>, p: Change -> bool): nat {
    if l == [] then 0 else Count(l[..|l| - 1], p) + if p(l[|l| - 1]) then 1 else 0
  }

  predicate IsClaim(c: Change) { c.act.Claim? }
  predicate IsReplay(c: Change) { c.act.Replay? }
  predicate IsReclaim(c: Change) { c.act.Reclaim? }

  /** The attempts one replay-free stretch may use: max(1, max_retry). */
  function Budget(r: Row): (b: nat)
    ensures b >= 1
  {
    if r.maxRetry > 1 then r.maxRetry else 1
  }

  /** What a change does to attempt_count, and when it makes a row claimable. */
  lemma AttemptsStep(c: Change)
    requires Fits(c) && c.before.Some?
    ensures IsClaim(c) ==> Claimable(c.before.value.status) && c.after.Some?
    ensures c.after.Some? ==> var r, r' := c.before.value, c.after.value;
              && Budget(r') == Budget(r)
              && r'.attempts == (if IsClaim(c) then r.attempts + 1 else if IsReplay(c) then 0 else r.attempts)
              && (Claimable(r'.status) ==>
                    !IsClaim(c) && (IsReplay(c) || IsReclaim(c) || Claimable(r.status) || r.attempts < Budget(r)))
  {
  }

  lemma Distribute(k: nat, b: nat)
    ensures (k + 1) * b == k * b + b
  {
  }

  lemma {:induction false} ClaimsWithinBudget(l: seq<Change>)
    requires IsLife(l) && l != []
    ensures var used, allowed := Count(l, IsClaim), Count(l, IsReplay) * Budget(Born(l)) + Count(l, IsReclaim);
            && used <= allowed + Budget(Born(l))
            && (Final(l).Some? ==> used <= allowed + Final(l).value.attempts)
            && (Final(l).Some? && Claimable(Final(l).value.status) ==> used < allowed + Budget(Born(l)))
  {
    var n := |l| - 1;
    if n > 0 {
      ShapeHolds(l[..n]);
      ClaimsWithinBudget(l[..n]);
      if l[n].before.Some? { AttemptsStep(l[n]); }
      Distribute(Count(l[..n], IsReplay), Budget(Born(l)));
    } else {
      assert Count(l[..0], IsClaim) == Count(l[..0], IsReplay) == Count(l[..0], IsReclaim) == 0;
    }
  }

  /** With R reclaims and M replays a job is claimed at most (M+1) * max(1, max_retry) + R times. */
  lemma AttemptsAreBounded(l: seq<Change>)
    requires IsLife(l) && l != []
    ensures Count(l, IsClaim) <= (Count(l, IsReplay) + 1) * Budget(Born(l)) + Count(l, IsReclaim)
  {
    ClaimsWithinBudget(l);
    Distribute(Count(l, IsReplay), Budget(Born(l)));
  }

  function AttemptsLeft(r: Row): nat {
    if r.attempts >= Budget(r) then 0 else Budget(r) - r.attempts
  }

  function Rank(s: Status): nat {
    match s
    case Scheduled => 2 case Running => 2
    case Pending => 1 case Queued => 1
    case _ => 0
  }

  lemma {:induction false} NoRescueMeansAttemptsLeft(l: seq<Change>)
    requires IsLife(l) && l != []
    requires forall i | 0 <= i < |l| :: !IsReclaim(l[i])
    ensures Final(l).Some? && Claimable(Final(l).value.status) ==> AttemptsLeft(Final(l).value) >= 1
  {
    var n := |l| - 1;
    if n > 0 {
      NoRescueMeansAttemptsLeft(l[..n]);
    }
  }

  /** Without reclaims and replays every status change makes progress: (attempts left, rank)
      strictly decreases in the lexicographic order. */
  lemma StatusChangesMakeProgress(l: seq<Change>, j: nat)
    requires IsLife(l) && 0 < j < |l|
    requires forall i | 0 <= i < |l| :: !IsReclaim(l[i]) && !IsReplay(l[i])
    requires l[j].before.Some? && l[j].after.Some? && l[j].after.value.status != l[j].before.value.status
    ensures var r, r' := l[j].before.value, l[j].after.value;
            || AttemptsLeft(r') < AttemptsLeft(r)
            || (AttemptsLeft(r') == AttemptsLeft(r) && Rank(r'.status) < Rank(r.status))
  {
    assert Fits(l[j]) && l[j].before == Final(l[..j]) && IsLife(l[..j]) by { LifeAt(l, j); }
    NoRescueMeansAttemptsLeft(l[..j]);
    ChangeMakesProgress(l[j]);
  }

  lemma ChangeMakesProgress(c: Change)
    requires Fits(c) && c.before.Some? && c.after.Some? && c.after.value.status != c.before.value.status
    requires !IsReclaim(c) && !IsReplay(c)
    requires Claimable(c.before.value.status) ==> AttemptsLeft(c.before.value) >= 1
    ensures var r, r' := c.before.value, c.after.value;
            || AttemptsLeft(r') < AttemptsLeft(r)
            || (AttemptsLeft(r') == AttemptsLeft(r) && Rank(r'.status) < Rank(r.status))
  {
  }

  // ---------- tokens of one stretch ----------

  /** Tokens claimed since the last replay. */
  function EpochTokens(l: seq<Change>): set<Uuid> {
    if l == [] then {}
    else
      var c := l[|l| - 1];
      if c.act.Replay? then {}
      else EpochTokens(l[..|l| - 1]) + if c.act.Claim? then {c.act.token} else {}
  }

  function ReclaimedTokens(l: seq<Change>): set<Uuid> {
    if l == [] then {}
    else
      var c := l[|l| - 1];
      ReclaimedTokens(l[..|l| - 1]) +
      if c.act.Reclaim? && c.before.Some? && c.before.value.token.Some? then {c.before.value.token.value} else {}
  }

  /** attempt_count is the number of distinct tokens issued since the last replay. */
  lemma {:induction false} AttemptsCountTokens(l: seq<Change>)
    requires IsLife(l) && l != []
    ensures EpochTokens(l) <= Issued(l)
    ensures Final(l).Some? ==> |EpochTokens(l)| == Final(l).value.attempts
  {
    var n := |l| - 1;
    if n > 0 {
      AttemptsCountTokens(l[..n]);
    } else {
      assert EpochTokens(l[..0]) == {};
    }
  }

  lemma {:induction false} ReclaimedTokensAreFew(l: seq<Change>)
    ensures |ReclaimedTokens(l)| <= Count(l, IsReclaim)
  {
    if l != [] { ReclaimedTokensAreFew(l[..|l| - 1]); }
  }

  // ---------- every column tells the history ----------

  /** The latest change of a life that p picks. */
  function Latest(l: seq<Change>, p: Change -> bool): Option<Change> {
    if l == [] then None
    else if p(l[|l| - 1]) then Some(l[|l| - 1])
    else Latest(l[..|l| - 1], p)
  }

  function FirstClaim(l: seq<Change>): Option<Time> {
    if l == [] then None
    else
      var earlier := FirstClaim(l[..|l| - 1]);
      if earlier.Some? then earlier else if l[|l| - 1].act.Claim? then Some(l[|l| - 1].at) else None
  }

  predicate Refreshes(c: Change) { c.act.Claim? || c.act.Beat? }
  predicate MovesWorker(c: Change) { c.act.Claim? || c.act.Reclaim? || c.act.Replay? }
  predicate MovesError(c: Change) { c.act.Fail? || c.act.Replay? }
  predicate MovesGate(c: Change) { c.act.Claim? || c.act.Fail? || c.act.Mature? || c.act.Replay? }

  predicate Ended(s: Status) {
    s == Completed || s == Failed || s == Cancelled
  }

  /** completed_at is the time the job ended, and is set only once it has. */
  lemma {:induction false} EndIsTimed(l: seq<Change>)
    requires IsLife(l) && l != [] && Final(l).Some?
    ensures Final(l).value.completedAt == if Ended(Final(l).value.status) then Some(l[|l| - 1].at) else None
  {
    var n := |l| - 1;
    if n > 0 { EndIsTimed(l[..n]); }
  }

  /** started_at is the first claim, heartbeat_at the latest claim or beat. */
  lemma {:induction false} ClockColumnsTell(l: seq<Change>)
    requires IsLife(l) && l != [] && Final(l).Some?
    ensures Final(l).value.startedAt == FirstClaim(l)
    ensures var beat := Latest(l, Refreshes);
            Final(l).value.heartbeatAt == if beat.Some? then Some(beat.value.at) else None
  {
    var n := |l| - 1;
    if n > 0 {
      ClockColumnsTell(l[..n]);
    } else {
      assert FirstClaim(l[..0]) == None && Latest(l[..0], Refreshes) == None;
    }
  }

  /** The worker is the latest claim's until the job is reclaimed or replayed, and the token is
      the latest claim's while the job runs and once it is completed. */
  lemma {:induction false} OwnerColumnsTell(l: seq<Change>)
    requires IsLife(l) && l != [] && Final(l).Some?
    ensures var last := Latest(l, MovesWorker);
            Final(l).value.worker == if last.Some? && last.value.act.Claim? then Some(last.value.act.worker) else None
    ensures var held := Final(l).value.status == Running || Final(l).value.status == Completed;
            var last := Latest(l, IsClaim);
            && (held ==> last.Some? && last.value.act.Claim? && Final(l).value.token == Some(last.value.act.token))
            && (!held ==> Final(l).value.token == None)
  {
    var n := |l| - 1;
    if n > 0 {
      OwnerColumnsTell(l[..n]);
    } else {
      assert Latest(l[..0], MovesWorker) == None && Latest(l[..0], IsClaim) == None;
    }
  }

  /** last_error is what the latest failure since the last replay reported. */
  lemma {:induction false} ErrorColumnTells(l: seq<Change>)
    requires IsLife(l) && l != [] && Final(l).Some?
    ensures var last := Latest(l, MovesError);
            Final(l).value.lastError ==
            if last.Some? && last.value.act.Fail? && last.value.act.error != ""
            then Some(last.value.act.error) else None
  {
    var n := |l| - 1;
    if n > 0 {
      ErrorColumnTells(l[..n]);
    } else {
      assert Latest(l[..0], MovesError) == None;
    }
  }

  /** The gate is the latest failure's time plus its delay, unless that failure was final, or the
      job was claimed, opened or replayed since. */
  lemma {:induction false} GateColumnTells(l: seq<Change>)
    requires IsLife(l) && l != [] && Final(l).Some?
    ensures var last := Latest(l, MovesGate);
            Final(l).value.notBefore ==
            if last.Some? && last.value.act.Fail? && last.value.before.Some? &&
               last.value.before.value.attempts < last.value.before.value.maxRetry
            then Some(last.value.at + RetryBackoff(last.value.before.value.attempts)) else None
  {
    var n := |l| - 1;
    if n > 0 {
      GateColumnTells(l[..n]);
    } else {
      assert Latest(l[..0], MovesGate) == None;
    }
  }

  /** All columns that changes write, read off the life. */
  predicate TellsHistory(r: Row, l: seq<Change>)
    requires l != []
  {
    var beat, owner, claim := Latest(l, Refreshes), Latest(l, MovesWorker), Latest(l, IsClaim);
    var failure, gate := Latest(l, MovesError), Latest(l, MovesGate);
    && r.startedAt == FirstClaim(l)
    && r.completedAt == (if Ended(r.status) then Some(l[|l| - 1].at) else None)
    && r.heartbeatAt == (if beat.Some? then Some(beat.value.at) else None)
    && r.worker == (if owner.Some? && owner.value.act.Claim? then Some(owner.value.act.worker) else None)
    && (if r.status == Running || r.status == Completed
        then claim.Some? && claim.value.act.Claim? && r.token == Some(claim.value.act.token)
        else r.token == None)
    && r.lastError == (if failure.Some? && failure.value.act.Fail? && failure.value.act.error != ""
                       then Some(failure.value.act.error) else None)
    && r.notBefore == (if gate.Some? && gate.value.act.Fail? && gate.value.before.Some? &&
                          gate.value.before.value.attempts < gate.value.before.value.maxRetry
                       then Some(gate.value.at + RetryBackoff(gate.value.before.value.attempts)) else None)
  }

  lemma ColumnsTell(l: seq<Change>)
    requires IsLife(l) && l != [] && Final(l).Some?
    ensures TellsHistory(Final(l).value, l)
  {
    EndIsTimed(l);
    ClockColumnsTell(l);
    OwnerColumnsTell(l);
    ErrorColumnTells(l);
    GateColumnTells(l);
  }

  /** The state diagram: what each change makes of the status. */
  function Target(c: Change): Option<Status>
    requires c.before.Some?
  {
    var s := c.before.value.status;
    match c.act
    case Create(_) => None
    case Claim(_, _) => if s in {Pending, Queued, Scheduled} then Some(Running) else None
    case Beat(_) => if s == Running then Some(Running) else None
    case Finish(_) => if s == Running then Some(Completed) else None
    case Fail(_, _) =>
      if s != Running then None
      else if c.before.value.attempts >= c.before.value.maxRetry then Some(Failed) else Some(Pending)
    case Promote(_) => if s == Scheduled then Some(Pending) else None
    case Mature(_) => if s in {Pending, Queued} then Some(s) else None
    case Reclaim(_) => if s == Running then Some(Pending) else None
    case Replay => if s == Failed then Some(Pending) else None
    case Cancel => if s in {Pending, Queued, Scheduled} then Some(Cancelled) else None
    case Purge(_) => None
  }

  lemma StatusFollowsDiagram(c: Change)
    requires Fits(c) && c.before.Some? && c.after.Some?
    ensures Target(c) == Some(c.after.value.status)
  {
  }

  /** A purge takes only jobs that were completed or cancelled before its cutoff, and nothing
      happened to them since. */
  lemma PurgedAfterRetention(l: seq<Change>, i: nat)
    requires IsLife(l) && i < |l| && l[i].act.Purge?
    ensures i > 0 && (l[i - 1].act.Finish? || l[i - 1].act.Cancel?) && l[i - 1].at < l[i].act.cutoff
  {
    LifeAt(l, i);
    assert i > 0;
    EndIsTimed(l[..i]);
    LifeAt(l, i - 1);
    assert l[..i][..i - 1] == l[..i - 1];
  }
}
