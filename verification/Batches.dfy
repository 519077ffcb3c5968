/** Batch transactions: which rows a locking SELECT picks, and what updating them one by
    one leaves behind. Each batch is a run of ledger steps at one clock value. */
module Batches {
  import opened Lifecycle
  import opened Ledger

  /** SELECT job_id ... WHERE wanted ORDER BY key LIMIT limit FOR UPDATE SKIP LOCKED, with
      the rows in `skipped` locked by others: `ids` is an answer the database may give. */
  ghost predicate Selects(rows: map<Uuid, Row>, wanted: Row -> bool, key: Row -> Time, skipped: set<Uuid>,
                          limit: nat, ids: seq<Uuid>) {
    && |ids| <= limit
    && (forall i | 0 <= i < |ids| :: ids[i] in rows && ids[i] !in skipped && wanted(rows[ids[i]]))
    && (forall i, j | 0 <= i < j < |ids| :: ids[i] != ids[j] && key(rows[ids[i]]) <= key(rows[ids[j]]))
    && (forall id | id in rows && id !in skipped && wanted(rows[id]) && id !in ids ::
          |ids| == limit && forall i | 0 <= i < |ids| :: key(rows[ids[i]]) <= key(rows[id]))
  }

  function ClampBatch(limit: int): nat {
    if limit <= 0 then 100 else if limit > 1000 then 1000 else limit
  }

  function ClampPurge(limit: int): nat {
    if limit <= 0 then 1000 else if limit > 10000 then 10000 else limit
  }

  // ---------- the WHERE clauses ----------

  function TimeOr0(t: Option<Time>): Time { if t.Some? then t.value else 0 }

  function DueAt(now: Time): Row -> bool {
    (r: Row) => r.status == Scheduled && r.scheduledAt.Some? && r.scheduledAt.value <= now
  }
  function ByScheduled(): Row -> Time { (r: Row) => TimeOr0(r.scheduledAt) }

  function MaturedAt(now: Time): Row -> bool {
    (r: Row) => (r.status == Pending || r.status == Queued) && r.notBefore.Some? && r.notBefore.value <= now
  }
  function ByGate(): Row -> Time { (r: Row) => TimeOr0(r.notBefore) }

  function StaleAt(cutoff: Time): Row -> bool {
    (r: Row) => r.status == Running && r.heartbeatAt.Some? && r.heartbeatAt.value < cutoff
  }
  function ByHeartbeat(): Row -> Time { (r: Row) => TimeOr0(r.heartbeatAt) }

  function StalePendingAt(olderThan: Time, at: Time): Row -> bool {
    (r: Row) => (r.status == Pending || r.status == Queued) && r.createdAt < olderThan && GateOpen(r, at)
  }
  function ByCreated(): Row -> Time { (r: Row) => r.createdAt }

  function CancellableIn(series: Uuid, owner: Option<Uuid>): Row -> bool {
    (r: Row) => r.series == Some(series) && Claimable(r.status) && (owner.Some? ==> r.owner == owner)
  }

  function ExpiredAt(before: Time): Row -> bool {
    (r: Row) => (r.status == Completed || r.status == Cancelled) && r.completedAt.Some? && r.completedAt.value < before
  }
  function ByCompleted(): Row -> Time { (r: Row) => TimeOr0(r.completedAt) }

  // ---------- what the queries return, in the columns themselves ----------

  /** Batch sizes: 100 unless given, never more than 1000; a purge 1000, never more than 10000. */
  lemma BatchSizes(limit: int)
    ensures 1 <= ClampBatch(limit) <= 1000 && 1 <= ClampPurge(limit) <= 10_000
    ensures limit <= 0 ==> ClampBatch(limit) == 100 && ClampPurge(limit) == 1000
    ensures 1 <= limit <= 1000 ==> ClampBatch(limit) == limit
    ensures 1 <= limit <= 10_000 ==> ClampPurge(limit) == limit
  {
  }

  predicate IsDue(r: Row, now: Time) {
    r.status == Scheduled && r.scheduledAt.Some? && r.scheduledAt.value <= now
  }

  /** Due jobs: a row left out means a full batch of jobs due no later. */
  lemma DueSelected(rows: map<Uuid, Row>, now: Time, skipped: set<Uuid>, limit: nat, ids: seq<Uuid>)
    requires Selects(rows, DueAt(now), ByScheduled(), skipped, limit, ids)
    ensures forall i | 0 <= i < |ids| :: ids[i] in rows && ids[i] !in skipped && IsDue(rows[ids[i]], now)
    ensures forall id | id in rows && id !in skipped && id !in ids && IsDue(rows[id], now) ::
              |ids| == limit &&
              forall i | 0 <= i < |ids| :: rows[ids[i]].scheduledAt.value <= rows[id].scheduledAt.value
  {
  }

  predicate IsMatured(r: Row, now: Time) {
    r.status in {Pending, Queued} && r.notBefore.Some? && r.notBefore.value <= now
  }

  /** Retries whose backoff is over, the longest waiting first. */
  lemma MaturedSelected(rows: map<Uuid, Row>, now: Time, skipped: set<Uuid>, limit: nat, ids: seq<Uuid>)
    requires Selects(rows, MaturedAt(now), ByGate(), skipped, limit, ids)
    ensures forall i | 0 <= i < |ids| :: ids[i] in rows && ids[i] !in skipped && IsMatured(rows[ids[i]], now)
    ensures forall id | id in rows && id !in skipped && id !in ids && IsMatured(rows[id], now) ::
              |ids| == limit && forall i | 0 <= i < |ids| :: rows[ids[i]].notBefore.value <= rows[id].notBefore.value
  {
  }

  predicate IsSilent(r: Row, cutoff: Time) {
    r.status == Running && r.heartbeatAt.Some? && r.heartbeatAt.value < cutoff
  }

  /** Running jobs whose worker fell silent, the longest silent first. */
  lemma StaleSelected(rows: map<Uuid, Row>, cutoff: Time, skipped: set<Uuid>, limit: nat, ids: seq<Uuid>)
    requires Selects(rows, StaleAt(cutoff), ByHeartbeat(), skipped, limit, ids)
    ensures forall i | 0 <= i < |ids| :: ids[i] in rows && ids[i] !in skipped && IsSilent(rows[ids[i]], cutoff)
    ensures forall id | id in rows && id !in skipped && id !in ids && IsSilent(rows[id], cutoff) ::
              |ids| == limit &&
              forall i | 0 <= i < |ids| :: rows[ids[i]].heartbeatAt.value <= rows[id].heartbeatAt.value
  {
  }

  predicate IsUndispatched(r: Row, olderThan: Time, at: Time) {
    r.status in {Pending, Queued} && r.createdAt < olderThan && (r.notBefore.Some? ==> r.notBefore.value <= at)
  }

  /** Old ungated pending jobs, the oldest first. */
  lemma PendingSelected(rows: map<Uuid, Row>, olderThan: Time, at: Time, limit: nat, ids: seq<Uuid>)
    requires Selects(rows, StalePendingAt(olderThan, at), ByCreated(), {}, limit, ids)
    ensures forall i | 0 <= i < |ids| :: ids[i] in rows && IsUndispatched(rows[ids[i]], olderThan, at)
    ensures forall id | id in rows && id !in ids && IsUndispatched(rows[id], olderThan, at) ::
              |ids| == limit && forall i | 0 <= i < |ids| :: rows[ids[i]].createdAt <= rows[id].createdAt
  {
  }

  predicate IsMember(r: Row, series: Uuid, owner: Option<Uuid>) {
    r.series == Some(series) && r.status in {Pending, Queued, Scheduled} && (owner.Some? ==> r.owner == owner)
  }

  /** Not-yet-running members of a series that are the caller's. */
  lemma MembersSelected(rows: map<Uuid, Row>, series: Uuid, owner: Option<Uuid>, id: Uuid)
    requires id in rows
    ensures CancellableIn(series, owner)(rows[id]) <==> IsMember(rows[id], series, owner)
  {
  }

  predicate IsExpired(r: Row, before: Time) {
    r.status in {Completed, Cancelled} && r.completedAt.Some? && r.completedAt.value < before
  }

  /** Jobs that ended before the cutoff, failed ones excepted, the first to end first. */
  lemma ExpiredSelected(rows: map<Uuid, Row>, before: Time, limit: nat, ids: seq<Uuid>)
    requires Selects(rows, ExpiredAt(before), ByCompleted(), {}, limit, ids)
    ensures forall i | 0 <= i < |ids| :: ids[i] in rows && IsExpired(rows[ids[i]], before)
    ensures forall id | id in rows && id !in ids && IsExpired(rows[id], before) ::
              |ids| == limit &&
              forall i | 0 <= i < |ids| :: rows[ids[i]].completedAt.value <= rows[id].completedAt.value
  {
  }

  // ---------- the same change on every row of a batch ----------

  function TouchAll(db: Db, ids: seq<Uuid>, act: Act, at: Time): Db {
    if ids == [] then db
    else Touch(TouchAll(db, ids[..|ids| - 1], act, at), ids[|ids| - 1], act, at)
  }

  function Elements(ids: seq<Uuid>): set<Uuid> {
    set id | id in ids
  }

  predicate Distinct(ids: seq<Uuid>) {
    forall i, j | 0 <= i < j < |ids| :: ids[i] != ids[j]
  }

  lemma TouchRow(db: Db, id: Uuid, act: Act, at: Time)
    requires !act.Create? && Guard(Find(db.rows, id), act, at)
    ensures var rows' := Touch(db, id, act, at).rows;
            && Find(rows', id) == Effect(Find(db.rows, id), act, at)
            && (forall j | j != id :: Find(rows', j) == Find(db.rows, j))
  {
  }

  /** Every listed row gets exactly the change, every other row is left alone. */
  lemma {:induction false} TouchAllRow(db: Db, ids: seq<Uuid>, act: Act, at: Time, j: Uuid)
    requires Distinct(ids) && !act.Create?
    requires forall id | id in ids :: Guard(Find(db.rows, id), act, at)
    ensures Find(TouchAll(db, ids, act, at).rows, j) ==
            if j in ids then Effect(Find(db.rows, j), act, at) else Find(db.rows, j)
  {
    if ids != [] {
      var p, id := ids[..|ids| - 1], ids[|ids| - 1];
      assert id !in p && id in ids;
      assert forall x | x in p :: x in ids;
      TouchAllRow(db, p, act, at, j);
      TouchAllRow(db, p, act, at, id);
      TouchRow(TouchAll(db, p, act, at), id, act, at);
      assert j in ids <==> j in p || j == id;
    }
  }

  lemma {:induction false} TouchAllKeys(db: Db, ids: seq<Uuid>, act: Act, at: Time)
    requires KeysAgree(db)
    ensures KeysAgree(TouchAll(db, ids, act, at))
  {
    if ids != [] {
      TouchAllKeys(db, ids[..|ids| - 1], act, at);
      TouchKeepsKeys(TouchAll(db, ids[..|ids| - 1], act, at), ids[|ids| - 1], act, at);
    }
  }

  // ---------- firing a batch ----------

  function FireAll(c: Config, db: Db, ids: seq<Uuid>, now: Time, kids: seq<Uuid>, at: Time): Db
    requires |kids| == |ids|
  {
    if ids == [] then db
    else
      var n := |ids| - 1;
      FireDb(c, FireAll(c, db, ids[..n], now, kids[..n], at), ids[n], now, kids[n], at)
  }

  /** Children are new and distinct. */
  predicate FreshKids(rows: map<Uuid, Row>, kids: seq<Uuid>) {
    Distinct(kids) && forall k | k in kids :: k !in rows
  }

  predicate Fireable(rows: map<Uuid, Row>, ids: seq<Uuid>, now: Time) {
    Distinct(ids) && forall i | 0 <= i < |ids| :: ids[i] in rows && DueAt(now)(rows[ids[i]])
  }

  function Promoted(r: Row): Row { r.(status := Pending) }

  /** max_retry as CreateJob stores it: a SMALLINT, with zero replaced. */
  predicate Fertile(r: Row) {
    r.maxRetry != 0 && -MAX_SMALLINT - 1 <= r.maxRetry <= MAX_SMALLINT
  }

  lemma FireDbRows(c: Config, db: Db, id: Uuid, now: Time, child: Uuid, at: Time)
    requires id in db.rows && DueAt(now)(db.rows[id]) && now <= at && child !in db.rows && Fertile(db.rows[id])
    ensures var f := Followup(c, Promoted(db.rows[id]), now);
            FireDb(c, db, id, now, child, at).rows ==
            if f.Some? then db.rows[id := Promoted(db.rows[id])][child := f.value]
            else db.rows[id := Promoted(db.rows[id])]
  {
  }

  /** How a fired batch left the rows. */
  ghost predicate Fired(c: Config, rows: map<Uuid, Row>, rows': map<Uuid, Row>, ids: seq<Uuid>, now: Time,
                        kids: seq<Uuid>)
    requires |kids| == |ids| && forall i | 0 <= i < |ids| :: ids[i] in rows
  {
    && (forall i | 0 <= i < |ids| :: Find(rows', ids[i]) == Some(Promoted(rows[ids[i]])))
    && (forall i | 0 <= i < |ids| :: Find(rows', kids[i]) == Followup(c, Promoted(rows[ids[i]]), now))
    && (forall j | j !in ids && j !in kids :: Find(rows', j) == Find(rows, j))
  }

  lemma FiredOneMore(c: Config, rows: map<Uuid, Row>, mid: map<Uuid, Row>, rows': map<Uuid, Row>, ids: seq<Uuid>,
                     now: Time, kids: seq<Uuid>)
    requires |kids| == |ids| > 0 && (forall i | 0 <= i < |ids| :: ids[i] in rows) && Distinct(ids)
    requires FreshKids(rows, kids)
    requires Fired(c, rows, mid, ids[..|ids| - 1], now, kids[..|ids| - 1])
    requires forall j | j != ids[|ids| - 1] && j != kids[|ids| - 1] :: Find(rows', j) == Find(mid, j)
    requires Find(rows', ids[|ids| - 1]) == Some(Promoted(rows[ids[|ids| - 1]]))
    requires Find(rows', kids[|ids| - 1]) == Followup(c, Promoted(rows[ids[|ids| - 1]]), now)
    ensures Fired(c, rows, rows', ids, now, kids)
  {
    var n := |ids| - 1;
    forall i | 0 <= i < n
      ensures Find(rows', ids[i]) == Some(Promoted(rows[ids[i]]))
      ensures Find(rows', kids[i]) == Followup(c, Promoted(rows[ids[i]]), now)
    {
      assert ids[i] != kids[n] && kids[i] != ids[n];
      assert ids[..n][i] == ids[i] && kids[..n][i] == kids[i];
    }
  }

  /** Every due row of the batch becomes pending, each recurring one leaves exactly its
      follow-up, and nothing else changes. */
  lemma {:induction false} FireAllRows(c: Config, db: Db, ids: seq<Uuid>, now: Time, kids: seq<Uuid>, at: Time)
    requires |kids| == |ids| && Fireable(db.rows, ids, now) && FreshKids(db.rows, kids) && now <= at
    requires forall i | 0 <= i < |ids| :: Fertile(db.rows[ids[i]])
    ensures Fired(c, db.rows, FireAll(c, db, ids, now, kids, at).rows, ids, now, kids)
  {
    if ids != [] {
      var n := |ids| - 1;
      FireAllRows(c, db, ids[..n], now, kids[..n], at);
      var mid := FireAll(c, db, ids[..n], now, kids[..n], at);
      assert ids[n] !in ids[..n] && ids[n] !in kids[..n];
      assert kids[n] !in kids[..n] && kids[n] !in ids[..n];
      assert Find(mid.rows, ids[n]) == Some(db.rows[ids[n]]) && Find(mid.rows, kids[n]) == None;
      FireDbRows(c, mid, ids[n], now, kids[n], at);
      FiredOneMore(c, db.rows, mid.rows, FireAll(c, db, ids, now, kids, at).rows, ids, now, kids);
    }
  }

  lemma FireDbKeys(c: Config, db: Db, id: Uuid, now: Time, child: Uuid, at: Time)
    requires KeysAgree(db)
    ensures KeysAgree(FireDb(c, db, id, now, child, at))
  {
    if Applies(db, id, Promote(now), at) {
      var promoted := Touch(db, id, Promote(now), at);
      TouchKeepsKeys(db, id, Promote(now), at);
      var f := Followup(c, promoted.rows[id], now);
      if f.Some? { TouchKeepsKeys(promoted, child, Create(f.value), at); }
    }
  }

  lemma {:induction false} FireAllKeys(c: Config, db: Db, ids: seq<Uuid>, now: Time, kids: seq<Uuid>, at: Time)
    requires KeysAgree(db) && |kids| == |ids|
    ensures KeysAgree(FireAll(c, db, ids, now, kids, at))
  {
    if ids != [] {
      var n := |ids| - 1;
      FireAllKeys(c, db, ids[..n], now, kids[..n], at);
      FireDbKeys(c, FireAll(c, db, ids[..n], now, kids[..n], at), ids[n], now, kids[n], at);
    }
  }

  // ---------- batches are runs ----------

  lemma {:induction false} RunConcat(c: Config, s: State, a: seq<Step>, b: seq<Step>)
    ensures RunFrom(c, s, a + b) == RunFrom(c, RunFrom(c, s, a), b)
    ensures ValidFrom(c, s, a + b) <==> ValidFrom(c, s, a) && ValidFrom(c, RunFrom(c, s, a), b)
    decreases |a|
  {
    if a == [] {
      assert a + b == b;
    } else {
      assert (a + b)[1..] == a[1..] + b && (a + b)[0] == a[0];
      RunConcat(c, Apply(c, s, a[0]), a[1..], b);
    }
  }

  lemma RunSnoc(c: Config, s: State, a: seq<Step>, step: Step)
    ensures RunFrom(c, s, a + [step]) == Apply(c, RunFrom(c, s, a), step)
    ensures ValidFrom(c, s, a + [step]) <==> ValidFrom(c, s, a) && Enabled(c, RunFrom(c, s, a), step)
  {
    RunConcat(c, s, a, [step]);
    var s1 := RunFrom(c, s, a);
    assert [step][1..] == [];
    assert RunFrom(c, s1, [step]) == RunFrom(c, Apply(c, s1, step), []);
    assert ValidFrom(c, s1, [step]) <==> Enabled(c, s1, step) && ValidFrom(c, Apply(c, s1, step), []);
  }

  function DoAll(ids: seq<Uuid>, act: Act): seq<Step> {
    if ids == [] then [] else DoAll(ids[..|ids| - 1], act) + [Do(ids[|ids| - 1], act)]
  }

  lemma {:induction false} TouchAllIsRun(c: Config, s: State, ids: seq<Uuid>, act: Act)
    requires !act.Create? && !act.Claim? && Enabled(c, s, Do(0, act))
    ensures var s' := RunFrom(c, s, DoAll(ids, act));
            && ValidFrom(c, s, DoAll(ids, act))
            && s'.db == TouchAll(s.db, ids, act, s.clock) && s'.clock == s.clock && s'.minted == s.minted
  {
    if ids != [] {
      var p := ids[..|ids| - 1];
      TouchAllIsRun(c, s, p, act);
      RunSnoc(c, s, DoAll(p, act), Do(ids[|ids| - 1], act));
      assert s.minted + {} == s.minted;
    }
  }

  function FireSteps(ids: seq<Uuid>, now: Time, kids: seq<Uuid>): seq<Step>
    requires |kids| == |ids|
  {
    if ids == [] then []
    else
      var n := |ids| - 1;
      FireSteps(ids[..n], now, kids[..n]) + [Fire(ids[n], now, kids[n])]
  }

  lemma FireStepDb(c: Config, s: State, id: Uuid, now: Time, child: Uuid)
    ensures FireStep(c, s, id, now, child).db == FireDb(c, s.db, id, now, child, s.clock)
    ensures FireStep(c, s, id, now, child).clock == s.clock
    ensures FireStep(c, s, id, now, child).minted == s.minted + {child}
  {
  }

  lemma {:induction false} FireAllIsRun(c: Config, s: State, ids: seq<Uuid>, now: Time, kids: seq<Uuid>)
    requires |kids| == |ids| && now <= s.clock && Distinct(kids) && forall k | k in kids :: k !in s.minted
    ensures var s' := RunFrom(c, s, FireSteps(ids, now, kids));
            && ValidFrom(c, s, FireSteps(ids, now, kids))
            && s'.db == FireAll(c, s.db, ids, now, kids, s.clock) && s'.clock == s.clock
            && s'.minted == s.minted + set k | k in kids
  {
    if ids != [] {
      var n := |ids| - 1;
      FireAllIsRun(c, s, ids[..n], now, kids[..n]);
      var s1 := RunFrom(c, s, FireSteps(ids[..n], now, kids[..n]));
      RunSnoc(c, s, FireSteps(ids[..n], now, kids[..n]), Fire(ids[n], now, kids[n]));
      assert kids[n] !in kids[..n];
      FireStepDb(c, s1, ids[n], now, kids[n]);
    }
  }
}
