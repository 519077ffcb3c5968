/** The other side of recovery: who is never reached. A full sweep batch of stuck rows hides
    every younger undispatched job, a full scheduler batch of series that fire into the past
    hides every later scheduled job, whatever other processes do short of cancelling. */
module Starvation {
  import opened Lifecycle
  import opened Ledger
  import opened Batches
  import opened Queue
  import opened Recovery
  import T = Store

  // ---------- jobs that are over ----------

  predicate Over(s: State, id: Uuid) {
    id in s.minted && (id in s.db.rows ==> s.db.rows[id].status == Cancelled)
  }

  lemma StepKeepsOver(c: Config, s: State, step: Step, id: Uuid)
    requires Enabled(c, s, step) && Over(s, id)
    ensures Over(Apply(c, s, step), id)
  {
  }

  lemma {:induction false} RunKeepsOver(c: Config, s: State, steps: seq<Step>, id: Uuid)
    requires ValidFrom(c, s, steps) && Over(s, id)
    ensures Over(RunFrom(c, s, steps), id)
    decreases |steps|
  {
    if steps != [] {
      StepKeepsOver(c, s, steps[0], id);
      RunKeepsOver(c, Apply(c, s, steps[0]), steps[1..], id);
    }
  }

  lemma MoveKeepsOver(k: Setup, a: Site, m: Move, id: Uuid)
    requires CanMove(k, a, m) && Over(a.led, id)
    ensures Over(After(k, a, m).led, id)
  {
    MoveIsRun(k, a, m);
    RunKeepsOver(k.c, a.led, LedgerSteps(k, a, m), id);
  }

  // ---------- what stream entries name ----------

  predicate Fit(s: State, e: Uuid) {
    e in s.minted && (e in s.db.rows ==> Routable(s.db.rows[e]) && s.db.rows[e].status != Scheduled)
  }

  /** Entries, and the rows an older snapshot can still make the sweep push, name routable
      jobs that are not scheduled any more. */
  ghost predicate EntriesFit(a: Site) {
    && (forall e | e in a.entries :: Fit(a.led, e))
    && forall q: map<Uuid, Row>, e: Uuid | q in a.past && e in q && q[e].status != Scheduled && Routable(q[e]) ::
         Fit(a.led, e)
  }

  lemma StepKeepsFit(c: Config, s: State, step: Step, e: Uuid)
    requires Enabled(c, s, step) && Fit(s, e)
    ensures Fit(Apply(c, s, step), e)
  {
    StepOnRow(c, s, step, e);
    var a := ActOn(c, s, step, e);
    if a.Some? && e in s.db.rows { ActKeepsFit(s.db.rows[e], a.value, s.clock); }
  }

  lemma ActKeepsFit(r: Row, act: Act, at: Time)
    requires Guard(Some(r), act, at) && Routable(r) && r.status != Scheduled
    ensures var q := Effect(Some(r), act, at); q.Some? ==> Routable(q.value) && q.value.status != Scheduled
  {
  }

  lemma {:induction false} RunKeepsFit(c: Config, s: State, steps: seq<Step>, e: Uuid)
    requires ValidFrom(c, s, steps) && Fit(s, e)
    ensures Fit(RunFrom(c, s, steps), e)
    decreases |steps|
  {
    if steps != [] {
      StepKeepsFit(c, s, steps[0], e);
      RunKeepsFit(c, Apply(c, s, steps[0]), steps[1..], e);
    }
  }

  lemma BatchPushesFit(k: Setup, a: Site, m: Move, e: Uuid)
    requires CanMove(k, a, m) && m.Batch? && Sound(a.led) && e in Pushed(a.led.db.rows, m.ids)
    ensures Fit(After(k, a, m).led, e)
  {
    MoveIsRun(k, a, m);
    RowAfterBatch(k, a, m, e);
    RowsAreShaped(a.led, e);
  }

  lemma SweepPushesFit(k: Setup, a: Site, m: Move, e: Uuid)
    requires CanMove(k, a, m) && m.Sweep? && Sound(a.led) && EntriesFit(a) && e in Pushed(m.seen, m.ids)
    ensures Fit(a.led, e)
  {
    var i :| 0 <= i < |m.ids| && m.ids[i] == e;
    assert Sweepable(k, a.led)(m.seen[m.ids[i]]);
    if m.seen == a.led.db.rows { RowsAreShaped(a.led, e); }
  }

  lemma OtherPushesFit(c: Config, s: State, step: Step, e: Uuid)
    requires Sound(s) && Enabled(c, s, step) && e in PushedBy(c, s, step)
    ensures Fit(Apply(c, s, step), e)
  {
    if e in s.db.rows { RowsAreShaped(s, e); }
  }

  lemma MoveKeepsEntries(k: Setup, a: Site, m: Move)
    requires CanMove(k, a, m) && Sound(a.led) && EntriesFit(a)
    ensures EntriesFit(After(k, a, m))
  {
    MoveIsRun(k, a, m);
    forall e | e in After(k, a, m).entries ensures Fit(After(k, a, m).led, e) {
      if e in a.entries {
        RunKeepsFit(k.c, a.led, LedgerSteps(k, a, m), e);
      } else if m.Batch? {
        BatchPushesFit(k, a, m, e);
      } else if m.Sweep? {
        SweepPushesFit(k, a, m, e);
      } else {
        OtherPushesFit(k.c, a.led, m.step, e);
      }
    }
    forall q: map<Uuid, Row>, e: Uuid | q in After(k, a, m).past && e in q && q[e].status != Scheduled && Routable(q[e])
      ensures Fit(After(k, a, m).led, e)
    {
      if q == a.led.db.rows { RowsAreShaped(a.led, e); }
      RunKeepsFit(k.c, a.led, LedgerSteps(k, a, m), e);
    }
  }

  // ---------- jobs no claim can take ----------

  predicate Hopeless(s: State, id: Uuid) {
    id in s.minted &&
    (id in s.db.rows ==> !Rescuable(s.db.rows[id]) && s.db.rows[id].status in {Scheduled, Pending, Queued, Cancelled})
  }

  lemma StepKeepsHopeless(c: Config, s: State, step: Step, id: Uuid)
    requires Enabled(c, s, step) && Hopeless(s, id)
    requires step.Do? && step.act.Claim? && step.id == id ==> id in s.db.rows ==> Routable(s.db.rows[id])
    ensures Hopeless(Apply(c, s, step), id)
  {
    StepOnRow(c, s, step, id);
    var a := ActOn(c, s, step, id);
    if a.Some? && id in s.db.rows { ActKeepsHopeless(s.db.rows[id], a.value, s.clock); }
  }

  lemma ActKeepsHopeless(r: Row, act: Act, at: Time)
    requires Guard(Some(r), act, at) && !Rescuable(r) && r.status in {Scheduled, Pending, Queued, Cancelled}
    requires act.Claim? ==> Routable(r)
    ensures var q := Effect(Some(r), act, at);
            q.Some? ==> !Rescuable(q.value) && q.value.status in {Scheduled, Pending, Queued, Cancelled}
  {
  }

  lemma MoveKeepsHopeless(k: Setup, a: Site, m: Move, id: Uuid)
    requires CanMove(k, a, m) && Sound(a.led) && EntriesFit(a) && Hopeless(a.led, id)
    ensures Hopeless(After(k, a, m).led, id)
  {
    MoveIsRun(k, a, m);
    match m
    case Wait(_) =>
    case Batch(_, _, _) => RowAfterBatch(k, a, m, id);
    case Sweep(_, _) =>
    case Deliver(e, worker, token) => StepKeepsHopeless(k.c, a.led, Do(e, Claim(worker, token)), id);
    case Other(step) => StepKeepsHopeless(k.c, a.led, step, id);
  }

  lemma {:induction false} HopelessStays(k: Setup, a: Site, moves: seq<Move>, b: Site, id: Uuid)
    requires Path(k, a, moves, b) && Sound(a.led) && EntriesFit(a) && Hopeless(a.led, id)
    ensures Hopeless(b.led, id)
    decreases |moves|
  {
    if moves != [] {
      MoveKeepsSound(k, a, moves[0]);
      MoveKeepsEntries(k, a, moves[0]);
      MoveKeepsHopeless(k, a, moves[0], id);
      HopelessStays(k, After(k, a, moves[0]), moves[1..], b, id);
    }
  }

  // ---------- behind a full sweep batch ----------

  /** Ungated pending rows no claim will ever take, created before the job. */
  function OlderStuck(rows: map<Uuid, Row>, r: Row): set<Uuid> {
    set j | j in rows && StuckRow(rows[j], r)
  }

  predicate StuckRow(q: Row, r: Row) {
    (q.status == Pending || q.status == Queued) && q.notBefore == None && !Rescuable(q) && q.createdAt < r.createdAt
  }

  /** The rows show the job as it is, and the rows ahead of it stuck. */
  ghost predicate Blocked(rows: map<Uuid, Row>, id: Uuid, r: Row, ahead: set<Uuid>) {
    Find(rows, id) == Some(r) && forall j | j in ahead :: j in rows && StuckRow(rows[j], r)
  }

  /** A whole sweep batch of stuck rows is always ahead of the job, and every snapshot the
      replica may show was taken since they were stuck. */
  ghost predicate Starved(k: Setup, a: Site, id: Uuid, r: Row, ahead: set<Uuid>) {
    && Sound(a.led) && EntriesFit(a) && id !in a.entries
    && r.status == Pending && r.notBefore == None && |ahead| >= k.reapBatch
    && Blocked(a.led.db.rows, id, r, ahead) && forall q | q in a.past :: Blocked(q, id, r, ahead)
  }

  /** The one thing that makes way: nobody cancels a row ahead. */
  predicate SparesRow(m: Move, ahead: set<Uuid>) {
    m.Other? && m.step.Do? && m.step.act.Cancel? ==> m.step.id !in ahead
  }

  predicate SparesRows(moves: seq<Move>, ahead: set<Uuid>) {
    forall m | m in moves :: SparesRow(m, ahead)
  }

  predicate UngatedPending(r: Row) {
    (r.status == Pending || r.status == Queued) && r.notBefore == None
  }

  lemma BatchLeavesUngated(k: Setup, a: Site, m: Move, j: Uuid)
    requires CanMove(k, a, m) && m.Batch? && Sound(a.led) && j in a.led.db.rows && UngatedPending(a.led.db.rows[j])
    ensures j !in m.ids && Find(After(k, a, m).led.db.rows, j) == Some(a.led.db.rows[j])
  {
    RowAfterBatch(k, a, m, j);
    forall i | 0 <= i < |m.ids| ensures m.ids[i] != j { assert Wanted(k, a.led, m.kind)(a.led.db.rows[m.ids[i]]); }
  }

  /** A single transaction changes an ungated pending row only by cancelling or claiming it. */
  lemma StepLeavesUngated(c: Config, s: State, step: Step, j: Uuid)
    requires Enabled(c, s, step) && j in s.db.rows && UngatedPending(s.db.rows[j]) && j in s.minted
    requires step.Do? && step.id == j ==> !step.act.Cancel? && !step.act.Claim?
    ensures Find(Apply(c, s, step).db.rows, j) == Some(s.db.rows[j]) && j !in PushedBy(c, s, step)
  {
  }

  /** The sweep goes by age: if it lists the job it lists everything ahead of it. */
  lemma OlderListedFirst(k: Setup, a: Site, seen: map<Uuid, Row>, ids: seq<Uuid>, id: Uuid, r: Row, ahead: set<Uuid>)
    requires Blocked(seen, id, r, ahead) && CanMove(k, a, Sweep(seen, ids)) && id in ids
    ensures forall j | j in ahead :: j in ids
  {
    var i :| 0 <= i < |ids| && ids[i] == id;
    assert Sweepable(k, a.led)(seen[ids[i]]) && ByCreated()(seen[ids[i]]) == r.createdAt;
  }

  lemma SweepMisses(k: Setup, a: Site, seen: map<Uuid, Row>, ids: seq<Uuid>, id: Uuid, r: Row, ahead: set<Uuid>)
    requires Starved(k, a, id, r, ahead) && CanMove(k, a, Sweep(seen, ids))
    ensures id !in ids
  {
    if id in ids {
      OlderListedFirst(k, a, seen, ids, id, r, ahead);
      DistinctSize(ids);
      SubsetSize(ahead, Elements(ids) - {id});
      assert false;
    }
  }

  lemma DeliverLeaves(k: Setup, a: Site, m: Move, j: Uuid)
    requires CanMove(k, a, m) && m.Deliver? && EntriesFit(a) && j in a.led.db.rows
    requires m.id == j ==> !Rescuable(a.led.db.rows[j])
    ensures Find(After(k, a, m).led.db.rows, j) == Some(a.led.db.rows[j])
  {
    MoveIsRun(k, a, m);
  }

  /** An unstuck move leaves the job and every row ahead of it as they are. */
  lemma MoveKeepsRow(k: Setup, a: Site, m: Move, id: Uuid, r: Row, ahead: set<Uuid>, j: Uuid)
    requires Starved(k, a, id, r, ahead) && CanMove(k, a, m) && SparesRow(m, ahead) && (j == id || j in ahead)
    requires m != Other(Do(id, Cancel))
    ensures Find(After(k, a, m).led.db.rows, j) == Some(a.led.db.rows[j])
    ensures j == id ==> j !in After(k, a, m).entries
  {
    MoveIsRun(k, a, m);
    RowsAreShaped(a.led, j);
    match m
    case Wait(_) =>
    case Batch(_, _, _) => BatchLeavesUngated(k, a, m, j);
    case Sweep(seen, ids) => SweepMisses(k, a, seen, ids, id, r, ahead);
    case Deliver(_, _, _) => DeliverLeaves(k, a, m, j);
    case Other(step) => StepLeavesUngated(k.c, a.led, step, j);
  }

  lemma StaysBlocked(rows: map<Uuid, Row>, rows': map<Uuid, Row>, id: Uuid, r: Row, ahead: set<Uuid>)
    requires Blocked(rows, id, r, ahead) && forall j | j == id || j in ahead :: Find(rows', j) == Find(rows, j)
    ensures Blocked(rows', id, r, ahead)
  {
    forall j | j in ahead ensures j in rows' && StuckRow(rows'[j], r) { assert Find(rows', j) == Find(rows, j); }
  }

  lemma CancelEnds(k: Setup, a: Site, id: Uuid)
    requires Sound(a.led) && CanMove(k, a, Other(Do(id, Cancel))) && id in a.led.db.rows
    requires a.led.db.rows[id].status == Pending
    ensures Over(After(k, a, Other(Do(id, Cancel))).led, id)
  {
    MoveIsRun(k, a, Other(Do(id, Cancel)));
    StepOnRow(k.c, a.led, Do(id, Cancel), id);
    RowsAreShaped(a.led, id);
  }

  lemma MoveKeepsStarved(k: Setup, a: Site, m: Move, id: Uuid, r: Row, ahead: set<Uuid>)
    requires Starved(k, a, id, r, ahead) && CanMove(k, a, m) && SparesRow(m, ahead)
    ensures Starved(k, After(k, a, m), id, r, ahead) || Over(After(k, a, m).led, id)
  {
    if m == Other(Do(id, Cancel)) {
      CancelEnds(k, a, id);
    } else {
      MoveKeepsSound(k, a, m);
      MoveKeepsEntries(k, a, m);
      var rows, rows' := a.led.db.rows, After(k, a, m).led.db.rows;
      forall j | j == id || j in ahead ensures Find(rows', j) == Find(rows, j) {
        MoveKeepsRow(k, a, m, id, r, ahead, j);
      }
      StaysBlocked(rows, rows', id, r, ahead);
      MoveKeepsRow(k, a, m, id, r, ahead, id);
    }
  }

  /** On every continuation, whatever other processes do and however far the replica lags,
      up to when the rows ahead got stuck, that cancels none of them, a job behind a full
      sweep batch of stuck rows stays as it is or is itself cancelled. */
  lemma {:induction false} StarvedStays(k: Setup, a: Site, moves: seq<Move>, b: Site, id: Uuid, r: Row,
                                        ahead: set<Uuid>)
    requires (Starved(k, a, id, r, ahead) || Over(a.led, id)) && Path(k, a, moves, b) && SparesRows(moves, ahead)
    ensures Starved(k, b, id, r, ahead) || Over(b.led, id)
    decreases |moves|
  {
    if moves != [] {
      if Over(a.led, id) { MoveKeepsOver(k, a, moves[0], id); } else { MoveKeepsStarved(k, a, moves[0], id, r, ahead); }
      StarvedStays(k, After(k, a, moves[0]), moves[1..], b, id, r, ahead);
    }
  }

  /** Reached by moves of any process that cancel none of the given rows. */
  ghost predicate LeadsSparing(k: Setup, a: Site, z: Site, ahead: set<Uuid>) {
    exists moves :: Path(k, a, moves, z) && SparesRows(moves, ahead)
  }

  predicate UnclaimablePending(r: Row) {
    r.status in {Pending, Queued} && !Rescuable(r)
  }

  /** For an ungated pending job with nothing on the streams, when creation times differ and
      no stuck row is gated: scheduler, reaper and consumers can get it claimed, and so can
      any continuation of any process that cancels no older stuck row, if and only if its
      queue is routable, its attempt_count is below the SMALLINT limit and fewer older rows
      than one sweep batch are stuck. */
  lemma SweepReachesExactly(k: Setup, s: State, id: Uuid)
    requires Reachable(k.c, s) && id in s.db.rows
    requires s.db.rows[id].status == Pending && s.db.rows[id].notBefore == None
    requires forall j | j in s.db.rows && j != id && UnclaimablePending(s.db.rows[j]) ::
               s.db.rows[j].notBefore == None && s.db.rows[j].createdAt != s.db.rows[id].createdAt
    ensures var reached := Rescuable(s.db.rows[id]) && |OlderStuck(s.db.rows, s.db.rows[id])| < k.reapBatch;
            && ((exists z :: Leads(k, Site(s, {}, {}), z) && NewlyClaimed(Site(s, {}, {}), z, id)) <==> reached)
            && ((exists z :: LeadsSparing(k, Site(s, {}, {}), z, OlderStuck(s.db.rows, s.db.rows[id])) &&
                   NewlyClaimed(Site(s, {}, {}), z, id)) <==> reached)
  {
    var r, ahead, a := s.db.rows[id], OlderStuck(s.db.rows, s.db.rows[id]), Site(s, {}, {});
    if Rescuable(r) && |ahead| < k.reapBatch {
      assert Stuck(s.db.rows, r) == ahead;
      NoJobIsLost(k, s, {}, id);
      var z :| Leads(k, a, z) && NewlyClaimed(a, z, id);
      LeadsSpares(k, a, z, ahead);
    } else {
      forall z | LeadsSparing(k, a, z, ahead) ensures !NewlyClaimed(a, z, id) {
        NeverSwept(k, s, id, z);
      }
      forall z | Leads(k, a, z) ensures !NewlyClaimed(a, z, id) {
        LeadsSpares(k, a, z, ahead);
      }
    }
  }

  lemma LeadsSpares(k: Setup, a: Site, z: Site, ahead: set<Uuid>)
    requires Leads(k, a, z)
    ensures LeadsSparing(k, a, z, ahead)
  {
    var moves :| PromptPath(k, a, moves, z);
    PromptPathIsPath(k, a, moves, z);
    assert SparesRows(moves, ahead);
  }

  lemma NeverSwept(k: Setup, s: State, id: Uuid, z: Site)
    requires Reachable(k.c, s) && id in s.db.rows && s.db.rows[id].status == Pending && s.db.rows[id].notBefore == None
    requires !Rescuable(s.db.rows[id]) || |OlderStuck(s.db.rows, s.db.rows[id])| >= k.reapBatch
    requires LeadsSparing(k, Site(s, {}, {}), z, OlderStuck(s.db.rows, s.db.rows[id]))
    ensures !NewlyClaimed(Site(s, {}, {}), z, id)
  {
    var r, ahead, a := s.db.rows[id], OlderStuck(s.db.rows, s.db.rows[id]), Site(s, {}, {});
    ReachableIsSound(k.c, s);
    RowsAreShaped(s, id);
    var moves :| Path(k, a, moves, z) && SparesRows(moves, ahead);
    if Rescuable(r) {
      StarvedStays(k, a, moves, z, id, r, ahead);
    } else {
      HopelessStays(k, a, moves, z, id);
    }
  }

  /** The queue's own processes get there, the replica lagging behind. */
  ghost predicate LeadsLagging(k: Setup, a: Site, z: Site) {
    exists moves :: Path(k, a, moves, z) && Own(moves)
  }

  /** An older snapshot that lists the job brings it back. */
  lemma ListedIsClaimed(k: Setup, a: Site, seen: map<Uuid, Row>, ids: seq<Uuid>, id: Uuid)
    requires Sound(a.led) && CanMove(k, a, Sweep(seen, ids)) && id in ids && id in seen && Routable(seen[id])
    requires id in a.led.db.rows && Rescuable(a.led.db.rows[id])
    requires a.led.db.rows[id].status == Pending && GateOpen(a.led.db.rows[id], a.led.clock)
    ensures exists z :: LeadsLagging(k, a, z) && NewlyClaimed(a, z, id)
  {
    var b := After(k, a, Sweep(seen, ids));
    MoveIsRun(k, a, Sweep(seen, ids));
    assert id in Pushed(seen, ids) && Ready(b, id);
    assert Leads(k, b, b) by { assert PromptPath(k, b, [], b); }
    ReadyIsClaimed(k, b, b, id);
    var z :| Leads(k, b, z) && NewlyClaimed(b, z, id);
    LagsFirst(k, a, Sweep(seen, ids), z);
  }

  lemma LagsFirst(k: Setup, a: Site, m: Move, z: Site)
    requires CanMove(k, a, m) && !m.Other? && Leads(k, After(k, a, m), z)
    ensures LeadsLagging(k, a, z)
  {
    var rest :| PromptPath(k, After(k, a, m), rest, z);
    PromptPathIsPath(k, After(k, a, m), rest, z);
    var moves := [m] + rest;
    assert moves[1..] == rest && moves[0] == m;
    assert Path(k, a, moves, z) && Own(moves);
  }

  /** Why the snapshots must be recent: with a sweep batch of one, an unroutable older row
      hides the job, but a replica that still shows that row scheduled lists the job. */
  lemma OlderSnapshotRescues(k: Setup, a: Site, id: Uuid, j: Uuid)
    requires Sound(a.led) && k.reapBatch == 1 && id != j && a.led.db.rows.Keys == {id, j}
    requires Sweepable(k, a.led)(a.led.db.rows[id]) && a.led.db.rows[id].status == Pending
    requires Rescuable(a.led.db.rows[id]) && StuckRow(a.led.db.rows[j], a.led.db.rows[id])
    requires a.led.db.rows[j := a.led.db.rows[j].(status := Scheduled)] in a.past
    ensures exists z :: LeadsLagging(k, a, z) && NewlyClaimed(a, z, id)
  {
    var rows := a.led.db.rows;
    var seen := rows[j := rows[j].(status := Scheduled)];
    assert Selects(seen, Sweepable(k, a.led), ByCreated(), {}, 1, [id]);
    assert CanMove(k, a, Sweep(seen, [id])) && seen[id] == rows[id];
    ListedIsClaimed(k, a, seen, [id], id);
  }

  // ---------- the successor of a scheduled series row ----------

  /** The same series row, perhaps one firing later. */
  predicate Kin(r: Row, q: Row) {
    && q.status == Scheduled && q.cron == r.cron && SeriesZone(q) == SeriesZone(r)
    && q.series == r.series && q.recurring == r.recurring
  }

  function NextOf(k: Setup, r: Row, t: Time): Option<Time>
    requires HasFollowup(r)
  {
    k.c.next(r.cron.value, SeriesZone(r), t)
  }

  ghost function Heir(m: Move, j: Uuid): Uuid
    requires m.Batch? && |m.kids| == |m.ids|
  {
    if j in m.ids then
      var i :| 0 <= i < |m.ids| && m.ids[i] == j;
      m.kids[i]
    else j
  }

  lemma HeirAfterBatch(k: Setup, a: Site, m: Move, j: Uuid)
    requires CanMove(k, a, m) && m.Batch? && Sound(a.led) && j in a.led.db.rows
    requires a.led.db.rows[j].status == Scheduled && HasFollowup(a.led.db.rows[j])
    requires NextOf(k, a.led.db.rows[j], a.led.clock).Some?
    ensures var h, rows, rows' := Heir(m, j), a.led.db.rows, After(k, a, m).led.db.rows;
            && h in rows' && Kin(rows[j], rows'[h]) && (h == j || h in m.kids)
            && (rows'[h].scheduledAt == rows[j].scheduledAt || rows'[h].scheduledAt == NextOf(k, rows[j], a.led.clock))
  {
    RowAfterBatch(k, a, m, j);
    if j in m.ids {
      var i :| 0 <= i < |m.ids| && m.ids[i] == j && Heir(m, j) == m.kids[i];
      assert Wanted(k, a.led, m.kind)(a.led.db.rows[m.ids[i]]);
      FiredKid(k, a, m, i);
    }
  }

  lemma HeirAfterFire(k: Setup, s: State, now: Time, child: Uuid, id: Uuid, j: Uuid) returns (h: Uuid)
    requires Sound(s) && Enabled(k.c, s, Fire(id, now, child)) && j in s.db.rows
    requires s.db.rows[j].status == Scheduled && HasFollowup(s.db.rows[j]) && NextOf(k, s.db.rows[j], now).Some?
    ensures var rows, rows' := s.db.rows, Apply(k.c, s, Fire(id, now, child)).db.rows;
            && h in rows' && Kin(rows[j], rows'[h]) && (h == j || (h == child && j == id))
            && (rows'[h].scheduledAt == rows[j].scheduledAt || rows'[h].scheduledAt == NextOf(k, rows[j], now))
  {
    RowsAreShaped(s, j);
    if child in s.db.rows { RowsAreShaped(s, child); }
    h := if id == j && Applies(s.db, id, Promote(now), s.clock) then child else j;
    FiredSingle(k, s, now, child, id);
  }

  lemma FiredSingle(k: Setup, s: State, now: Time, child: Uuid, id: Uuid)
    requires Sound(s) && Enabled(k.c, s, Fire(id, now, child)) && child !in s.db.rows
    ensures var rows, rows' := s.db.rows, Apply(k.c, s, Fire(id, now, child)).db.rows;
            if Applies(s.db, id, Promote(now), s.clock) then
              (forall j | j in rows && j != id :: j in rows' && rows'[j] == rows[j])
              && Find(rows', child) == Followup(k.c, Promoted(rows[id]), now)
            else rows' == rows
  {
    if id in s.db.rows { RowsAreShaped(s, id); }
    if Applies(s.db, id, Promote(now), s.clock) {
      FireDbRows(k.c, s.db, id, now, child, s.clock);
      FireStepDb(k.c, s, id, now, child);
    }
  }

  /** A single transaction that is no promotion changes a scheduled row only by cancelling or
      claiming it. */
  lemma StepLeavesScheduled(c: Config, s: State, step: Step, j: Uuid)
    requires Enabled(c, s, step) && step.Do? && j in s.db.rows && s.db.rows[j].status == Scheduled
    requires step.id == j ==> !step.act.Cancel? && !step.act.Claim?
    ensures Find(Apply(c, s, step).db.rows, j) == Some(s.db.rows[j]) && j !in PushedBy(c, s, step)
  {
  }

  lemma DeliverLeavesScheduled(k: Setup, a: Site, m: Move, j: Uuid)
    requires CanMove(k, a, m) && m.Deliver? && EntriesFit(a) && j in a.led.db.rows
    requires a.led.db.rows[j].status == Scheduled
    ensures Find(After(k, a, m).led.db.rows, j) == Some(a.led.db.rows[j])
  {
    MoveIsRun(k, a, m);
  }

  // ---------- behind a full scheduler batch ----------

  /** A waiting series row due before `before` whose next times all are, too. */
  ghost predicate SpinRow(k: Setup, q: Row, before: Time) {
    && q.status == Scheduled && HasFollowup(q) && q.scheduledAt.Some? && q.scheduledAt.value < before
    && forall t: Time :: NextOf(k, q, t).Some? && NextOf(k, q, t).value < before
  }

  ghost function SpinAhead(k: Setup, rows: map<Uuid, Row>, before: Time): set<Uuid> {
    set j | j in rows && SpinRow(k, rows[j], before)
  }

  lemma KinSpins(k: Setup, r: Row, q: Row, before: Time, t: Time)
    requires SpinRow(k, r, before) && Kin(r, q)
    requires q.scheduledAt == r.scheduledAt || q.scheduledAt == NextOf(k, r, t)
    ensures SpinRow(k, q, before)
  {
    assert forall u: Time :: NextOf(k, q, u) == NextOf(k, r, u);
  }

  /** As many rows as a scheduler batch holds always sort before the job. */
  ghost predicate Behind(k: Setup, a: Site, id: Uuid, r: Row, ahead: seq<Uuid>) {
    && Sound(a.led) && EntriesFit(a) && Find(a.led.db.rows, id) == Some(r)
    && r.status == Scheduled && r.scheduledAt.Some? && Distinct(ahead) && |ahead| == LimitOf(k, Due)
    && forall n | 0 <= n < |ahead| ::
         ahead[n] in a.led.db.rows && SpinRow(k, a.led.db.rows[ahead[n]], r.scheduledAt.value)
  }

  /** Nobody cancels a row ahead or promotes the job out of turn, past rows others have locked. */
  ghost predicate SparesSpin(k: Setup, a: Site, m: Move, id: Uuid, before: Time) {
    m.Other? ==>
      && (m.step.Fire? ==> m.step.id != id)
      && (m.step.Do? && m.step.act.Cancel? && m.step.id in a.led.db.rows ==>
            !SpinRow(k, a.led.db.rows[m.step.id], before))
  }

  ghost predicate SparesSpins(k: Setup, a: Site, moves: seq<Move>, id: Uuid, before: Time)
    decreases |moves|
  {
    moves == [] ||
    ((moves[0].Batch? ==> |moves[0].kids| == |moves[0].ids|) && SparesSpin(k, a, moves[0], id, before) &&
     SparesSpins(k, After(k, a, moves[0]), moves[1..], id, before))
  }

  /** Earlier rows come first: a batch that promotes the job promotes everything ahead, which
      is a whole batch already. */
  lemma DueBatchMisses(k: Setup, a: Site, m: Move, id: Uuid, r: Row, ahead: seq<Uuid>)
    requires Behind(k, a, id, r, ahead) && CanMove(k, a, m) && m.Batch?
    ensures id !in m.ids
  {
    if id in m.ids {
      var i :| 0 <= i < |m.ids| && m.ids[i] == id;
      assert Wanted(k, a.led, m.kind)(a.led.db.rows[m.ids[i]]);
      assert m.kind == Due && DueAt(a.led.clock)(r);
      forall j | j in Elements(ahead) ensures j in Elements(m.ids) - {id} {
        var n :| 0 <= n < |ahead| && ahead[n] == j;
        assert DueAt(a.led.clock)(a.led.db.rows[j]);
        assert ByScheduled()(a.led.db.rows[m.ids[i]]) > ByScheduled()(a.led.db.rows[j]);
      }
      DistinctSize(ahead);
      DistinctSize(m.ids);
      SubsetSize(Elements(ahead), Elements(m.ids) - {id});
      assert false;
    }
  }

  ghost function Heirs(m: Move, ahead: seq<Uuid>): seq<Uuid>
    requires m.Batch? && |m.kids| == |m.ids|
  {
    seq(|ahead|, n requires 0 <= n < |ahead| => Heir(m, ahead[n]))
  }

  lemma HeirsDiffer(k: Setup, a: Site, m: Move, i: Uuid, j: Uuid)
    requires CanMove(k, a, m) && m.Batch? && Sound(a.led) && i in a.led.db.rows && j in a.led.db.rows && i != j
    ensures Heir(m, i) != Heir(m, j)
  {
    DistinctSelected(k, a, m);
    RowAfterBatch(k, a, m, i);
    RowAfterBatch(k, a, m, j);
    if i in m.kids { RowsAreShaped(a.led, i); }
    if j in m.kids { RowsAreShaped(a.led, j); }
    if i in m.ids && j in m.ids {
      var x :| 0 <= x < |m.ids| && m.ids[x] == i && Heir(m, i) == m.kids[x];
      var y :| 0 <= y < |m.ids| && m.ids[y] == j && Heir(m, j) == m.kids[y];
      assert x != y;
    }
  }

  lemma BatchKeepsBehind(k: Setup, a: Site, m: Move, id: Uuid, r: Row, ahead: seq<Uuid>)
    requires Behind(k, a, id, r, ahead) && CanMove(k, a, m) && m.Batch?
    ensures Behind(k, After(k, a, m), id, r, Heirs(m, ahead))
  {
    var rows, rows' := a.led.db.rows, After(k, a, m).led.db.rows;
    MoveKeepsSound(k, a, m);
    MoveKeepsEntries(k, a, m);
    DueBatchMisses(k, a, m, id, r, ahead);
    RowAfterBatch(k, a, m, id);
    var heirs := Heirs(m, ahead);
    forall n | 0 <= n < |heirs| ensures heirs[n] in rows' && SpinRow(k, rows'[heirs[n]], r.scheduledAt.value) {
      HeirAfterBatch(k, a, m, ahead[n]);
      KinSpins(k, rows[ahead[n]], rows'[heirs[n]], r.scheduledAt.value, a.led.clock);
    }
    forall x, y | 0 <= x < y < |heirs| ensures heirs[x] != heirs[y] { HeirsDiffer(k, a, m, ahead[x], ahead[y]); }
  }

  /** A promotion outside a batch leaves every spinning row, or its successor, in place. */
  lemma FiredHeirs(k: Setup, s: State, now: Time, child: Uuid, fired: Uuid, before: Time, ahead: seq<Uuid>)
    returns (heirs: seq<Uuid>)
    requires Sound(s) && Enabled(k.c, s, Fire(fired, now, child)) && Distinct(ahead)
    requires forall n | 0 <= n < |ahead| :: ahead[n] in s.db.rows && SpinRow(k, s.db.rows[ahead[n]], before)
    ensures var rows' := Apply(k.c, s, Fire(fired, now, child)).db.rows;
            && |heirs| == |ahead| && Distinct(heirs)
            && forall n | 0 <= n < |heirs| :: heirs[n] in rows' && SpinRow(k, rows'[heirs[n]], before)
  {
    var rows, rows' := s.db.rows, Apply(k.c, s, Fire(fired, now, child)).db.rows;
    assert child !in rows by { if child in rows { RowsAreShaped(s, child); } }
    FiredSingle(k, s, now, child, fired);
    heirs := ahead;
    if fired in ahead {
      var n :| 0 <= n < |ahead| && ahead[n] == fired;
      var h := HeirAfterFire(k, s, now, child, fired, fired);
      KinSpins(k, rows[fired], rows'[h], before, now);
      heirs := ahead[n := h];
    }
    forall x | 0 <= x < |heirs| ensures heirs[x] in rows' && SpinRow(k, rows'[heirs[x]], before) {
      if ahead[x] != fired { assert heirs[x] == ahead[x]; }
    }
  }

  lemma FireKeepsBehind(k: Setup, a: Site, m: Move, id: Uuid, r: Row, ahead: seq<Uuid>) returns (heirs: seq<Uuid>)
    requires Behind(k, a, id, r, ahead) && CanMove(k, a, m) && m.Other? && m.step.Fire? && m.step.id != id
    ensures Behind(k, After(k, a, m), id, r, heirs)
  {
    var s, step := a.led, m.step;
    assert After(k, a, m).led == Apply(k.c, s, step) by { MoveIsRun(k, a, m); }
    MoveKeepsSound(k, a, m);
    MoveKeepsEntries(k, a, m);
    assert step.child !in s.db.rows by { if step.child in s.db.rows { RowsAreShaped(s, step.child); } }
    FiredSingle(k, s, step.now, step.child, step.id);
    heirs := FiredHeirs(k, s, step.now, step.child, step.id, r.scheduledAt.value, ahead);
  }

  lemma StepKeepsBehind(k: Setup, a: Site, m: Move, id: Uuid, r: Row, ahead: seq<Uuid>)
    requires Behind(k, a, id, r, ahead) && CanMove(k, a, m) && m.Other? && m.step.Do?
    requires SparesSpin(k, a, m, id, r.scheduledAt.value) && m != Other(Do(id, Cancel))
    ensures Behind(k, After(k, a, m), id, r, ahead)
  {
    MoveIsRun(k, a, m);
    MoveKeepsSound(k, a, m);
    MoveKeepsEntries(k, a, m);
    StepLeavesScheduled(k.c, a.led, m.step, id);
    forall n | 0 <= n < |ahead|
      ensures Find(After(k, a, m).led.db.rows, ahead[n]) == Some(a.led.db.rows[ahead[n]])
    {
      StepLeavesScheduled(k.c, a.led, m.step, ahead[n]);
    }
  }

  lemma DeliverKeepsBehind(k: Setup, a: Site, m: Move, id: Uuid, r: Row, ahead: seq<Uuid>)
    requires Behind(k, a, id, r, ahead) && CanMove(k, a, m) && m.Deliver?
    ensures Behind(k, After(k, a, m), id, r, ahead)
  {
    MoveKeepsSound(k, a, m);
    MoveKeepsEntries(k, a, m);
    DeliverLeavesScheduled(k, a, m, id);
    forall n | 0 <= n < |ahead|
      ensures Find(After(k, a, m).led.db.rows, ahead[n]) == Some(a.led.db.rows[ahead[n]])
    {
      DeliverLeavesScheduled(k, a, m, ahead[n]);
    }
  }

  lemma MoveKeepsBehind(k: Setup, a: Site, m: Move, id: Uuid, r: Row, ahead: seq<Uuid>) returns (heirs: seq<Uuid>)
    requires Behind(k, a, id, r, ahead) && CanMove(k, a, m) && SparesSpin(k, a, m, id, r.scheduledAt.value)
    ensures Behind(k, After(k, a, m), id, r, heirs) || Over(After(k, a, m).led, id)
  {
    heirs := ahead;
    MoveIsRun(k, a, m);
    RowsAreShaped(a.led, id);
    match m
    case Wait(_) => MoveKeepsSound(k, a, m); MoveKeepsEntries(k, a, m);
    case Batch(_, _, _) => BatchKeepsBehind(k, a, m, id, r, ahead); heirs := Heirs(m, ahead);
    case Sweep(_, _) => MoveKeepsEntries(k, a, m);
    case Deliver(_, _, _) => DeliverKeepsBehind(k, a, m, id, r, ahead);
    case Other(step) =>
      if step.Fire? {
        heirs := FireKeepsBehind(k, a, m, id, r, ahead);
      } else if m != Other(Do(id, Cancel)) {
        StepKeepsBehind(k, a, m, id, r, ahead);
      }
  }

  /** On every continuation that cancels no row ahead of it and does not promote it out of
      turn, a scheduled job behind a full batch of series that fire into the past stays
      scheduled or is itself cancelled. */
  lemma {:induction false} BehindStays(k: Setup, a: Site, moves: seq<Move>, b: Site, id: Uuid, r: Row, ahead: seq<Uuid>)
    requires r.scheduledAt.Some? && (Behind(k, a, id, r, ahead) || Over(a.led, id))
    requires Path(k, a, moves, b) && SparesSpins(k, a, moves, id, r.scheduledAt.value)
    ensures Find(b.led.db.rows, id) == Some(r) || Over(b.led, id)
    decreases |moves|
  {
    if moves != [] {
      var heirs := ahead;
      if Over(a.led, id) {
        MoveKeepsOver(k, a, moves[0], id);
      } else {
        heirs := MoveKeepsBehind(k, a, moves[0], id, r, ahead);
      }
      BehindStays(k, After(k, a, moves[0]), moves[1..], b, id, r, heirs);
    }
  }

  lemma {:induction false} OwnSparesSpins(k: Setup, a: Site, moves: seq<Move>, b: Site, id: Uuid, before: Time)
    requires Path(k, a, moves, b) && Own(moves)
    ensures SparesSpins(k, a, moves, id, before)
    decreases |moves|
  {
    if moves != [] {
      assert moves[0] in moves && forall m | m in moves[1..] :: m in moves;
      OwnSparesSpins(k, After(k, a, moves[0]), moves[1..], b, id, before);
    }
  }

  ghost predicate LeadsInTurn(k: Setup, a: Site, z: Site, id: Uuid, before: Time) {
    exists moves :: Path(k, a, moves, z) && SparesSpins(k, a, moves, id, before)
  }

  lemma LeadsIsInTurn(k: Setup, a: Site, z: Site, id: Uuid, before: Time)
    requires Leads(k, a, z)
    ensures LeadsInTurn(k, a, z, id, before)
  {
    var moves :| PromptPath(k, a, moves, z);
    PromptPathIsPath(k, a, moves, z);
    OwnSparesSpins(k, a, moves, z, id, before);
  }

  lemma {:induction false} SomeOf(xs: set<Uuid>, n: nat) returns (ids: seq<Uuid>)
    requires n <= |xs|
    ensures |ids| == n && Distinct(ids) && forall i | 0 <= i < n :: ids[i] in xs
  {
    ids := [];
    if n > 0 {
      var x :| x in xs;
      var rest := SomeOf(xs - {x}, n - 1);
      ids := [x] + rest;
    }
  }

  /** For a scheduled job with nothing on the streams, when every other waiting series either
      always fires into the future or has all its times before the job's: scheduler, reaper
      and consumers can get it claimed, and so can any continuation of any process in turn
      that cancels nothing ahead, if and only if its queue is routable, its attempt_count is
      below the SMALLINT limit and fewer such earlier rows than one scheduler batch wait. */
  lemma DueReachesExactly(k: Setup, s: State, id: Uuid)
    requires Reachable(k.c, s) && id in s.db.rows && s.db.rows[id].status == Scheduled
    requires s.db.rows[id].scheduledAt.Some?
    requires forall j | j in Spinners(k, s.db.rows, id) :: SpinRow(k, s.db.rows[j], s.db.rows[id].scheduledAt.value)
    ensures var before := s.db.rows[id].scheduledAt.value;
            var reached := Rescuable(s.db.rows[id]) && |SpinAhead(k, s.db.rows, before)| < LimitOf(k, Due);
            && ((exists z :: Leads(k, Site(s, {}, {}), z) && NewlyClaimed(Site(s, {}, {}), z, id)) <==> reached)
            && ((exists z :: LeadsInTurn(k, Site(s, {}, {}), z, id, before) &&
                   NewlyClaimed(Site(s, {}, {}), z, id)) <==> reached)
  {
    var r, a, before := s.db.rows[id], Site(s, {}, {}), s.db.rows[id].scheduledAt.value;
    SpinnersAreAhead(k, s.db.rows, id);
    if Rescuable(r) && |SpinAhead(k, s.db.rows, before)| < LimitOf(k, Due) {
      NoJobIsLost(k, s, {}, id);
      var z :| Leads(k, a, z) && NewlyClaimed(a, z, id);
      LeadsIsInTurn(k, a, z, id, before);
    } else {
      forall z | LeadsInTurn(k, a, z, id, before) ensures !NewlyClaimed(a, z, id) { NeverDue(k, s, id, z); }
      forall z | Leads(k, a, z) ensures !NewlyClaimed(a, z, id) { LeadsIsInTurn(k, a, z, id, before); }
    }
  }

  lemma SpinnersAreAhead(k: Setup, rows: map<Uuid, Row>, id: Uuid)
    requires id in rows && rows[id].scheduledAt.Some?
    requires forall j | j in Spinners(k, rows, id) :: SpinRow(k, rows[j], rows[id].scheduledAt.value)
    ensures Spinners(k, rows, id) == SpinAhead(k, rows, rows[id].scheduledAt.value)
  {
    var before := rows[id].scheduledAt.value;
    forall j | j in rows && SpinRow(k, rows[j], before) ensures j in Spinners(k, rows, id) {
      assert NextOf(k, rows[j], before).value < before;
    }
  }

  lemma NeverDue(k: Setup, s: State, id: Uuid, z: Site)
    requires Reachable(k.c, s) && id in s.db.rows && s.db.rows[id].status == Scheduled
    requires s.db.rows[id].scheduledAt.Some?
    requires !Rescuable(s.db.rows[id]) || |SpinAhead(k, s.db.rows, s.db.rows[id].scheduledAt.value)| >= LimitOf(k, Due)
    requires LeadsInTurn(k, Site(s, {}, {}), z, id, s.db.rows[id].scheduledAt.value)
    ensures !NewlyClaimed(Site(s, {}, {}), z, id)
  {
    var r, a, before := s.db.rows[id], Site(s, {}, {}), s.db.rows[id].scheduledAt.value;
    ReachableIsSound(k.c, s);
    RowsAreShaped(s, id);
    var moves :| Path(k, a, moves, z) && SparesSpins(k, a, moves, id, before);
    if Rescuable(r) {
      var ahead := SomeOf(SpinAhead(k, s.db.rows, before), LimitOf(k, Due));
      BehindStays(k, a, moves, z, id, r, ahead);
    } else {
      HopelessStays(k, a, moves, z, id);
    }
  }

  // ---------- a series that spins ----------

  /** The follow-up a batch inserts is due in the very tick that made it if and only if the
      row has a next time that is not in the future. */
  lemma BackwardCronSpins(k: Setup, a: Site, m: Move, i: nat)
    requires CanMove(k, a, m) && m.Batch? && m.kind == Due && Sound(a.led) && i < |m.ids|
    ensures m.ids[i] in a.led.db.rows
    ensures var r := a.led.db.rows[m.ids[i]];
            m.kids[i] in Matching(After(k, a, m).led.db.rows, Wanted(k, After(k, a, m).led, Due)) <==>
            HasFollowup(r) && NextOf(k, r, a.led.clock).Some? && NextOf(k, r, a.led.clock).value <= a.led.clock
  {
    MoveIsRun(k, a, m);
    FiredKid(k, a, m, i);
  }

  /** A due member of a series whose next time is never in the future. */
  ghost predicate SpinningMember(k: Setup, s: State, sid: Uuid, j: Uuid) {
    && j in s.db.rows && s.db.rows[j].status == Scheduled && s.db.rows[j].series == Some(sid)
    && HasFollowup(s.db.rows[j]) && s.db.rows[j].scheduledAt.Some? && s.db.rows[j].scheduledAt.value <= s.clock
    && forall t: Time :: NextOf(k, s.db.rows[j], t).Some? && NextOf(k, s.db.rows[j], t).value <= t
  }

  /** Nobody cancels a member of the series. */
  predicate SparesSeries(a: Site, m: Move, sid: Uuid) {
    m.Other? && m.step.Do? && m.step.act.Cancel? && m.step.id in a.led.db.rows ==>
      a.led.db.rows[m.step.id].series != Some(sid)
  }

  predicate SparesSeriesAlong(k: Setup, a: Site, moves: seq<Move>, sid: Uuid)
    decreases |moves|
  {
    moves == [] ||
    ((moves[0].Batch? ==> |moves[0].kids| == |moves[0].ids|) && SparesSeries(a, moves[0], sid) &&
     SparesSeriesAlong(k, After(k, a, moves[0]), moves[1..], sid))
  }

  lemma KinKeepsSpinning(k: Setup, s: State, s': State, sid: Uuid, j: Uuid, h: Uuid, t: Time)
    requires SpinningMember(k, s, sid, j) && t <= s.clock <= s'.clock && h in s'.db.rows
    requires Kin(s.db.rows[j], s'.db.rows[h])
    requires s'.db.rows[h].scheduledAt == s.db.rows[j].scheduledAt ||
             s'.db.rows[h].scheduledAt == NextOf(k, s.db.rows[j], t)
    ensures SpinningMember(k, s', sid, h)
  {
    assert forall u: Time :: NextOf(k, s'.db.rows[h], u) == NextOf(k, s.db.rows[j], u);
  }

  lemma MoveKeepsSpinning(k: Setup, a: Site, m: Move, sid: Uuid, j: Uuid) returns (h: Uuid)
    requires Sound(a.led) && EntriesFit(a) && CanMove(k, a, m) && SparesSeries(a, m, sid)
    requires SpinningMember(k, a.led, sid, j)
    ensures SpinningMember(k, After(k, a, m).led, sid, h)
  {
    var s, s' := a.led, After(k, a, m).led;
    h := j;
    MoveIsRun(k, a, m);
    match m
    case Wait(_) => KinKeepsSpinning(k, s, s', sid, j, j, s.clock);
    case Batch(_, _, _) =>
      HeirAfterBatch(k, a, m, j);
      h := Heir(m, j);
      KinKeepsSpinning(k, s, s', sid, j, h, s.clock);
    case Sweep(_, _) =>
    case Deliver(_, _, _) =>
      DeliverLeavesScheduled(k, a, m, j);
      KinKeepsSpinning(k, s, s', sid, j, j, s.clock);
    case Other(step) =>
      if step.Fire? {
        h := HeirAfterFire(k, s, step.now, step.child, step.id, j);
        KinKeepsSpinning(k, s, s', sid, j, h, step.now);
      } else {
        StepLeavesScheduled(k.c, s, step, j);
        KinKeepsSpinning(k, s, s', sid, j, j, s.clock);
      }
  }

  /** Once a series whose next time is never in the future has a due member, it has one on
      every continuation that cancels no member, however often its members are fired; so
      every later scheduler batch has something to fire. */
  lemma {:induction false} SpinsForever(k: Setup, a: Site, moves: seq<Move>, b: Site, sid: Uuid, j: Uuid)
    requires Sound(a.led) && EntriesFit(a) && SpinningMember(k, a.led, sid, j)
    requires Path(k, a, moves, b) && SparesSeriesAlong(k, a, moves, sid)
    ensures exists h :: SpinningMember(k, b.led, sid, h)
    ensures forall m: Move | m.Batch? && m.kind == Due && CanMove(k, b, m) :: m.ids != []
    decreases |moves|
  {
    if moves == [] {
      assert SpinningMember(k, b.led, sid, j) && DueAt(b.led.clock)(b.led.db.rows[j]);
    } else {
      var h := MoveKeepsSpinning(k, a, moves[0], sid, j);
      MoveKeepsSound(k, a, moves[0]);
      MoveKeepsEntries(k, a, moves[0]);
      SpinsForever(k, After(k, a, moves[0]), moves[1..], b, sid, h);
    }
  }
}
