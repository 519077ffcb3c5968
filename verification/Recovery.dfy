/** No job is lost: from any reachable database, with every stream and pending list
    emptied, waiting, scheduler and reaper work, delivery and claim bring a job to a
    worker; and exactly when the sweep of an undispatched pending job gets there. */
module Recovery {
  import opened Lifecycle
  import opened Ledger
  import opened Batches
  import opened Queue
  import T = Store

  /** Configuration of the scheduler and the reaper. */
  datatype Setup = Setup(c: Config, schedBatch: int, reapBatch: nat, sweepAfter: Time)

  /** The tables, the stream entries, and the snapshots of the tables that a lagging read
      replica may still show. */
  datatype Site = Site(led: State, entries: set<Uuid>, past: set<map<Uuid, Row>>)

  /** The three transactions that move rows and push what they moved. */
  datatype Kind = Due | Matured | Stale

  datatype Move =
    | Wait(until: Time)
    | Batch(kind: Kind, ids: seq<Uuid>, kids: seq<Uuid>)
    | Sweep(seen: map<Uuid, Row>, ids: seq<Uuid>)
    | Deliver(id: Uuid, worker: string, token: Uuid)
    | Other(step: Step)

  function Wanted(k: Setup, s: State, kind: Kind): Row -> bool {
    match kind
    case Due => DueAt(s.clock)
    case Matured => MaturedAt(s.clock)
    case Stale => StaleAt(s.clock - k.c.staleAfter)
  }

  function OrderOf(kind: Kind): Row -> Time {
    match kind
    case Due => ByScheduled()
    case Matured => ByGate()
    case Stale => ByHeartbeat()
  }

  function LimitOf(k: Setup, kind: Kind): nat {
    if kind == Stale then ClampBatch(k.reapBatch) else ClampBatch(k.schedBatch)
  }

  function Sweepable(k: Setup, s: State): Row -> bool {
    StalePendingAt(s.clock - k.sweepAfter, s.clock)
  }

  /** Batches run with no lock held by others; sweeps read the tables or an older snapshot.
      `Other` is any single transaction of another process, except a claim: those need an entry. */
  ghost predicate CanMove(k: Setup, a: Site, m: Move) {
    match m
    case Wait(until) => a.led.clock <= until
    case Batch(kind, ids, kids) =>
      && Selects(a.led.db.rows, Wanted(k, a.led, kind), OrderOf(kind), {}, LimitOf(k, kind), ids)
      && |kids| == |ids| && Distinct(kids) && forall x | x in kids :: x !in a.led.minted
    case Sweep(seen, ids) =>
      && (seen == a.led.db.rows || seen in a.past)
      && Selects(seen, Sweepable(k, a.led), ByCreated(), {}, k.reapBatch, ids)
    case Deliver(id, _, token) => id in a.entries && token !in a.led.minted
    case Other(step) => Enabled(k.c, a.led, step) && !step.Advance? && !(step.Do? && step.act.Claim?)
  }

  /** Made by the scheduler, the reaper, a consumer or the clock alone. */
  predicate Own(moves: seq<Move>) {
    forall m | m in moves :: !m.Other?
  }

  /** Such a move whose sweep reads the present rows. */
  predicate Prompt(a: Site, m: Move) {
    !m.Other? && (m.Sweep? ==> m.seen == a.led.db.rows)
  }

  function LedgerSteps(k: Setup, a: Site, m: Move): seq<Step>
    requires m.Batch? ==> |m.kids| == |m.ids|
  {
    match m
    case Wait(until) => [Advance(until)]
    case Batch(Due, ids, kids) => FireSteps(ids, a.led.clock, kids)
    case Batch(Matured, ids, _) => DoAll(ids, Mature(a.led.clock))
    case Batch(Stale, ids, _) => DoAll(ids, Reclaim(a.led.clock - k.c.staleAfter))
    case Sweep(_, _) => []
    case Deliver(id, worker, token) => [Do(id, Claim(worker, token))]
    case Other(step) => [step]
  }

  function Pushed(rows: map<Uuid, Row>, ids: seq<Uuid>): set<Uuid> {
    set id | id in ids && id in rows && Routable(rows[id])
  }

  /** The job a single transaction's producer may push: one it inserted pending, promoted,
      opened, reclaimed or replayed. */
  function PushedBy(c: Config, s: State, step: Step): set<Uuid> {
    match step
    case Fire(id, now, _) => if Applies(s.db, id, Promote(now), s.clock) && Routable(s.db.rows[id]) then {id} else {}
    case Do(id, act) =>
      if (act.Create? || act.Mature? || act.Reclaim? || act.Replay?) && Applies(s.db, id, act, s.clock) &&
         Effect(Find(s.db.rows, id), act, s.clock).value.status == Pending &&
         Routable(Effect(Find(s.db.rows, id), act, s.clock).value)
      then {id} else {}
    case _ => {}
  }

  function After(k: Setup, a: Site, m: Move): Site
    requires m.Batch? ==> |m.kids| == |m.ids|
  {
    var led, past := RunFrom(k.c, a.led, LedgerSteps(k, a, m)), a.past + {a.led.db.rows};
    match m
    case Batch(_, ids, _) => Site(led, a.entries + Pushed(a.led.db.rows, ids), past)
    case Sweep(seen, ids) => Site(led, a.entries + Pushed(seen, ids), past)
    case Other(step) => Site(led, a.entries + PushedBy(k.c, a.led, step), past)
    case _ => Site(led, a.entries, past)
  }

  ghost predicate Path(k: Setup, a: Site, moves: seq<Move>, b: Site)
    decreases |moves|
  {
    if moves == [] then a == b
    else CanMove(k, a, moves[0]) && Path(k, After(k, a, moves[0]), moves[1..], b)
  }

  ghost predicate PromptPath(k: Setup, a: Site, moves: seq<Move>, b: Site)
    decreases |moves|
  {
    if moves == [] then a == b
    else CanMove(k, a, moves[0]) && Prompt(a, moves[0]) && PromptPath(k, After(k, a, moves[0]), moves[1..], b)
  }

  /** Scheduler, reaper and consumers can get from one site to the other. */
  ghost predicate Leads(k: Setup, a: Site, b: Site) {
    exists moves :: PromptPath(k, a, moves, b)
  }

  lemma {:induction false} PromptPathIsPath(k: Setup, a: Site, moves: seq<Move>, b: Site)
    requires PromptPath(k, a, moves, b)
    ensures Path(k, a, moves, b) && Own(moves)
    decreases |moves|
  {
    if moves != [] {
      PromptPathIsPath(k, After(k, a, moves[0]), moves[1..], b);
      assert forall m | m in moves :: m == moves[0] || m in moves[1..];
    }
  }

  lemma {:induction false} PathConcat(k: Setup, a: Site, p: seq<Move>, b: Site, q: seq<Move>, z: Site)
    requires PromptPath(k, a, p, b) && PromptPath(k, b, q, z)
    ensures PromptPath(k, a, p + q, z)
    decreases |p|
  {
    if p == [] {
      assert p + q == q;
    } else {
      assert (p + q)[0] == p[0] && (p + q)[1..] == p[1..] + q;
      PathConcat(k, After(k, a, p[0]), p[1..], b, q, z);
    }
  }

  lemma LeadsTransitive(k: Setup, a: Site, b: Site, z: Site)
    requires Leads(k, a, b) && Leads(k, b, z)
    ensures Leads(k, a, z)
  {
    var p :| PromptPath(k, a, p, b);
    var q :| PromptPath(k, b, q, z);
    PathConcat(k, a, p, b, q, z);
  }

  lemma LeadsOne(k: Setup, a: Site, m: Move)
    requires CanMove(k, a, m) && Prompt(a, m)
    ensures Leads(k, a, After(k, a, m))
  {
    assert [m][1..] == [];
    assert PromptPath(k, After(k, a, m), [], After(k, a, m));
    assert PromptPath(k, a, [m], After(k, a, m));
  }

  // ---------- moves are runs of the ledger ----------

  function BatchDb(k: Setup, s: State, m: Move): Db
    requires m.Batch? && |m.kids| == |m.ids|
  {
    match m.kind
    case Due => FireAll(k.c, s.db, m.ids, s.clock, m.kids, s.clock)
    case Matured => TouchAll(s.db, m.ids, Mature(s.clock), s.clock)
    case Stale => TouchAll(s.db, m.ids, Reclaim(s.clock - k.c.staleAfter), s.clock)
  }

  lemma OneStepRun(c: Config, s: State, step: Step)
    requires Enabled(c, s, step)
    ensures ValidFrom(c, s, [step]) && RunFrom(c, s, [step]) == Apply(c, s, step)
  {
    assert [step][1..] == [];
    assert ValidFrom(c, Apply(c, s, step), []) && RunFrom(c, Apply(c, s, step), []) == Apply(c, s, step);
  }

  lemma BatchIsRun(k: Setup, a: Site, m: Move)
    requires CanMove(k, a, m) && m.Batch?
    ensures ValidFrom(k.c, a.led, LedgerSteps(k, a, m))
    ensures var led := After(k, a, m).led;
            a.led.minted <= led.minted && led.clock == a.led.clock && led.db == BatchDb(k, a.led, m)
  {
    match m.kind
    case Due =>
      assert LedgerSteps(k, a, m) == FireSteps(m.ids, a.led.clock, m.kids);
      FireAllIsRun(k.c, a.led, m.ids, a.led.clock, m.kids);
    case Matured =>
      assert LedgerSteps(k, a, m) == DoAll(m.ids, Mature(a.led.clock));
      TouchAllIsRun(k.c, a.led, m.ids, Mature(a.led.clock));
    case Stale =>
      assert LedgerSteps(k, a, m) == DoAll(m.ids, Reclaim(a.led.clock - k.c.staleAfter));
      TouchAllIsRun(k.c, a.led, m.ids, Reclaim(a.led.clock - k.c.staleAfter));
  }

  lemma MoveIsRun(k: Setup, a: Site, m: Move)
    requires CanMove(k, a, m)
    ensures ValidFrom(k.c, a.led, LedgerSteps(k, a, m))
    ensures var led := After(k, a, m).led;
            && a.led.minted <= led.minted
            && (m.Batch? ==> led.clock == a.led.clock && led.db == BatchDb(k, a.led, m))
            && (m.Sweep? ==> led == a.led)
            && (m.Wait? ==> led == a.led.(clock := m.until))
            && (m.Deliver? ==> led == Apply(k.c, a.led, Do(m.id, Claim(m.worker, m.token))))
            && (m.Other? ==> led == Apply(k.c, a.led, m.step))
  {
    match m
    case Wait(until) => OneStepRun(k.c, a.led, Advance(until));
    case Batch(_, _, _) => BatchIsRun(k, a, m);
    case Sweep(_, _) =>
    case Deliver(id, worker, token) => OneStepRun(k.c, a.led, Do(id, Claim(worker, token)));
    case Other(step) =>
      OneStepRun(k.c, a.led, step);
      assert a.led.minted <= Apply(k.c, a.led, step).minted;
  }

  lemma MoveKeepsSound(k: Setup, a: Site, m: Move)
    requires CanMove(k, a, m) && Sound(a.led)
    ensures Sound(After(k, a, m).led)
  {
    MoveIsRun(k, a, m);
    RunKeepsSound(k.c, a.led, LedgerSteps(k, a, m));
  }

  /** A continuation of the recovery machine is a run of the ledger, so it never leaves the
      reachable states. */
  lemma {:induction false} PathIsRun(k: Setup, a: Site, moves: seq<Move>, b: Site)
    requires Path(k, a, moves, b)
    ensures exists steps :: ValidFrom(k.c, a.led, steps) && RunFrom(k.c, a.led, steps) == b.led
    decreases |moves|
  {
    if moves == [] {
      assert ValidFrom(k.c, a.led, []) && RunFrom(k.c, a.led, []) == b.led;
    } else {
      var mid := After(k, a, moves[0]);
      PathIsRun(k, mid, moves[1..], b);
      var rest :| ValidFrom(k.c, mid.led, rest) && RunFrom(k.c, mid.led, rest) == b.led;
      MoveIsRun(k, a, moves[0]);
      RunConcat(k.c, a.led, LedgerSteps(k, a, moves[0]), rest);
    }
  }

  // ---------- what the database can always answer ----------

  function Matching(rows: map<Uuid, Row>, wanted: Row -> bool): set<Uuid> {
    set id | id in rows && wanted(rows[id])
  }

  ghost predicate Least(rows: map<Uuid, Row>, pool: set<Uuid>, key: Row -> Time, id: Uuid) {
    id in pool && id in rows && forall j | j in pool && j in rows :: key(rows[id]) <= key(rows[j])
  }

  lemma LeastOf(rows: map<Uuid, Row>, pool: set<Uuid>, key: Row -> Time, x: Uuid, y: Uuid)
    requires x in pool && x in rows && Least(rows, pool - {x}, key, y)
    ensures Least(rows, pool, key, if key(rows[x]) <= key(rows[y]) then x else y)
  {
    forall j | j in pool && j in rows && j != x ensures key(rows[y]) <= key(rows[j]) {
      assert j in pool - {x};
    }
  }

  lemma SmallestExists(rows: map<Uuid, Row>, pool: set<Uuid>, key: Row -> Time)
    requires pool != {} && pool <= rows.Keys
    ensures exists id :: Least(rows, pool, key, id)
  {
    var x :| x in pool;
    if pool == {x} {
      assert Least(rows, pool, key, x);
    } else {
      SmallestExists(rows, pool - {x}, key);
      var y :| Least(rows, pool - {x}, key, y);
      LeastOf(rows, pool, key, x, y);
    }
  }

  /** A locking SELECT always has an answer. */
  lemma {:induction false} SelectExists(rows: map<Uuid, Row>, wanted: Row -> bool, key: Row -> Time, limit: nat)
    ensures exists ids :: Selects(rows, wanted, key, {}, limit, ids)
  {
    if limit == 0 {
      assert Selects(rows, wanted, key, {}, 0, []);
    } else {
      SelectExists(rows, wanted, key, limit - 1);
      var ids :| Selects(rows, wanted, key, {}, limit - 1, ids);
      var left := Matching(rows, wanted) - Elements(ids);
      if left == {} {
        forall id | id in rows && wanted(rows[id]) ensures id in ids { assert id !in left; }
        assert Selects(rows, wanted, key, {}, limit, ids);
      } else {
        SmallestExists(rows, left, key);
        var x :| Least(rows, left, key, x);
        forall id | id in rows && wanted(rows[id]) && id !in ids + [x] ensures key(rows[x]) <= key(rows[id]) {
          assert id in left;
        }
        assert Selects(rows, wanted, key, {}, limit, ids + [x]);
      }
    }
  }

  lemma {:induction false} FreshIds(minted: set<Uuid>, n: nat)
    ensures exists ids: seq<Uuid> :: |ids| == n && Distinct(ids) && forall x | x in ids :: x !in minted
  {
    if n == 0 {
      var none: seq<Uuid> := [];
      assert |none| == 0 && Distinct(none);
    } else {
      FreshIds(minted, n - 1);
      var ids: seq<Uuid> :| |ids| == n - 1 && Distinct(ids) && forall x | x in ids :: x !in minted;
      var used := minted + Elements(ids);
      FreshId(used);
      var x: Uuid :| x !in used;
      var more := ids + [x];
      assert forall y | y in more :: y !in minted;
      assert |more| == n && Distinct(more);
    }
  }

  // ---------- one batch ----------

  ghost predicate Forward(k: Setup, cron: string, zone: string) {
    forall t: Time :: k.c.next(cron, zone, t).Some? ==> k.c.next(cron, zone, t).value > t
  }

  function Moved(kind: Kind, r: Row): Row {
    match kind
    case Due => Promoted(r)
    case Matured => T.Ungated(r)
    case Stale => T.Orphaned(r)
  }

  lemma ShapedRowsAreFertile(s: State)
    requires Sound(s)
    ensures forall id | id in s.db.rows :: Fertile(s.db.rows[id])
  {
    forall id | id in s.db.rows ensures Fertile(s.db.rows[id]) { RowsAreShaped(s, id); }
  }

  /** Which rows a batch moves, which it inserts, and which it leaves alone. */
  ghost predicate BatchRow(k: Setup, s: State, m: Move, rows': map<Uuid, Row>, j: Uuid)
    requires m.Batch? && |m.kids| == |m.ids|
  {
    && (j in m.ids ==> j in s.db.rows && j !in m.kids && Find(rows', j) == Some(Moved(m.kind, s.db.rows[j])))
    && (j !in m.ids && j !in m.kids ==> Find(rows', j) == Find(s.db.rows, j))
    && (j in m.kids ==> j !in s.db.rows)
    && (j in m.kids && j in rows' ==>
          exists i | 0 <= i < |m.ids| :: m.ids[i] in s.db.rows && m.kind == Due &&
            Some(rows'[j]) == Followup(k.c, Promoted(s.db.rows[m.ids[i]]), s.clock))
  }

  lemma DueRow(k: Setup, s: State, m: Move, j: Uuid)
    requires m.Batch? && m.kind == Due && |m.kids| == |m.ids|
    requires Fireable(s.db.rows, m.ids, s.clock) && FreshKids(s.db.rows, m.kids)
    requires forall id | id in s.db.rows :: Fertile(s.db.rows[id])
    ensures BatchRow(k, s, m, FireAll(k.c, s.db, m.ids, s.clock, m.kids, s.clock).rows, j)
  {
    FireAllRows(k.c, s.db, m.ids, s.clock, m.kids, s.clock);
    if j in m.ids {
      var i :| 0 <= i < |m.ids| && m.ids[i] == j;
    } else if j in m.kids {
      var i :| 0 <= i < |m.kids| && m.kids[i] == j;
      assert m.ids[i] in s.db.rows;
    }
  }

  lemma TouchedRow(k: Setup, s: State, m: Move, act: Act, j: Uuid)
    requires m.Batch? && |m.kids| == |m.ids| && Distinct(m.ids) && FreshKids(s.db.rows, m.kids)
    requires (m.kind == Matured && act.Mature?) || (m.kind == Stale && act.Reclaim?)
    requires forall id | id in m.ids :: Guard(Find(s.db.rows, id), act, s.clock)
    ensures BatchRow(k, s, m, TouchAll(s.db, m.ids, act, s.clock).rows, j)
  {
    TouchAllRow(s.db, m.ids, act, s.clock, j);
    if j in m.ids { assert Guard(Find(s.db.rows, j), act, s.clock); }
  }

  lemma RowAfterDb(k: Setup, a: Site, m: Move, j: Uuid)
    requires CanMove(k, a, m) && m.Batch? && FreshKids(a.led.db.rows, m.kids)
    requires forall id | id in a.led.db.rows :: Fertile(a.led.db.rows[id])
    ensures BatchRow(k, a.led, m, BatchDb(k, a.led, m).rows, j)
  {
    var rows, t := a.led.db.rows, a.led.clock;
    match m.kind
    case Due =>
      T.SelectedAreDue(rows, t, {}, LimitOf(k, Due), m.ids);
      DueRow(k, a.led, m, j);
    case Matured =>
      T.SelectedAreMatured(rows, t, t, {}, LimitOf(k, Matured), m.ids);
      TouchedRow(k, a.led, m, Mature(t), j);
    case Stale =>
      T.SelectedAreStale(rows, t - k.c.staleAfter, t, {}, LimitOf(k, Stale), m.ids);
      TouchedRow(k, a.led, m, Reclaim(t - k.c.staleAfter), j);
  }

  lemma RowAfterBatch(k: Setup, a: Site, m: Move, j: Uuid)
    requires CanMove(k, a, m) && m.Batch? && Sound(a.led)
    ensures BatchRow(k, a.led, m, After(k, a, m).led.db.rows, j)
  {
    BatchIsRun(k, a, m);
    ShapedRowsAreFertile(a.led);
    forall x | x in m.kids ensures x !in a.led.db.rows {
      if x in a.led.db.rows { RowsAreShaped(a.led, x); }
    }
    RowAfterDb(k, a, m, j);
  }

  /** A series row whose next time may lie in the past. */
  ghost predicate Spinner(k: Setup, r: Row) {
    r.status == Scheduled && HasFollowup(r) && !Forward(k, r.cron.value, SeriesZone(r))
  }

  ghost function Spinners(k: Setup, rows: map<Uuid, Row>, id: Uuid): set<Uuid> {
    set j | j in rows && j != id && Spinner(k, rows[j])
  }

  /** The rows a batch is about that it cannot put back by firing them. */
  ghost function Steady(k: Setup, s: State, kind: Kind): set<Uuid> {
    set j | j in s.db.rows && Wanted(k, s, kind)(s.db.rows[j]) && !Spinner(k, s.db.rows[j])
  }

  lemma FollowupIsSpinnerOrLater(k: Setup, s: State, parent: Uuid)
    requires parent in s.db.rows && DueAt(s.clock)(s.db.rows[parent])
    ensures var f := Followup(k.c, Promoted(s.db.rows[parent]), s.clock);
            f.Some? ==>
              (if Spinner(k, s.db.rows[parent]) then Spinner(k, f.value)
               else !DueAt(s.clock)(f.value) && !Spinner(k, f.value))
  {
    var r := s.db.rows[parent];
    if HasFollowup(r) && !Spinner(k, r) { assert Forward(k, r.cron.value, SeriesZone(r)); }
  }

  /** A batch takes its rows out of its own WHERE clause and puts none in, except follow-ups
      of series whose next time lies in the past. */
  lemma BatchDrains(k: Setup, a: Site, m: Move)
    requires CanMove(k, a, m) && m.Batch? && Sound(a.led)
    ensures var b := After(k, a, m);
            && b.led.clock == a.led.clock
            && Steady(k, b.led, m.kind) <= Steady(k, a.led, m.kind) - Elements(m.ids)
  {
    MoveIsRun(k, a, m);
    var rows, rows' := a.led.db.rows, After(k, a, m).led.db.rows;
    forall j | j in rows' && Wanted(k, a.led, m.kind)(rows'[j]) && !Spinner(k, rows'[j])
      ensures j in Steady(k, a.led, m.kind) && j !in m.ids
    {
      RowAfterBatch(k, a, m, j);
      if j in m.kids {
        var i :| 0 <= i < |m.ids| && m.ids[i] in rows && m.kind == Due &&
                 Some(rows'[j]) == Followup(k.c, Promoted(rows[m.ids[i]]), a.led.clock);
        assert Wanted(k, a.led, m.kind)(rows[m.ids[i]]);
        FollowupIsSpinnerOrLater(k, a.led, m.ids[i]);
      }
    }
  }

  lemma FiredKid(k: Setup, a: Site, m: Move, i: nat)
    requires CanMove(k, a, m) && m.Batch? && m.kind == Due && Sound(a.led) && i < |m.ids|
    ensures m.ids[i] in a.led.db.rows && DueAt(a.led.clock)(a.led.db.rows[m.ids[i]]) && m.kids[i] !in a.led.db.rows
    ensures Find(After(k, a, m).led.db.rows, m.kids[i]) ==
            Followup(k.c, Promoted(a.led.db.rows[m.ids[i]]), a.led.clock)
  {
    BatchIsRun(k, a, m);
    ShapedRowsAreFertile(a.led);
    forall x | x in m.kids ensures x !in a.led.db.rows { if x in a.led.db.rows { RowsAreShaped(a.led, x); } }
    T.SelectedAreDue(a.led.db.rows, a.led.clock, {}, LimitOf(k, Due), m.ids);
    FireAllRows(k.c, a.led.db, m.ids, a.led.clock, m.kids, a.led.clock);
  }

  lemma {:induction false} InjectionSize(f: map<Uuid, Uuid>, b: set<Uuid>)
    requires forall x | x in f :: f[x] in b
    requires forall x, y | x in f && y in f && x != y :: f[x] != f[y]
    ensures |f| <= |b|
    decreases |f|
  {
    if f.Keys != {} {
      var x :| x in f.Keys;
      var g := f - {x};
      assert g.Keys == f.Keys - {x};
      assert |g.Keys| == |g| && |f.Keys| == |f|;
      InjectionSize(g, b - {f[x]});
    }
  }

  /** Where a spinner of the site after a batch comes from: itself, or the one that fired. */
  ghost function Ancestor(m: Move, x: Uuid): Uuid
    requires m.Batch? && |m.kids| == |m.ids|
  {
    if x in m.kids then
      var i :| 0 <= i < |m.kids| && m.kids[i] == x;
      m.ids[i]
    else x
  }

  lemma SpinnerComesFrom(k: Setup, a: Site, m: Move, id: Uuid, x: Uuid)
    requires CanMove(k, a, m) && m.Batch? && Sound(a.led) && id !in m.ids && id in a.led.db.rows
    requires x in Spinners(k, After(k, a, m).led.db.rows, id)
    ensures Ancestor(m, x) in Spinners(k, a.led.db.rows, id)
    ensures x in m.kids <==> Ancestor(m, x) in m.ids
  {
    var rows, rows' := a.led.db.rows, After(k, a, m).led.db.rows;
    RowAfterBatch(k, a, m, x);
    if x in m.kids {
      var i :| 0 <= i < |m.kids| && m.kids[i] == x && Ancestor(m, x) == m.ids[i];
      assert m.kind == Due;
      FiredKid(k, a, m, i);
      FollowupIsSpinnerOrLater(k, a.led, m.ids[i]);
      RowAfterBatch(k, a, m, m.ids[i]);
    }
  }

  lemma AncestorsDiffer(m: Move, x: Uuid, y: Uuid)
    requires m.Batch? && |m.kids| == |m.ids| && Distinct(m.ids) && x != y
    requires (x in m.kids <==> Ancestor(m, x) in m.ids) && (y in m.kids <==> Ancestor(m, y) in m.ids)
    ensures Ancestor(m, x) != Ancestor(m, y)
  {
    if x in m.kids && y in m.kids {
      var i :| 0 <= i < |m.kids| && m.kids[i] == x && Ancestor(m, x) == m.ids[i];
      var n :| 0 <= n < |m.kids| && m.kids[n] == y && Ancestor(m, y) == m.ids[n];
      assert i != n;
    }
  }

  ghost function Ancestors(m: Move, xs: set<Uuid>): map<Uuid, Uuid>
    requires m.Batch? && |m.kids| == |m.ids|
  {
    map x | x in xs :: Ancestor(m, x)
  }

  /** Firing never adds to the series rows whose next time may lie in the past. */
  lemma SpinnersDoNotGrow(k: Setup, a: Site, m: Move, id: Uuid)
    requires CanMove(k, a, m) && m.Batch? && Sound(a.led) && id !in m.ids && id in a.led.db.rows
    ensures |Spinners(k, After(k, a, m).led.db.rows, id)| <= |Spinners(k, a.led.db.rows, id)|
  {
    var xs, ys := Spinners(k, After(k, a, m).led.db.rows, id), Spinners(k, a.led.db.rows, id);
    forall x | x in xs ensures Ancestor(m, x) in ys && (x in m.kids <==> Ancestor(m, x) in m.ids) {
      SpinnerComesFrom(k, a, m, id, x);
    }
    DistinctSelected(k, a, m);
    forall x, y | x in xs && y in xs && x != y ensures Ancestor(m, x) != Ancestor(m, y) { AncestorsDiffer(m, x, y); }
    var f := Ancestors(m, xs);
    InjectionSize(f, ys);
    assert f.Keys == xs && |f.Keys| == |f|;
  }

  lemma DistinctSelected(k: Setup, a: Site, m: Move)
    requires CanMove(k, a, m) && m.Batch?
    ensures Distinct(m.ids) && |m.ids| <= LimitOf(k, m.kind)
  {
  }

  /** In a stream entry, pending, ungated and with an attempt left in the SMALLINT. */
  predicate Ready(a: Site, id: Uuid) {
    && id in a.entries && id in a.led.db.rows
    && a.led.db.rows[id].status == Pending && GateOpen(a.led.db.rows[id], a.led.clock)
    && a.led.db.rows[id].attempts < MAX_SMALLINT
  }

  predicate Rescuable(r: Row) {
    Routable(r) && r.attempts < MAX_SMALLINT
  }

  lemma MovedIsReady(kind: Kind, r: Row, clock: Time)
    requires Shape(r, clock)
    requires kind == Due ==> r.status == Scheduled
    requires kind == Matured ==> r.status == Pending || r.status == Queued
    requires kind == Stale ==> r.status == Running
    ensures Moved(kind, r).status == Pending && Moved(kind, r).notBefore == None
    ensures Moved(kind, r).attempts == r.attempts && Routable(Moved(kind, r)) == Routable(r)
  {
  }

  lemma SmallerSet(a: set<Uuid>, b: set<Uuid>, x: Uuid)
    requires a <= b && x in b && x !in a
    ensures |a| < |b|
  {
    SubsetSize(a, b - {x});
  }

  lemma BatchHits(k: Setup, a: Site, m: Move, id: Uuid)
    requires CanMove(k, a, m) && m.Batch? && Sound(a.led) && id in m.ids
    requires id in a.led.db.rows && Rescuable(a.led.db.rows[id])
    ensures Ready(After(k, a, m), id)
  {
    MoveIsRun(k, a, m);
    RowAfterBatch(k, a, m, id);
    RowsAreShaped(a.led, id);
    var i :| 0 <= i < |m.ids| && m.ids[i] == id;
    assert Wanted(k, a.led, m.kind)(a.led.db.rows[m.ids[i]]);
    MovedIsReady(m.kind, a.led.db.rows[id], a.led.clock);
  }

  /** Fewer rows than one scheduler batch can keep coming back. */
  ghost predicate RoomFor(k: Setup, rows: map<Uuid, Row>, kind: Kind, id: Uuid) {
    kind == Due ==> |Spinners(k, rows, id)| < LimitOf(k, Due)
  }

  /** A full batch lists a row it cannot put back. */
  lemma FullBatchIsSteady(k: Setup, a: Site, m: Move, id: Uuid)
    requires CanMove(k, a, m) && m.Batch? && id !in m.ids && |m.ids| == LimitOf(k, m.kind)
    requires RoomFor(k, a.led.db.rows, m.kind, id)
    ensures exists g | g in m.ids :: g in Steady(k, a.led, m.kind)
  {
    if m.kind == Due {
      DistinctSize(m.ids);
      if Elements(m.ids) <= Spinners(k, a.led.db.rows, id) {
        SubsetSize(Elements(m.ids), Spinners(k, a.led.db.rows, id));
        assert false;
      }
      var g :| g in Elements(m.ids) && g !in Spinners(k, a.led.db.rows, id);
      assert g in Steady(k, a.led, m.kind);
    } else {
      assert m.ids[0] in m.ids && m.ids[0] in Steady(k, a.led, m.kind);
    }
  }

  /** A batch that misses a row it wants is full, so fewer steady rows are left to move. */
  lemma BatchMisses(k: Setup, a: Site, m: Move, id: Uuid)
    requires CanMove(k, a, m) && m.Batch? && Sound(a.led) && RoomFor(k, a.led.db.rows, m.kind, id)
    requires id in Matching(a.led.db.rows, Wanted(k, a.led, m.kind)) && id !in m.ids
    requires LimitOf(k, m.kind) >= 1
    ensures var b := After(k, a, m);
            && id in b.led.db.rows && b.led.db.rows[id] == a.led.db.rows[id]
            && id in Matching(b.led.db.rows, Wanted(k, b.led, m.kind))
            && RoomFor(k, b.led.db.rows, m.kind, id)
            && |Steady(k, b.led, m.kind)| < |Steady(k, a.led, m.kind)|
  {
    var rows, wanted := a.led.db.rows, Wanted(k, a.led, m.kind);
    var b := After(k, a, m);
    BatchDrains(k, a, m);
    RowAfterBatch(k, a, m, id);
    SpinnersDoNotGrow(k, a, m, id);
    assert id in rows && wanted(rows[id]) && |m.ids| == LimitOf(k, m.kind);
    FullBatchIsSteady(k, a, m, id);
    var g :| g in m.ids && g in Steady(k, a.led, m.kind);
    SmallerSet(Steady(k, b.led, m.kind), Steady(k, a.led, m.kind), g);
  }

  lemma SomeBatch(k: Setup, a: Site, kind: Kind)
    ensures exists m: Move :: m.Batch? && m.kind == kind && CanMove(k, a, m)
  {
    SelectExists(a.led.db.rows, Wanted(k, a.led, kind), OrderOf(kind), LimitOf(k, kind));
    var ids :| Selects(a.led.db.rows, Wanted(k, a.led, kind), OrderOf(kind), {}, LimitOf(k, kind), ids);
    FreshIds(a.led.minted, |ids|);
    var kids: seq<Uuid> :| |kids| == |ids| && Distinct(kids) && forall x | x in kids :: x !in a.led.minted;
    assert CanMove(k, a, Batch(kind, ids, kids));
  }

  /** Repeating the batch transaction reaches every row its WHERE clause matches. */
  lemma {:induction false} BatchesReach(k: Setup, a: Site, kind: Kind, id: Uuid)
    requires Sound(a.led) && RoomFor(k, a.led.db.rows, kind, id)
    requires id in Matching(a.led.db.rows, Wanted(k, a.led, kind)) && Rescuable(a.led.db.rows[id])
    ensures exists b :: Leads(k, a, b) && Ready(b, id) && a.led.minted <= b.led.minted
    decreases |Steady(k, a.led, kind)|
  {
    SomeBatch(k, a, kind);
    var m: Move :| m.Batch? && m.kind == kind && CanMove(k, a, m);
    var b := After(k, a, m);
    LeadsOne(k, a, m);
    MoveIsRun(k, a, m);
    if id in m.ids {
      BatchHits(k, a, m, id);
    } else {
      MoveKeepsSound(k, a, m);
      BatchMisses(k, a, m, id);
      BatchesReach(k, b, kind, id);
      var z :| Leads(k, b, z) && Ready(z, id) && b.led.minted <= z.led.minted;
      LeadsTransitive(k, a, b, z);
    }
  }

  /** The job is running under a token minted after site a. */
  predicate NewlyClaimed(a: Site, b: Site, id: Uuid) {
    id in b.led.db.rows && b.led.db.rows[id].status == Running &&
    b.led.db.rows[id].token.Some? && b.led.db.rows[id].token.value !in a.led.minted
  }

  lemma ReadyIsClaimed(k: Setup, a: Site, b: Site, id: Uuid)
    requires Leads(k, a, b) && Ready(b, id) && a.led.minted <= b.led.minted
    ensures exists z :: Leads(k, a, z) && NewlyClaimed(a, z, id)
  {
    FreshId(b.led.minted);
    var token: Uuid :| token !in b.led.minted;
    var m := Deliver(id, "worker", token);
    LeadsOne(k, b, m);
    MoveIsRun(k, b, m);
    var z := After(k, b, m);
    LeadsTransitive(k, a, b, z);
    assert NewlyClaimed(a, z, id);
  }

  // ---------- the sweep ----------

  /** Pending rows no claim will ever take, created no later than the job. */
  function Stuck(rows: map<Uuid, Row>, r: Row): set<Uuid> {
    set j | j in rows && (rows[j].status == Pending || rows[j].status == Queued) && !Rescuable(rows[j]) &&
            rows[j].createdAt <= r.createdAt
  }

  function Helpable(k: Setup, s: State): set<Uuid> {
    set j | j in s.db.rows && Sweepable(k, s)(s.db.rows[j]) && Rescuable(s.db.rows[j])
  }

  lemma DistinctSize(ids: seq<Uuid>)
    requires Distinct(ids)
    ensures |Elements(ids)| == |ids|
  {
    if ids != [] {
      DistinctSize(ids[..|ids| - 1]);
      assert Elements(ids) == Elements(ids[..|ids| - 1]) + {ids[|ids| - 1]};
    }
  }

  /** A full batch that does not list the job lists a row a claim can take. */
  lemma FullBatchHelps(k: Setup, s: State, id: Uuid, ids: seq<Uuid>)
    requires Selects(s.db.rows, Sweepable(k, s), ByCreated(), {}, k.reapBatch, ids)
    requires id in Helpable(k, s) && id !in ids && |Stuck(s.db.rows, s.db.rows[id])| < k.reapBatch
    ensures exists g | g in ids :: g in Helpable(k, s)
  {
    DistinctSize(ids);
    if forall g | g in ids :: g !in Helpable(k, s) {
      forall g | g in ids ensures g in Stuck(s.db.rows, s.db.rows[id]) {
        var i :| 0 <= i < |ids| && ids[i] == g;
        assert ByCreated()(s.db.rows[ids[i]]) <= ByCreated()(s.db.rows[id]);
      }
      SubsetSize(Elements(ids), Stuck(s.db.rows, s.db.rows[id]));
      assert false;
    }
  }

  lemma ClaimTakesOneOut(k: Setup, a: Site, g: Uuid, worker: string, token: Uuid, id: Uuid)
    requires g in Helpable(k, a.led) && g in a.entries && token !in a.led.minted && id in a.led.db.rows && id != g
    requires Sound(a.led)
    ensures var b := After(k, a, Deliver(g, worker, token));
            && CanMove(k, a, Deliver(g, worker, token)) && b.led.clock == a.led.clock && b.entries == a.entries
            && id in b.led.db.rows && b.led.db.rows[id] == a.led.db.rows[id]
            && Helpable(k, b.led) == Helpable(k, a.led) - {g}
            && Stuck(b.led.db.rows, a.led.db.rows[id]) <= Stuck(a.led.db.rows, a.led.db.rows[id])
  {
    var s' := Apply(k.c, a.led, Do(g, Claim(worker, token)));
    assert After(k, a, Deliver(g, worker, token)).led == s' by { MoveIsRun(k, a, Deliver(g, worker, token)); }
    ClaimedRow(k.c, a.led, g, worker, token, g);
    forall j | j != g ensures Find(s'.db.rows, j) == Find(a.led.db.rows, j) {
      ClaimedRow(k.c, a.led, g, worker, token, j);
    }
    OneRowRuns(k, a.led, s', g, a.led.db.rows[id]);
    assert Find(s'.db.rows, id) == Some(a.led.db.rows[id]);
  }

  /** A row that goes to running is out of the sweep's reach; nothing else changes there. */
  lemma OneRowRuns(k: Setup, s: State, s': State, g: Uuid, r: Row)
    requires s'.clock == s.clock && g in s'.db.rows && s'.db.rows[g].status == Running
    requires forall j | j != g :: Find(s'.db.rows, j) == Find(s.db.rows, j)
    ensures Helpable(k, s') == Helpable(k, s) - {g} && Stuck(s'.db.rows, r) <= Stuck(s.db.rows, r)
  {
    forall j | j != g
      ensures (j in s'.db.rows <==> j in s.db.rows) && (j in s.db.rows ==> s'.db.rows[j] == s.db.rows[j])
    {
      assert Find(s'.db.rows, j) == Find(s.db.rows, j);
    }
  }

  lemma ClaimedRow(c: Config, s: State, g: Uuid, worker: string, token: Uuid, j: Uuid)
    requires g in s.db.rows && Claimable(s.db.rows[g].status) && GateOpen(s.db.rows[g], s.clock)
    requires s.db.rows[g].attempts < MAX_SMALLINT
    ensures var rows' := Apply(c, s, Do(g, Claim(worker, token))).db.rows;
            if j == g then g in rows' && rows'[g].status == Running else Find(rows', j) == Find(s.db.rows, j)
    ensures Apply(c, s, Do(g, Claim(worker, token))).clock == s.clock
  {
    StepOnRow(c, s, Do(g, Claim(worker, token)), j);
  }

  /** With fewer rows stuck ahead than one sweep batch, repeated sweeps dispatch the job. */
  lemma {:induction false} SweepsReach(k: Setup, a: Site, id: Uuid)
    requires Sound(a.led) && id in Helpable(k, a.led)
    requires |Stuck(a.led.db.rows, a.led.db.rows[id])| < k.reapBatch
    ensures exists b :: Leads(k, a, b) && Ready(b, id) && a.led.minted <= b.led.minted
    decreases |Helpable(k, a.led)|
  {
    SelectExists(a.led.db.rows, Sweepable(k, a.led), ByCreated(), k.reapBatch);
    var ids :| Selects(a.led.db.rows, Sweepable(k, a.led), ByCreated(), {}, k.reapBatch, ids);
    var b := After(k, a, Sweep(a.led.db.rows, ids));
    LeadsOne(k, a, Sweep(a.led.db.rows, ids));
    MoveIsRun(k, a, Sweep(a.led.db.rows, ids));
    RowsAreShaped(a.led, id);
    if id in ids {
      assert Ready(b, id);
    } else {
      FullBatchHelps(k, a.led, id, ids);
      var g :| g in ids && g in Helpable(k, a.led);
      FreshId(b.led.minted);
      var token: Uuid :| token !in b.led.minted;
      var m := Deliver(g, "worker", token);
      ClaimTakesOneOut(k, b, g, "worker", token, id);
      LeadsOne(k, b, m);
      MoveKeepsSound(k, b, m);
      MoveIsRun(k, b, m);
      var d := After(k, b, m);
      SubsetSize(Stuck(d.led.db.rows, a.led.db.rows[id]), Stuck(a.led.db.rows, a.led.db.rows[id]));
      SweepsReach(k, d, id);
      var z :| Leads(k, d, z) && Ready(z, id) && d.led.minted <= z.led.minted;
      LeadsTransitive(k, b, d, z);
      LeadsTransitive(k, a, b, z);
    }
  }

  // ---------- no job is lost ----------

  lemma WaitLeads(k: Setup, a: Site, until: Time)
    requires a.led.clock <= until && Sound(a.led)
    ensures var b := Site(a.led.(clock := until), a.entries, a.past + {a.led.db.rows});
            Leads(k, a, b) && Sound(b.led)
  {
    LeadsOne(k, a, Wait(until));
    MoveIsRun(k, a, Wait(until));
    MoveKeepsSound(k, a, Wait(until));
  }

  function Later(a: Time, b: Time): Time { if a < b then b else a }

  /** The job is scheduled, running or pending, routable and not at the SMALLINT limit; a
      scheduled one has fewer series rows than one scheduler batch around that may fire into
      the past, an ungated pending one has fewer pending rows than one sweep batch stuck at
      or before it. */
  ghost predicate Recoverable(k: Setup, rows: map<Uuid, Row>, id: Uuid) {
    && id in rows && Rescuable(rows[id]) && rows[id].status in {Scheduled, Running, Pending}
    && (rows[id].status == Scheduled ==> |Spinners(k, rows, id)| < LimitOf(k, Due))
    && (rows[id].status == Pending && rows[id].notBefore == None ==> |Stuck(rows, rows[id])| < k.reapBatch)
  }

  lemma JobComesBack(k: Setup, s: State, past: set<map<Uuid, Row>>, id: Uuid)
    requires Sound(s) && Recoverable(k, s.db.rows, id)
    ensures exists d :: Leads(k, Site(s, {}, past), d) && Ready(d, id) && s.minted <= d.led.minted
  {
    RowsAreShaped(s, id);
    var r, a := s.db.rows[id], Site(s, {}, past);
    var until := Later(s.clock,
                       if r.status == Scheduled then r.scheduledAt.value
                       else if r.status == Running then r.heartbeatAt.value + k.c.staleAfter + 1
                       else if r.notBefore.Some? then r.notBefore.value
                       else r.createdAt + k.sweepAfter + 1);
    WaitLeads(k, a, until);
    var b := Site(s.(clock := until), {}, past + {s.db.rows});
    if r.status == Pending && r.notBefore == None {
      SweepsReach(k, b, id);
    } else {
      BatchesReach(k, b, if r.status == Scheduled then Due else if r.status == Running then Stale else Matured, id);
    }
    var d :| Leads(k, b, d) && Ready(d, id) && b.led.minted <= d.led.minted;
    LeadsTransitive(k, a, b, d);
  }

  /** From every reachable database, with nothing on the streams, every recoverable job can
      still be claimed anew. */
  lemma NoJobIsLost(k: Setup, s: State, past: set<map<Uuid, Row>>, id: Uuid)
    requires Reachable(k.c, s) && Recoverable(k, s.db.rows, id)
    ensures exists z :: Leads(k, Site(s, {}, past), z) && NewlyClaimed(Site(s, {}, past), z, id)
  {
    ReachableIsSound(k.c, s);
    JobComesBack(k, s, past, id);
    var d :| Leads(k, Site(s, {}, past), d) && Ready(d, id) && s.minted <= d.led.minted;
    ReadyIsClaimed(k, Site(s, {}, past), d, id);
  }
}
