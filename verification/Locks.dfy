/** The batch claimers at the level of row locks: select-and-lock with SKIP LOCKED, one
    guarded UPDATE per row, commit or rollback, interleaved arbitrarily with each other
    and with single-row transactions. */
module Locks {
  import opened Lifecycle
  import opened Ledger
  import opened Batches

  /** An open batch transaction: rows locked, rows updated so far, uncommitted writes. */
  datatype Txn = Txn(
    act: Act, at: Time, limit: Option<int>, ids: seq<Uuid>, kids: seq<Uuid>, done: nat, writes: map<Uuid, Row>)

  datatype Machine = Machine(committed: map<Uuid, Row>, open: map<nat, Txn>)

  datatype LockStep =
    | Begin(t: nat, act: Act, at: Time, limit: Option<int>, ids: seq<Uuid>, kids: seq<Uuid>)
    | Update(t: nat)
    | Commit(t: nat)
    | Rollback(t: nat)
    | Single(id: Uuid, act: Act, at: Time)

  predicate BatchAct(act: Act) {
    act.Promote? || act.Mature? || act.Reclaim? || act.Cancel?
  }

  /** The clamped LIMIT of the SELECT; cancelling a series has none. */
  predicate Within(limit: Option<int>, n: nat) {
    limit.Some? ==> n <= ClampBatch(limit.value)
  }

  predicate Locked(m: Machine, id: Uuid) {
    exists t | t in m.open :: id in m.open[t].ids
  }

  predicate Reserved(m: Machine, id: Uuid) {
    exists t | t in m.open :: id in m.open[t].kids
  }

  /** Child ids are fresh: unlike any stored row and any id another transaction holds. */
  predicate CanStep(m: Machine, step: LockStep) {
    match step
    case Begin(t, act, at, limit, ids, kids) =>
      && t !in m.open && BatchAct(act) && Within(limit, |ids|) && Distinct(ids)
      && |kids| == |ids| && FreshKids(m.committed, kids)
      && (forall id | id in ids :: id in m.committed && Guard(Some(m.committed[id]), act, at) && !Locked(m, id))
      && (forall id | id in ids :: Fertile(m.committed[id]))
      && (forall k | k in kids :: !Reserved(m, k))
    case Update(t) => t in m.open && m.open[t].done < |m.open[t].ids|
    case Commit(t) => t in m.open && m.open[t].done == |m.open[t].ids|
    case Rollback(t) => t in m.open
    case Single(id, act, _) => !Locked(m, id) && (act.Create? ==> !Reserved(m, id))
  }

  /** The status test in the UPDATE's WHERE clause. */
  predicate StillThere(act: Act, r: Row) {
    match act
    case Promote(_) => r.status == Scheduled
    case Mature(_) => r.status == Pending || r.status == Queued
    case Reclaim(_) => r.status == Running
    case _ => Claimable(r.status)
  }

  function Written(act: Act, at: Time, r: Row): Row {
    match act
    case Promote(_) => r.(status := Pending)
    case Mature(_) => r.(notBefore := None)
    case Reclaim(_) => r.(status := Pending, worker := None, token := None)
    case _ => r.(status := Cancelled, completedAt := Some(at))
  }

  /** One row's writes: its new version and, for a promotion, the follow-up. */
  function WriteRow(c: Config, writes: map<Uuid, Row>, act: Act, at: Time, id: Uuid, r: Row,
                    child: Uuid): map<Uuid, Row> {
    var w := writes[id := Written(act, at, r)];
    if act.Promote? && Followup(c, Written(act, at, r), act.now).Some?
    then w[child := Followup(c, Written(act, at, r), act.now).value]
    else w
  }

  /** The transaction sees its own writes, else the committed version; a row its UPDATE no
      longer matches is skipped. */
  function UpdateNext(c: Config, m: Machine, x: Txn): Txn
    requires x.done < |x.ids| == |x.kids|
  {
    var id := x.ids[x.done];
    var seen := if id in x.writes then Some(x.writes[id]) else Find(m.committed, id);
    if seen.Some? && StillThere(x.act, seen.value)
    then x.(done := x.done + 1, writes := WriteRow(c, x.writes, x.act, x.at, id, seen.value, x.kids[x.done]))
    else x.(done := x.done + 1)
  }

  function Step(c: Config, m: Machine, step: LockStep): Machine
    requires CanStep(m, step) && LocksSound(c, m)
  {
    match step
    case Begin(t, act, at, limit, ids, kids) => m.(open := m.open[t := Txn(act, at, limit, ids, kids, 0, map[])])
    case Update(t) => m.(open := m.open[t := UpdateNext(c, m, m.open[t])])
    case Commit(t) => Machine(m.committed + m.open[t].writes, m.open - {t})
    case Rollback(t) => m.(open := m.open - {t})
    case Single(id, act, at) =>
      if Guard(Find(m.committed, id), act, at)
      then m.(committed := PutRow(m.committed, id, Effect(Find(m.committed, id), act, at)))
      else m
  }

  // ---------- invariant ----------

  /** What the first n updates of a transaction write, given the committed rows. */
  function WritesFor(c: Config, rows: map<Uuid, Row>, x: Txn, n: nat): map<Uuid, Row>
    requires n <= |x.ids| == |x.kids| && forall id | id in x.ids :: id in rows
  {
    if n == 0 then map[]
    else WriteRow(c, WritesFor(c, rows, x, n - 1), x.act, x.at, x.ids[n - 1], rows[x.ids[n - 1]], x.kids[n - 1])
  }

  predicate TxnSound(c: Config, rows: map<Uuid, Row>, x: Txn) {
    && BatchAct(x.act) && Within(x.limit, |x.ids|) && x.done <= |x.ids| == |x.kids|
    && Distinct(x.ids) && FreshKids(rows, x.kids)
    && (forall id | id in x.ids :: id in rows && Guard(Some(rows[id]), x.act, x.at) && Fertile(rows[id]))
    && x.writes == WritesFor(c, rows, x, x.done)
  }

  /** Locked batches are pairwise disjoint, and so are the reserved ids. */
  predicate LocksSound(c: Config, m: Machine) {
    && (forall t | t in m.open :: TxnSound(c, m.committed, m.open[t]))
    && (forall t, u | t in m.open && u in m.open && t != u ::
          (forall id | id in m.open[t].ids :: id !in m.open[u].ids) &&
          (forall k | k in m.open[t].kids :: k !in m.open[u].kids))
  }

  lemma {:induction false} WritesOnly(c: Config, rows: map<Uuid, Row>, x: Txn, n: nat)
    requires n <= |x.ids| == |x.kids| && forall id | id in x.ids :: id in rows
    ensures forall j | j in WritesFor(c, rows, x, n) :: j in x.ids[..n] || j in x.kids[..n]
  {
    if n > 0 {
      WritesOnly(c, rows, x, n - 1);
      assert x.ids[..n] == x.ids[..n - 1] + [x.ids[n - 1]] && x.kids[..n] == x.kids[..n - 1] + [x.kids[n - 1]];
    }
  }

  lemma {:induction false} WritesAgree(c: Config, rows: map<Uuid, Row>, rows': map<Uuid, Row>, x: Txn, n: nat)
    requires n <= |x.ids| == |x.kids|
    requires forall id | id in x.ids :: id in rows && id in rows' && rows[id] == rows'[id]
    ensures WritesFor(c, rows, x, n) == WritesFor(c, rows', x, n)
  {
    if n > 0 { WritesAgree(c, rows, rows', x, n - 1); }
  }

  /** Changes elsewhere do not disturb an open transaction. */
  lemma TxnUndisturbed(c: Config, rows: map<Uuid, Row>, rows': map<Uuid, Row>, x: Txn)
    requires TxnSound(c, rows, x)
    requires forall id | id in x.ids :: Find(rows', id) == Find(rows, id)
    requires forall k | k in x.kids :: k !in rows'
    ensures TxnSound(c, rows', x)
  {
    forall id | id in x.ids ensures id in rows' && rows'[id] == rows[id] {
      assert Find(rows', id) == Find(rows, id);
    }
    WritesAgree(c, rows, rows', x, x.done);
  }

  /** The status-guarded UPDATE never misses a row its transaction has locked. */
  lemma UpdateNeverMisses(c: Config, m: Machine, t: nat)
    requires LocksSound(c, m) && t in m.open && m.open[t].done < |m.open[t].ids|
    ensures var x := m.open[t];
            var id := x.ids[x.done];
            && id in m.committed && id !in x.writes && StillThere(x.act, m.committed[id])
            && UpdateNext(c, m, x).writes ==
               WriteRow(c, x.writes, x.act, x.at, id, m.committed[id], x.kids[x.done])
  {
    var x := m.open[t];
    var id := x.ids[x.done];
    WritesOnly(c, m.committed, x, x.done);
    assert id in x.ids && id !in x.ids[..x.done];
    assert id !in x.kids;
    assert forall k | k in x.kids[..x.done] :: k in x.kids;
  }

  lemma UpdateKeepsSound(c: Config, m: Machine, t: nat)
    requires LocksSound(c, m) && CanStep(m, Update(t))
    ensures LocksSound(c, Step(c, m, Update(t)))
  {
    UpdateNeverMisses(c, m, t);
    var x := m.open[t];
    var id := x.ids[x.done];
    var x' := x.(done := x.done + 1, writes := WriteRow(c, x.writes, x.act, x.at, id, m.committed[id], x.kids[x.done]));
    assert UpdateNext(c, m, x) == x';
    UpdatedTxnSound(c, m.committed, x, x');
    NewTxnKeepsSound(c, m, t, x');
  }

  lemma UpdatedTxnSound(c: Config, rows: map<Uuid, Row>, x: Txn, x': Txn)
    requires TxnSound(c, rows, x) && x.done < |x.ids| && x.ids[x.done] in rows
    requires x' == x.(done := x.done + 1,
                      writes := WriteRow(c, x.writes, x.act, x.at, x.ids[x.done], rows[x.ids[x.done]], x.kids[x.done]))
    ensures TxnSound(c, rows, x')
  {
    WritesSame(c, rows, x, x', x.done);
  }

  lemma NewTxnKeepsSound(c: Config, m: Machine, t: nat, x: Txn)
    requires LocksSound(c, m) && t in m.open && TxnSound(c, m.committed, x)
    requires x.ids == m.open[t].ids && x.kids == m.open[t].kids
    ensures LocksSound(c, m.(open := m.open[t := x]))
  {
    var m' := m.(open := m.open[t := x]);
    forall u | u in m'.open ensures TxnSound(c, m'.committed, m'.open[u]) { assert u != t ==> m'.open[u] == m.open[u]; }
  }

  lemma {:induction false} WritesSame(c: Config, rows: map<Uuid, Row>, x: Txn, y: Txn, n: nat)
    requires n <= |x.ids| == |x.kids| && forall id | id in x.ids :: id in rows
    requires x.act == y.act && x.at == y.at && x.ids == y.ids && x.kids == y.kids
    ensures WritesFor(c, rows, x, n) == WritesFor(c, rows, y, n)
  {
    if n > 0 { WritesSame(c, rows, x, y, n - 1); }
  }

  lemma BeginKeepsSound(c: Config, m: Machine, step: LockStep)
    requires step.Begin? && LocksSound(c, m) && CanStep(m, step)
    ensures LocksSound(c, Step(c, m, step))
  {
    var m' := Step(c, m, step);
    assert TxnSound(c, m.committed, m'.open[step.t]);
    forall u | u in m.open
      ensures (forall id | id in step.ids :: id !in m.open[u].ids)
      ensures (forall k | k in step.kids :: k !in m.open[u].kids)
    {
      forall id | id in step.ids ensures id !in m.open[u].ids { assert !Locked(m, id); }
      forall k | k in step.kids ensures k !in m.open[u].kids { assert !Reserved(m, k); }
    }
  }

  lemma CommitKeepsSound(c: Config, m: Machine, t: nat)
    requires LocksSound(c, m) && CanStep(m, Commit(t))
    ensures LocksSound(c, Step(c, m, Commit(t)))
  {
    var x, rows' := m.open[t], m.committed + m.open[t].writes;
    WritesOnly(c, m.committed, x, x.done);
    assert x.ids[..x.done] == x.ids && x.kids[..x.done] == x.kids;
    forall u | u in m.open && u != t ensures TxnSound(c, rows', m.open[u]) {
      var y := m.open[u];
      forall id | id in y.ids ensures Find(rows', id) == Find(m.committed, id) {
        assert id !in x.ids;
        assert id in m.committed && (id in x.kids ==> id !in m.committed);
      }
      forall k | k in y.kids ensures k !in rows' {
        assert k !in x.kids && k !in m.committed && (k in x.ids ==> k in m.committed);
      }
      TxnUndisturbed(c, m.committed, rows', y);
    }
  }

  lemma SingleKeepsSound(c: Config, m: Machine, step: LockStep)
    requires step.Single? && LocksSound(c, m) && CanStep(m, step)
    ensures LocksSound(c, Step(c, m, step))
  {
    var rows' := Step(c, m, step).committed;
    forall u | u in m.open ensures TxnSound(c, rows', m.open[u]) {
      var y := m.open[u];
      assert step.id !in y.ids by { assert !Locked(m, step.id); }
      assert step.act.Create? ==> step.id !in y.kids by {
        if step.act.Create? { assert !Reserved(m, step.id); }
      }
      SingleElsewhere(m.committed, rows', step.id, step.act, step.at);
      TxnUndisturbed(c, m.committed, rows', y);
    }
  }

  lemma SingleElsewhere(rows: map<Uuid, Row>, rows': map<Uuid, Row>, id: Uuid, act: Act, at: Time)
    requires rows' == if Guard(Find(rows, id), act, at) then PutRow(rows, id, Effect(Find(rows, id), act, at)) else rows
    ensures forall j | j != id :: Find(rows', j) == Find(rows, j)
    ensures !act.Create? && id !in rows ==> id !in rows'
  {
  }

  lemma StepKeepsLocksSound(c: Config, m: Machine, step: LockStep)
    requires LocksSound(c, m) && CanStep(m, step)
    ensures LocksSound(c, Step(c, m, step))
  {
    match step
    case Begin(_, _, _, _, _, _) => BeginKeepsSound(c, m, step);
    case Update(t) => UpdateKeepsSound(c, m, t);
    case Commit(t) => CommitKeepsSound(c, m, t);
    case Rollback(_) =>
    case Single(_, _, _) => SingleKeepsSound(c, m, step);
  }

  // ---------- refinement of the atomic machine ----------

  /** One atomic transaction on the rows: a batch of eligible rows at once, or one row. */
  datatype Atomic =
    | Whole(act: Act, at: Time, limit: Option<int>, ids: seq<Uuid>, kids: seq<Uuid>)
    | One(id: Uuid, act: Act, at: Time)

  function BatchRows(c: Config, rows: map<Uuid, Row>, act: Act, at: Time, ids: seq<Uuid>,
                     kids: seq<Uuid>): map<Uuid, Row>
    requires |kids| == |ids|
  {
    var db := Db(rows, [], map[]);
    if act.Promote? then FireAll(c, db, ids, act.now, kids, at).rows else TouchAll(db, ids, act, at).rows
  }

  /** The batch consists of distinct rows eligible in the present state, no more than its LIMIT. */
  predicate CanDo(rows: map<Uuid, Row>, a: Atomic) {
    match a
    case Whole(act, at, limit, ids, kids) =>
      && BatchAct(act) && Within(limit, |ids|) && Distinct(ids) && |kids| == |ids| && FreshKids(rows, kids)
      && forall id | id in ids :: id in rows && Guard(Some(rows[id]), act, at)
    case One(_, _, _) => true
  }

  function DoAtomic(c: Config, rows: map<Uuid, Row>, a: Atomic): map<Uuid, Row>
    requires CanDo(rows, a)
  {
    match a
    case Whole(act, at, limit, ids, kids) => BatchRows(c, rows, act, at, ids, kids)
    case One(id, act, at) =>
      if Guard(Find(rows, id), act, at) then PutRow(rows, id, Effect(Find(rows, id), act, at)) else rows
  }

  lemma {:induction false} WriteOf(c: Config, rows: map<Uuid, Row>, x: Txn, n: nat, i: nat)
    requires TxnSound(c, rows, x) && i < n <= |x.ids|
    ensures var w := WritesFor(c, rows, x, n);
            && Find(w, x.ids[i]) == Some(Written(x.act, x.at, rows[x.ids[i]]))
            && Find(w, x.kids[i]) ==
               (if x.act.Promote? then Followup(c, Written(x.act, x.at, rows[x.ids[i]]), x.act.now) else None)
  {
    assert x.ids[n - 1] in x.ids && x.ids[i] in x.ids && x.kids[n - 1] in x.kids && x.kids[i] in x.kids;
    if i < n - 1 {
      WriteOf(c, rows, x, n - 1, i);
    } else {
      WritesOnly(c, rows, x, n - 1);
      assert x.kids[i] !in x.kids[..i] && x.kids[i] !in x.ids[..i] by {
        assert forall j | j in x.ids[..i] :: j in x.ids;
      }
    }
  }

  lemma WrittenIsEffect(act: Act, at: Time, r: Row)
    requires BatchAct(act) && Guard(Some(r), act, at)
    ensures Effect(Some(r), act, at) == Some(Written(act, at, r))
  {
  }

  lemma SameRows(a: map<Uuid, Row>, b: map<Uuid, Row>)
    requires forall j :: Find(a, j) == Find(b, j)
    ensures a == b
  {
    forall j ensures j in a <==> j in b { assert Find(a, j) == Find(b, j); }
    forall j | j in a ensures a[j] == b[j] { assert Find(a, j) == Find(b, j); }
  }

  /** A commit changes the committed rows exactly as doing its whole batch at that moment. */
  lemma CommitIsAtomic(c: Config, m: Machine, t: nat)
    requires LocksSound(c, m) && CanStep(m, Commit(t))
    ensures var x := m.open[t];
            && CanDo(m.committed, Whole(x.act, x.at, x.limit, x.ids, x.kids))
            && m.committed + x.writes == BatchRows(c, m.committed, x.act, x.at, x.ids, x.kids)
  {
    var x, rows := m.open[t], m.committed;
    forall j ensures Find(rows + x.writes, j) == Find(BatchRows(c, rows, x.act, x.at, x.ids, x.kids), j) {
      CommitRow(c, rows, x, j);
    }
    SameRows(rows + x.writes, BatchRows(c, rows, x.act, x.at, x.ids, x.kids));
  }

  lemma PromoteBatchFits(c: Config, rows: map<Uuid, Row>, x: Txn)
    requires TxnSound(c, rows, x) && x.act.Promote?
    ensures Fireable(rows, x.ids, x.act.now) && (x.ids != [] ==> x.act.now <= x.at)
    ensures forall i | 0 <= i < |x.ids| :: Fertile(rows[x.ids[i]])
  {
    assert forall i | 0 <= i < |x.ids| :: x.ids[i] in x.ids;
    if x.ids != [] { assert Guard(Some(rows[x.ids[0]]), x.act, x.at); }
  }

  /** What a promoting batch leaves at an id: a promoted row, a follow-up, or the old row. */
  lemma PromoteRowAt(c: Config, rows: map<Uuid, Row>, x: Txn, j: Uuid, i: nat)
    requires x.act.Promote? && |x.kids| == |x.ids| && FreshKids(rows, x.kids) && (x.ids != [] ==> x.act.now <= x.at)
    requires Fireable(rows, x.ids, x.act.now) && forall k | 0 <= k < |x.ids| :: Fertile(rows[x.ids[k]])
    ensures var r' := Find(BatchRows(c, rows, x.act, x.at, x.ids, x.kids), j);
            && (i < |x.ids| && x.ids[i] == j ==> r' == Some(Written(x.act, x.at, rows[j])))
            && (i < |x.ids| && x.kids[i] == j ==> r' == Followup(c, Written(x.act, x.at, rows[x.ids[i]]), x.act.now))
            && (j !in x.ids && j !in x.kids ==> r' == Find(rows, j))
  {
    if x.ids != [] { FireAllRows(c, Db(rows, [], map[]), x.ids, x.act.now, x.kids, x.at); }
    FiredRowAt(c, rows, BatchRows(c, rows, x.act, x.at, x.ids, x.kids), x.ids, x.act.now, x.kids, j, i);
  }

  lemma FiredRowAt(c: Config, rows: map<Uuid, Row>, rows': map<Uuid, Row>, ids: seq<Uuid>, now: Time, kids: seq<Uuid>,
                   j: Uuid, i: nat)
    requires |kids| == |ids| && (forall k | 0 <= k < |ids| :: ids[k] in rows) && Fired(c, rows, rows', ids, now, kids)
    ensures i < |ids| && ids[i] == j ==> Find(rows', j) == Some(Promoted(rows[j]))
    ensures i < |ids| && kids[i] == j ==> Find(rows', j) == Followup(c, Promoted(rows[ids[i]]), now)
    ensures j !in ids && j !in kids ==> Find(rows', j) == Find(rows, j)
  {
  }

  lemma TouchRowAt(c: Config, rows: map<Uuid, Row>, x: Txn, j: Uuid)
    requires TxnSound(c, rows, x) && !x.act.Promote?
    ensures Find(BatchRows(c, rows, x.act, x.at, x.ids, x.kids), j) ==
            if j in x.ids then Some(Written(x.act, x.at, rows[j])) else Find(rows, j)
  {
    if j in x.ids { WrittenIsEffect(x.act, x.at, rows[j]); }
    TouchAllRow(Db(rows, [], map[]), x.ids, x.act, x.at, j);
  }

  lemma CommitRow(c: Config, rows: map<Uuid, Row>, x: Txn, j: Uuid)
    requires TxnSound(c, rows, x) && x.done == |x.ids|
    ensures Find(rows + x.writes, j) == Find(BatchRows(c, rows, x.act, x.at, x.ids, x.kids), j)
  {
    var n := |x.ids|;
    assert x.ids[..n] == x.ids && x.kids[..n] == x.kids;
    WritesOnly(c, rows, x, n);
    var i := 0;
    if j in x.ids {
      i :| 0 <= i < n && x.ids[i] == j;
      WriteOf(c, rows, x, n, i);
    } else if j in x.kids {
      i :| 0 <= i < n && x.kids[i] == j;
      WriteOf(c, rows, x, n, i);
    }
    if x.act.Promote? {
      PromoteBatchFits(c, rows, x);
      PromoteRowAt(c, rows, x, j, i);
    } else {
      TouchRowAt(c, rows, x, j);
    }
  }

  // ---------- runs ----------

  predicate LockRun(c: Config, m: Machine, steps: seq<LockStep>)
    requires LocksSound(c, m)
    decreases |steps|
  {
    steps == [] ||
    (CanStep(m, steps[0]) && (StepKeepsLocksSound(c, m, steps[0]); LockRun(c, Step(c, m, steps[0]), steps[1..])))
  }

  function LockEnd(c: Config, m: Machine, steps: seq<LockStep>): Machine
    requires LocksSound(c, m) && LockRun(c, m, steps)
    decreases |steps|
  {
    if steps == [] then m
    else
      StepKeepsLocksSound(c, m, steps[0]);
      LockEnd(c, Step(c, m, steps[0]), steps[1..])
  }

  predicate AtomicRun(c: Config, rows: map<Uuid, Row>, atoms: seq<Atomic>)
    decreases |atoms|
  {
    atoms == [] || (CanDo(rows, atoms[0]) && AtomicRun(c, DoAtomic(c, rows, atoms[0]), atoms[1..]))
  }

  function AtomicEnd(c: Config, rows: map<Uuid, Row>, atoms: seq<Atomic>): map<Uuid, Row>
    requires AtomicRun(c, rows, atoms)
    decreases |atoms|
  {
    if atoms == [] then rows else AtomicEnd(c, DoAtomic(c, rows, atoms[0]), atoms[1..])
  }

  /** The atomic transactions a run performs: a commit is its whole batch, a single-row
      transaction is itself, everything else is invisible. */
  function Visible(m: Machine, step: LockStep): seq<Atomic> {
    match step
    case Commit(t) =>
      if t in m.open then [Whole(m.open[t].act, m.open[t].at, m.open[t].limit, m.open[t].ids, m.open[t].kids)] else []
    case Single(id, act, at) => [One(id, act, at)]
    case _ => []
  }

  function AllVisible(c: Config, m: Machine, steps: seq<LockStep>): seq<Atomic>
    requires LocksSound(c, m) && LockRun(c, m, steps)
    decreases |steps|
  {
    if steps == [] then []
    else
      StepKeepsLocksSound(c, m, steps[0]);
      Visible(m, steps[0]) + AllVisible(c, Step(c, m, steps[0]), steps[1..])
  }

  /** A step changes the committed rows as the transaction it makes visible, or not at all. */
  lemma StepIsVisible(c: Config, m: Machine, step: LockStep)
    requires LocksSound(c, m) && CanStep(m, step)
    ensures var now, rows' := Visible(m, step), Step(c, m, step).committed;
            if now == [] then rows' == m.committed
            else |now| == 1 && CanDo(m.committed, now[0]) && DoAtomic(c, m.committed, now[0]) == rows'
  {
    if step.Commit? { CommitIsAtomic(c, m, step.t); }
  }

  /** Every interleaving of lock-level steps refines the atomic machine: the committed rows
      at the end are those of doing the visible transactions one after the other. */
  lemma {:induction false} LocksRefineAtomic(c: Config, m: Machine, steps: seq<LockStep>)
    requires LocksSound(c, m) && LockRun(c, m, steps)
    ensures LocksSound(c, LockEnd(c, m, steps))
    ensures AtomicRun(c, m.committed, AllVisible(c, m, steps))
    ensures AtomicEnd(c, m.committed, AllVisible(c, m, steps)) == LockEnd(c, m, steps).committed
    decreases |steps|
  {
    if steps != [] {
      StepKeepsLocksSound(c, m, steps[0]);
      var m' := Step(c, m, steps[0]);
      LocksRefineAtomic(c, m', steps[1..]);
      StepIsVisible(c, m, steps[0]);
      var rest := AllVisible(c, m', steps[1..]);
      var now := Visible(m, steps[0]);
      if now == [] {
        assert now + rest == rest;
      } else {
        assert (now + rest)[0] == now[0] && (now + rest)[1..] == rest;
      }
    }
  }

  // ---------- atomic runs are runs of the ledger ----------

  /** The ledger steps of one atomic transaction, made when it commits. */
  function StepsOf(a: Atomic): seq<Ledger.Step>
    requires a.Whole? ==> |a.kids| == |a.ids|
  {
    match a
    case Whole(act, at, _, ids, kids) =>
      [Advance(at)] + if act.Promote? then FireSteps(ids, act.now, kids) else DoAll(ids, act)
    case One(id, act, at) => [Advance(at)] + [Do(id, act)]
  }

  /** What clock, UUIDs and key index grant a transaction: it is not back in time, its ids
      are fresh, and the key of a new row is not in use. */
  predicate Granted(c: Config, s: State, a: Atomic) {
    match a
    case Whole(act, at, _, ids, kids) =>
      && s.clock <= at && |kids| == |ids|
      && if act.Promote? then act.now <= at && forall k | k in kids :: k !in s.minted
         else Enabled(c, s.(clock := at), Do(0, act))
    case One(id, act, at) =>
      && s.clock <= at && Enabled(c, s.(clock := at), Do(id, act))
      && (act.Create? && HasKey(act.row) ==> act.row.key.value !in s.db.keys)
  }

  predicate GrantedAll(c: Config, s: State, atoms: seq<Atomic>)
    decreases |atoms|
  {
    atoms == [] ||
    (Granted(c, s, atoms[0]) && GrantedAll(c, RunFrom(c, s, StepsOf(atoms[0])), atoms[1..]))
  }

  /** What a batch does to the rows does not depend on events and keys. */
  lemma {:induction false} TouchAllOnRows(db: Db, bare: Db, ids: seq<Uuid>, act: Act, at: Time)
    requires db.rows == bare.rows && !act.Create?
    ensures TouchAll(db, ids, act, at).rows == TouchAll(bare, ids, act, at).rows
  {
    if ids != [] { TouchAllOnRows(db, bare, ids[..|ids| - 1], act, at); }
  }

  lemma FireOnRows(c: Config, db: Db, bare: Db, id: Uuid, now: Time, child: Uuid, at: Time)
    requires db.rows == bare.rows
    ensures FireDb(c, db, id, now, child, at).rows == FireDb(c, bare, id, now, child, at).rows
  {
  }

  lemma {:induction false} FireAllOnRows(c: Config, db: Db, bare: Db, ids: seq<Uuid>, now: Time, kids: seq<Uuid>,
                                         at: Time)
    requires db.rows == bare.rows && |kids| == |ids|
    ensures FireAll(c, db, ids, now, kids, at).rows == FireAll(c, bare, ids, now, kids, at).rows
  {
    if ids != [] {
      var n := |ids| - 1;
      FireAllOnRows(c, db, bare, ids[..n], now, kids[..n], at);
      FireOnRows(c, FireAll(c, db, ids[..n], now, kids[..n], at), FireAll(c, bare, ids[..n], now, kids[..n], at),
                 ids[n], now, kids[n], at);
    }
  }

  /** The rest of a run after the clock has come to the transaction's time. */
  lemma AdvanceFirst(c: Config, s: State, at: Time, steps: seq<Ledger.Step>)
    requires s.clock <= at
    ensures ValidFrom(c, s, [Advance(at)] + steps) == ValidFrom(c, s.(clock := at), steps)
    ensures RunFrom(c, s, [Advance(at)] + steps) == RunFrom(c, s.(clock := at), steps)
  {
    assert ([Advance(at)] + steps)[1..] == steps;
  }

  lemma WholeIsRun(c: Config, s: State, a: Atomic)
    requires a.Whole? && CanDo(s.db.rows, a) && Granted(c, s, a)
    ensures ValidFrom(c, s, StepsOf(a)) && RunFrom(c, s, StepsOf(a)).db.rows == DoAtomic(c, s.db.rows, a)
  {
    var bare, s1 := Db(s.db.rows, [], map[]), s.(clock := a.at);
    if a.act.Promote? {
      AdvanceFirst(c, s, a.at, FireSteps(a.ids, a.act.now, a.kids));
      FireAllIsRun(c, s1, a.ids, a.act.now, a.kids);
      FireAllOnRows(c, s.db, bare, a.ids, a.act.now, a.kids, a.at);
    } else {
      AdvanceFirst(c, s, a.at, DoAll(a.ids, a.act));
      TouchAllIsRun(c, s1, a.ids, a.act);
      TouchAllOnRows(s.db, bare, a.ids, a.act, a.at);
    }
  }

  lemma OneIsRun(c: Config, s: State, a: Atomic)
    requires a.One? && Granted(c, s, a)
    ensures ValidFrom(c, s, StepsOf(a)) && RunFrom(c, s, StepsOf(a)).db.rows == DoAtomic(c, s.db.rows, a)
  {
    var s1 := s.(clock := a.at);
    AdvanceFirst(c, s, a.at, [Do(a.id, a.act)]);
    RunSnoc(c, s1, [], Do(a.id, a.act));
    assert [] + [Do(a.id, a.act)] == [Do(a.id, a.act)];
  }

  lemma {:induction false} AtomicRunIsLedgerRun(c: Config, s: State, atoms: seq<Atomic>)
    requires AtomicRun(c, s.db.rows, atoms) && GrantedAll(c, s, atoms)
    ensures exists steps ::
              ValidFrom(c, s, steps) && RunFrom(c, s, steps).db.rows == AtomicEnd(c, s.db.rows, atoms)
    decreases |atoms|
  {
    if atoms == [] {
      assert ValidFrom(c, s, []) && RunFrom(c, s, []) == s;
    } else {
      var now, s1 := StepsOf(atoms[0]), RunFrom(c, s, StepsOf(atoms[0]));
      if atoms[0].Whole? { WholeIsRun(c, s, atoms[0]); } else { OneIsRun(c, s, atoms[0]); }
      AtomicRunIsLedgerRun(c, s1, atoms[1..]);
      var rest :| ValidFrom(c, s1, rest) && RunFrom(c, s1, rest).db.rows == AtomicEnd(c, s1.db.rows, atoms[1..]);
      RunConcat(c, s, now, rest);
    }
  }

  /** Every interleaving of lock-level steps whose transactions commit in the order of their
      times, with fresh ids and unused keys, leaves rows that a run of the ledger reaches, so
      what holds over all runs holds under locking. */
  lemma LocksRefineLedger(c: Config, m: Machine, steps: seq<LockStep>, s: State)
    requires LocksSound(c, m) && LockRun(c, m, steps) && Reachable(c, s) && s.db.rows == m.committed
    requires GrantedAll(c, s, AllVisible(c, m, steps))
    ensures exists s' :: Reachable(c, s') && s'.db.rows == LockEnd(c, m, steps).committed
  {
    var atoms := AllVisible(c, m, steps);
    LocksRefineAtomic(c, m, steps);
    AtomicRunIsLedgerRun(c, s, atoms);
    var run :| ValidFrom(c, s, run) && RunFrom(c, s, run).db.rows == AtomicEnd(c, s.db.rows, atoms);
    var before :| ValidFrom(c, EMPTY, before) && RunFrom(c, EMPTY, before) == s;
    RunConcat(c, EMPTY, before, run);
    assert Reachable(c, RunFrom(c, s, run));
  }
}
