/** Recovery in the whole system: each path of the scheduler, the reaper and the consumers
    over tables and stream entries is a play of the system, row by row and push by push. */
module Rescue {
  import opened Lifecycle
  import opened Ledger
  import opened Batches
  import opened Queue
  import opened Recovery
  import T = Store
  import W = World

  /** One world is reached from another by moves of the system. */
  ghost predicate Reaches(c: Config, w: W.World, w': W.World) {
    exists moves :: W.PlayableFrom(c, w, moves) && W.PlayFrom(c, w, moves) == w'
  }

  lemma ReachesItself(c: Config, w: W.World)
    ensures Reaches(c, w, w)
  {
    assert W.PlayableFrom(c, w, []) && W.PlayFrom(c, w, []) == w;
  }

  lemma ReachesNext(c: Config, w0: W.World, w: W.World, m: W.Move)
    requires Reaches(c, w0, w) && W.CanMove(c, w, m)
    ensures Reaches(c, w0, W.Next(c, w, m))
  {
    var moves :| W.PlayableFrom(c, w0, moves) && W.PlayFrom(c, w0, moves) == w;
    W.PlaySnoc(c, w0, moves, m);
  }

  /** The system is in the site's tables and has its entries, perhaps among others. */
  ghost predicate Covers(w: W.World, a: Site) {
    w.led == a.led && forall e | e in a.entries :: e in w.entries
  }

  /** An owed entry is pushed when its queue is routable, else dropped. */
  lemma SettleOwed(c: Config, w0: W.World, w: W.World, id: Uuid, go: bool) returns (w': W.World)
    requires Reaches(c, w0, w) && id in w.outbox
    ensures Reaches(c, w0, w') && w'.led == w.led && w'.replica == w.replica
    ensures w'.entries == if go then w.entries + multiset{id} else w.entries
  {
    var m := if go then W.Push(id) else W.DropPush(id);
    ReachesNext(c, w0, w, m);
    w' := W.Next(c, w, m);
  }

  // ---------- one transaction of a batch ----------

  predicate MovesRow(m: W.Move, id: Uuid, act: Act) {
    match m
    case PromoteDue(j, now, _) => j == id && act == Promote(now)
    case MatureDue(j, now) => j == id && act == Mature(now)
    case ReclaimStale(j, cutoff) => j == id && act == Reclaim(cutoff)
    case _ => false
  }

  /** One row is moved and what it owes is settled. */
  lemma RowPlays(c: Config, w0: W.World, w: W.World, m: W.Move, id: Uuid, act: Act, go: bool) returns (w': W.World)
    requires Reaches(c, w0, w) && W.CanMove(c, w, m) && MovesRow(m, id, act) && W.Takes(w, id, act)
    ensures Reaches(c, w0, w') && w'.led == Apply(c, w.led, W.LedgerStep(m).value)
    ensures w'.entries == if go then w.entries + multiset{id} else w.entries
  {
    ReachesNext(c, w0, w, m);
    w' := SettleOwed(c, w0, W.Next(c, w, m), id, go);
  }

  /** What a played batch leaves: the run's tables, and an entry for each routable row. */
  ghost predicate Played(w: W.World, w': W.World, led: State, rows: map<Uuid, Row>, ids: seq<Uuid>) {
    w'.led == led && w.entries <= w'.entries && forall id | id in Pushed(rows, ids) :: id in w'.entries
  }

  lemma PlayedOneMore(w: W.World, w1: W.World, w': W.World, led: State, rows: map<Uuid, Row>, ids: seq<Uuid>, go: bool)
    requires ids != [] && Played(w, w1, w1.led, rows, ids[..|ids| - 1]) && w'.led == led
    requires var id := ids[|ids| - 1];
             && (id in rows && Routable(rows[id]) ==> go)
             && w'.entries == if go then w1.entries + multiset{id} else w1.entries
    ensures Played(w, w', led, rows, ids)
  {
    forall id | id in Pushed(rows, ids) ensures id in w'.entries {
      if id in ids[..|ids| - 1] { assert id in Pushed(rows, ids[..|ids| - 1]); }
    }
  }

  lemma {:induction false} FiresPlay(c: Config, w0: W.World, w: W.World, ids: seq<Uuid>,
                                     kids: seq<Uuid>) returns (w': W.World)
    requires Reaches(c, w0, w) && |kids| == |ids| && Fireable(w.led.db.rows, ids, w.led.clock)
    requires FreshKids(w.led.db.rows, kids) && forall x | x in kids :: x !in w.led.minted
    requires forall id | id in w.led.db.rows :: Fertile(w.led.db.rows[id])
    ensures Reaches(c, w0, w')
    ensures Played(w, w', RunFrom(c, w.led, FireSteps(ids, w.led.clock, kids)), w.led.db.rows, ids)
  {
    w' := w;
    if ids != [] {
      var n, now := |ids| - 1, w.led.clock;
      var w1 := FiresPlay(c, w0, w, ids[..n], kids[..n]);
      var m, go := W.PromoteDue(ids[n], now, kids[n]), Routable(w.led.db.rows[ids[n]]);
      FireFits(c, w, w1, ids, kids);
      w' := RowPlays(c, w0, w1, m, ids[n], Promote(now), go);
      RunSnoc(c, w.led, FireSteps(ids[..n], now, kids[..n]), Fire(ids[n], now, kids[n]));
      PlayedOneMore(w, w1, w', w'.led, w.led.db.rows, ids, go);
    }
  }

  lemma FireFits(c: Config, w: W.World, w1: W.World, ids: seq<Uuid>, kids: seq<Uuid>)
    requires |kids| == |ids| > 0 && Fireable(w.led.db.rows, ids, w.led.clock)
    requires FreshKids(w.led.db.rows, kids) && forall x | x in kids :: x !in w.led.minted
    requires forall id | id in w.led.db.rows :: Fertile(w.led.db.rows[id])
    requires w1.led == RunFrom(c, w.led, FireSteps(ids[..|ids| - 1], w.led.clock, kids[..|ids| - 1]))
    ensures var n := |ids| - 1;
            && W.CanMove(c, w1, W.PromoteDue(ids[n], w.led.clock, kids[n])) && W.Takes(w1, ids[n], Promote(w.led.clock))
  {
    var n := |ids| - 1;
    FireAllIsRun(c, w.led, ids[..n], w.led.clock, kids[..n]);
    assert kids[n] !in kids[..n];
    assert DueAt(w.led.clock)(w.led.db.rows[ids[n]]);
    T.NextToFire(c, w.led.db, ids, n, w.led.clock, kids, w.led.clock);
  }

  /** The move of one row of an opening or reclaiming batch. */
  function TouchMove(id: Uuid, act: Act): W.Move
    requires act.Mature? || act.Reclaim?
  {
    if act.Mature? then W.MatureDue(id, act.now) else W.ReclaimStale(id, act.cutoff)
  }

  lemma {:induction false} TouchesPlay(c: Config, w0: W.World, w: W.World, ids: seq<Uuid>,
                                       act: Act) returns (w': W.World)
    requires Reaches(c, w0, w) && (act.Mature? || act.Reclaim?) && Enabled(c, w.led, Do(0, act)) && Distinct(ids)
    requires forall id | id in ids :: Guard(Find(w.led.db.rows, id), act, w.led.clock)
    ensures Reaches(c, w0, w')
    ensures Played(w, w', RunFrom(c, w.led, DoAll(ids, act)), w.led.db.rows, ids)
  {
    w' := w;
    if ids != [] {
      var n := |ids| - 1;
      assert forall id | id in ids[..n] :: id in ids;
      var w1 := TouchesPlay(c, w0, w, ids[..n], act);
      var go := ids[n] in w.led.db.rows && Routable(w.led.db.rows[ids[n]]);
      TouchFits(c, w, w1, ids, act);
      w' := RowPlays(c, w0, w1, TouchMove(ids[n], act), ids[n], act, go);
      RunSnoc(c, w.led, DoAll(ids[..n], act), Do(ids[n], act));
      PlayedOneMore(w, w1, w', w'.led, w.led.db.rows, ids, go);
    }
  }

  lemma TouchFits(c: Config, w: W.World, w1: W.World, ids: seq<Uuid>, act: Act)
    requires ids != [] && (act.Mature? || act.Reclaim?) && Enabled(c, w.led, Do(0, act)) && Distinct(ids)
    requires forall id | id in ids :: Guard(Find(w.led.db.rows, id), act, w.led.clock)
    requires w1.led == RunFrom(c, w.led, DoAll(ids[..|ids| - 1], act))
    ensures W.CanMove(c, w1, TouchMove(ids[|ids| - 1], act)) && W.Takes(w1, ids[|ids| - 1], act)
  {
    TouchAllIsRun(c, w.led, ids[..|ids| - 1], act);
    T.NextInBatch(w.led.db, ids, |ids| - 1, act, w.led.clock);
  }

  // ---------- every move of recovery ----------

  lemma BatchCovers(k: Setup, a: Site, m: Move, w: W.World, w': W.World)
    requires m.Batch? && |m.kids| == |m.ids| && Covers(w, a)
    requires Played(w, w', RunFrom(k.c, a.led, LedgerSteps(k, a, m)), a.led.db.rows, m.ids)
    ensures Covers(w', After(k, a, m))
  {
    forall e | e in a.entries ensures e in w'.entries { assert w.entries[e] <= w'.entries[e]; }
  }

  lemma DuePlays(k: Setup, a: Site, m: Move, w0: W.World, w: W.World) returns (w': W.World)
    requires CanMove(k, a, m) && m.Batch? && m.kind == Due && Sound(a.led) && Covers(w, a) && Reaches(k.c, w0, w)
    ensures Reaches(k.c, w0, w') && Covers(w', After(k, a, m))
  {
    T.SelectedAreDue(a.led.db.rows, a.led.clock, {}, LimitOf(k, Due), m.ids);
    ShapedRowsAreFertile(a.led);
    forall x | x in m.kids ensures x !in a.led.db.rows { if x in a.led.db.rows { RowsAreShaped(a.led, x); } }
    w' := FiresPlay(k.c, w0, w, m.ids, m.kids);
    BatchCovers(k, a, m, w, w');
  }

  /** What an opening or reclaiming batch does to each of its rows. */
  function BatchAct(k: Setup, s: State, kind: Kind): Act
    requires kind != Due
  {
    if kind == Matured then Mature(s.clock) else Reclaim(s.clock - k.c.staleAfter)
  }

  lemma BatchFits(k: Setup, a: Site, m: Move)
    requires CanMove(k, a, m) && m.Batch? && m.kind != Due
    ensures var act := BatchAct(k, a.led, m.kind);
            && LedgerSteps(k, a, m) == DoAll(m.ids, act) && Enabled(k.c, a.led, Do(0, act)) && Distinct(m.ids)
            && forall id | id in m.ids :: Guard(Find(a.led.db.rows, id), act, a.led.clock)
  {
    var rows, t := a.led.db.rows, a.led.clock;
    if m.kind == Matured {
      T.SelectedAreMatured(rows, t, t, {}, LimitOf(k, Matured), m.ids);
    } else {
      T.SelectedAreStale(rows, t - k.c.staleAfter, t, {}, LimitOf(k, Stale), m.ids);
    }
  }

  lemma TouchBatchPlays(k: Setup, a: Site, m: Move, act: Act, w0: W.World, w: W.World) returns (w': W.World)
    requires m.Batch? && |m.kids| == |m.ids| && Covers(w, a) && Reaches(k.c, w0, w) && (act.Mature? || act.Reclaim?)
    requires LedgerSteps(k, a, m) == DoAll(m.ids, act) && Enabled(k.c, a.led, Do(0, act)) && Distinct(m.ids)
    requires forall id | id in m.ids :: Guard(Find(a.led.db.rows, id), act, a.led.clock)
    ensures Reaches(k.c, w0, w') && Covers(w', After(k, a, m))
  {
    w' := TouchesPlay(k.c, w0, w, m.ids, act);
    BatchCovers(k, a, m, w, w');
  }

  lemma {:induction false} SweepsPlay(c: Config, w0: W.World, w: W.World, ids: seq<Uuid>) returns (w': W.World)
    requires Reaches(c, w0, w) && w.replica == w.led.db.rows
    requires forall id | id in ids :: id in w.replica && w.replica[id].status in {Pending, Queued}
    ensures Reaches(c, w0, w') && Played(w, w', w.led, w.led.db.rows, ids) && w'.replica == w.replica
  {
    w' := w;
    if ids != [] {
      var n := |ids| - 1;
      assert ids[n] in ids && forall id | id in ids[..n] :: id in ids;
      var w1 := SweepsPlay(c, w0, w, ids[..n]);
      ReachesNext(c, w0, w1, W.Sweep(ids[n]));
      var go := Routable(w.led.db.rows[ids[n]]);
      w' := SettleOwed(c, w0, W.Next(c, w1, W.Sweep(ids[n])), ids[n], go);
      PlayedOneMore(w, w1, w', w.led, w.led.db.rows, ids, go);
    }
  }

  lemma SweepPlays(k: Setup, a: Site, m: Move, w0: W.World, w: W.World) returns (w': W.World)
    requires CanMove(k, a, m) && m.Sweep? && Prompt(a, m) && Covers(w, a) && Reaches(k.c, w0, w)
    ensures Reaches(k.c, w0, w') && Covers(w', After(k, a, m))
  {
    ReachesNext(k.c, w0, w, W.Replicate);
    forall id | id in m.ids ensures id in a.led.db.rows && a.led.db.rows[id].status in {Pending, Queued} {
      var i :| 0 <= i < |m.ids| && m.ids[i] == id;
      assert Sweepable(k, a.led)(a.led.db.rows[m.ids[i]]);
    }
    w' := SweepsPlay(k.c, w0, W.Next(k.c, w, W.Replicate), m.ids);
  }

  /** The entry is redelivered, so a copy is left whatever the claim says. */
  lemma DeliverPlays(k: Setup, a: Site, m: Move, w0: W.World, w: W.World) returns (w': W.World)
    requires CanMove(k, a, m) && m.Deliver? && Covers(w, a) && Reaches(k.c, w0, w)
    ensures Reaches(k.c, w0, w') && Covers(w', After(k, a, m))
  {
    var w1, take := W.Next(k.c, w, W.Duplicate(m.id)), W.Deliver(m.id, m.worker, m.token);
    ReachesNext(k.c, w0, w, W.Duplicate(m.id));
    ReachesNext(k.c, w0, w1, take);
    OneStepRun(k.c, a.led, Do(m.id, Claim(m.worker, m.token)));
    w' := W.Next(k.c, w1, take);
    forall e | e in a.entries ensures e in w'.entries { assert w1.entries[m.id] >= 2; }
  }

  lemma MovePlays(k: Setup, a: Site, m: Move, w0: W.World, w: W.World) returns (w': W.World)
    requires CanMove(k, a, m) && Prompt(a, m) && Sound(a.led) && Covers(w, a) && Reaches(k.c, w0, w)
    ensures Reaches(k.c, w0, w') && Covers(w', After(k, a, m))
  {
    match m
    case Wait(until) =>
      OneStepRun(k.c, a.led, Advance(until));
      ReachesNext(k.c, w0, w, W.Tick(until));
      w' := W.Next(k.c, w, W.Tick(until));
    case Batch(Due, _, _) => w' := DuePlays(k, a, m, w0, w);
    case Batch(kind, _, _) =>
      BatchFits(k, a, m);
      w' := TouchBatchPlays(k, a, m, BatchAct(k, a.led, kind), w0, w);
    case Sweep(_, _) => w' := SweepPlays(k, a, m, w0, w);
    case Deliver(_, _, _) => w' := DeliverPlays(k, a, m, w0, w);
  }

  /** Each path of the queue's own processes is a play of the whole system, to the same
      tables and to at least the path's entries. */
  lemma {:induction false} PathsArePlays(k: Setup, a: Site, moves: seq<Move>, b: Site, w0: W.World, w: W.World)
    requires PromptPath(k, a, moves, b) && Sound(a.led) && Covers(w, a) && Reaches(k.c, w0, w)
    ensures exists w' :: Reaches(k.c, w0, w') && Covers(w', b)
    decreases |moves|
  {
    if moves != [] {
      var w1 := MovePlays(k, a, moves[0], w0, w);
      MoveKeepsSound(k, a, moves[0]);
      PathsArePlays(k, After(k, a, moves[0]), moves[1..], b, w0, w1);
    }
  }

  /** The job is claimed under a token minted since and waits for a worker's slot. */
  ghost predicate HandedOut(c: Config, w: W.World, w': W.World, id: Uuid, token: Uuid) {
    && Reaches(c, w, w') && token !in w.led.minted
    && W.Dispatch(id, token) in w'.queued && W.Live(w'.led, W.Dispatch(id, token))
  }

  lemma EntryIsHandedOut(c: Config, w: W.World, w1: W.World, id: Uuid)
    requires Reaches(c, w, w1) && w.led.minted <= w1.led.minted && id in w1.entries && id in w1.led.db.rows
    requires w1.led.db.rows[id].status == Pending && GateOpen(w1.led.db.rows[id], w1.led.clock)
    requires w1.led.db.rows[id].attempts < MAX_SMALLINT
    ensures exists w', token: Uuid :: HandedOut(c, w, w', id, token)
  {
    FreshId(w1.led.minted);
    var token: Uuid :| token !in w1.led.minted;
    var m := W.Deliver(id, "worker", token);
    ReachesNext(c, w, w1, m);
    assert HandedOut(c, w, W.Next(c, w1, m), id, token);
  }

  /** No job is lost in the whole system: whatever stream, pending lists and workers have
      lost, the system can go on to hand every recoverable job out again under a new token. */
  lemma NoJobIsLostInSystem(k: Setup, w: W.World, id: Uuid)
    requires W.Attainable(k.c, w) && Recoverable(k, w.led.db.rows, id)
    ensures exists w', token: Uuid :: HandedOut(k.c, w, w', id, token)
  {
    var a := Site(w.led, {}, {});
    assert Sound(a.led) by { W.AttainableIsSound(k.c, w); }
    JobComesBack(k, w.led, {}, id);
    var b :| Leads(k, a, b) && Ready(b, id) && w.led.minted <= b.led.minted;
    var moves :| PromptPath(k, a, moves, b);
    ReachesItself(k.c, w);
    PathsArePlays(k, a, moves, b, w, w);
    var w1 :| Reaches(k.c, w, w1) && Covers(w1, b);
    EntryIsHandedOut(k.c, w, w1, id);
  }
}
