/** Handlers that outlive their timeout: how many of one job can be alive at once when the
    reaper never reclaims it and nobody replays it. */
module Timeouts {
  import opened Lifecycle
  import opened Ledger
  import opened World

  /** How often the job was reclaimed or replayed. */
  function Helped(trail: seq<Change>, id: Uuid): nat {
    Count(Life(trail, id), IsReclaim) + Count(Life(trail, id), IsReplay)
  }

  /** The job's first change is the insert of the row. */
  predicate BornAs(trail: seq<Change>, id: Uuid, row: Row) {
    Life(trail, id) != [] && Life(trail, id)[0].act == Create(row)
  }

  // ---------- no more than the claims ----------

  lemma {:induction false} IssuedAreClaims(l: seq<Change>)
    ensures |Issued(l)| <= Count(l, IsClaim)
  {
    if l != [] { IssuedAreClaims(l[..|l| - 1]); }
  }

  lemma AliveAreIssued(c: Config, w: World, id: Uuid)
    requires Attainable(c, w)
    ensures AliveTokens(w, id) <= Issued(Life(w.led.trail, id))
  {
    AttainableIsSound(c, w);
    forall d | d in w.running + w.lingering && d.id == id ensures d.token in Issued(Life(w.led.trail, id)) {
      assert d in w.started;
      assert Handed(w.led, d);
    }
  }

  /** Handlers alive at once, those that outlive their timeout included, are never more than
      the attempts, replays and reclaims allow. */
  lemma AliveWithinBudget(c: Config, w: World, id: Uuid, row: Row)
    requires Attainable(c, w) && BornAs(w.led.trail, id, row)
    ensures |AliveTokens(w, id)| <=
            (Count(Life(w.led.trail, id), IsReplay) + 1) * (if row.maxRetry > 1 then row.maxRetry else 1) +
            Count(Life(w.led.trail, id), IsReclaim)
  {
    AliveAreClaimed(c, w, id);
    ClaimsOfBorn(Life(w.led.trail, id), row);
  }

  lemma AliveAreClaimed(c: Config, w: World, id: Uuid)
    requires Attainable(c, w)
    ensures IsLife(Life(w.led.trail, id)) && |AliveTokens(w, id)| <= Count(Life(w.led.trail, id), IsClaim)
  {
    assert IsLife(Life(w.led.trail, id)) by {
      AttainableIsSound(c, w);
      assert JobSound(w.led, id);
    }
    AliveAreIssued(c, w, id);
    SubsetSize(AliveTokens(w, id), Issued(Life(w.led.trail, id)));
    IssuedAreClaims(Life(w.led.trail, id));
  }

  lemma ClaimsOfBorn(l: seq<Change>, row: Row)
    requires IsLife(l) && l != [] && l[0].act == Create(row)
    ensures Count(l, IsClaim) <= (Count(l, IsReplay) + 1) * Budget(row) + Count(l, IsReclaim)
  {
    BornIsFirst(l);
    AttemptsAreBounded(l);
  }

  // ---------- two handlers of one job ----------

  predicate Follows(w: World, w': World, id: Uuid) {
    w.led.trail <= w'.led.trail && Helped(w'.led.trail, id) == Helped(w.led.trail, id)
  }

  lemma HelpedStays(s: State, id: Uuid, act: Act)
    requires !act.Reclaim? && !act.Replay?
    ensures s.trail <= Record(s, id, act).trail && Helped(Record(s, id, act).trail, id) == Helped(s.trail, id)
  {
    if Applies(s.db, id, act, s.clock) {
      var before := Find(s.db.rows, id);
      var x := Change(id, act, s.clock, before, Effect(before, act, s.clock));
      LifeSnoc(s.trail, x, id);
      assert (Life(s.trail, id) + [x])[..|Life(s.trail, id)|] == Life(s.trail, id);
    }
  }

  function Minting(s: State, id: Uuid, act: Act): State {
    s.(minted := s.minted + MintedBy(id, act))
  }

  /** A move whose transaction is one change of one row. */
  lemma DoMove(c: Config, w: World, m: Move, id: Uuid, act: Act)
    requires Attainable(c, w) && CanMove(c, w, m) && LedgerStep(m) == Some(Do(id, act)) && !act.Reclaim? && !act.Replay?
    ensures Attainable(c, Next(c, w, m)) && Follows(w, Next(c, w, m), id)
    ensures Next(c, w, m).led == Record(Minting(w.led, id, act), id, act) && Next(c, w, m).lingering == w.lingering
  {
    AttainableNext(c, w, m);
    LingeringSources(w, m);
    HelpedStays(Minting(w.led, id, act), id, act);
  }

  lemma FailedIsGated(s: State, id: Uuid, token: Uuid, error: string)
    requires id in s.db.rows && HeldBy(s.db.rows[id], token) && s.db.rows[id].attempts < s.db.rows[id].maxRetry
    ensures var s' := Record(s, id, Fail(token, error));
            && id in s'.db.rows && s'.clock == s.clock && s'.minted == s.minted
            && var r := s'.db.rows[id];
            && r.status == Pending && r.attempts == s.db.rows[id].attempts
            && r.notBefore.Some? && r.notBefore.value >= s.clock
  {
  }

  lemma OpenedIsReady(s: State, id: Uuid)
    requires id in s.db.rows && s.db.rows[id].status == Pending && s.db.rows[id].notBefore == Some(s.clock)
    ensures var s' := Record(s, id, Mature(s.clock));
            && Applies(s.db, id, Mature(s.clock), s.clock) && s'.minted == s.minted
            && id in s'.db.rows && s'.db.rows[id] == s.db.rows[id].(notBefore := None)
  {
  }

  lemma ClaimedIsLive(s: State, id: Uuid, worker: string, token: Uuid)
    requires id in s.db.rows && s.db.rows[id].status == Pending && s.db.rows[id].notBefore == None
    requires s.db.rows[id].attempts < MAX_SMALLINT
    ensures var s', r := Record(s, id, Claim(worker, token)), s.db.rows[id];
            && Applies(s.db, id, Claim(worker, token), s.clock) && Live(s', Dispatch(id, token))
            && s'.db.rows[id].attempts == r.attempts + 1 && s'.db.rows[id].maxRetry == r.maxRetry
  {
  }

  /** The handler runs into its timeout and the worker reports the failure. */
  lemma CutOff(c: Config, w: World, d: Dispatch) returns (w': World)
    requires Attainable(c, w) && d in w.running && Live(w.led, d)
    requires w.led.db.rows[d.id].attempts < w.led.db.rows[d.id].maxRetry
    ensures Attainable(c, w') && Follows(w, w', d.id) && d in w'.lingering && w'.led.minted == w.led.minted
    ensures d.id in w'.led.db.rows && var r := w'.led.db.rows[d.id];
            && r.status == Pending && r.notBefore.Some? && r.notBefore.value >= w'.led.clock
            && r.attempts == w.led.db.rows[d.id].attempts
  {
    var w1 := SlotReleased(c, w, d);
    w' := GivesUp(c, w1, d);
  }

  lemma GivesUp(c: Config, w: World, d: Dispatch) returns (w': World)
    requires Attainable(c, w) && d in w.returned && Live(w.led, d)
    requires w.led.db.rows[d.id].attempts < w.led.db.rows[d.id].maxRetry
    ensures Attainable(c, w') && Follows(w, w', d.id) && w'.lingering == w.lingering && w'.led.minted == w.led.minted
    ensures d.id in w'.led.db.rows && var r := w'.led.db.rows[d.id];
            && r.status == Pending && r.notBefore.Some? && r.notBefore.value >= w'.led.clock
            && r.attempts == w.led.db.rows[d.id].attempts
  {
    var m, act := GiveUp(d, "timed out"), Fail(d.token, "timed out");
    DoMove(c, w, m, d.id, act);
    FailedIsGated(Minting(w.led, d.id, act), d.id, d.token, "timed out");
    w' := Next(c, w, m);
    assert Minting(w.led, d.id, act).minted == w.led.minted;
  }

  lemma SlotReleased(c: Config, w: World, d: Dispatch) returns (w': World)
    requires Attainable(c, w) && d in w.running
    ensures Attainable(c, w') && w'.led == w.led && d in w'.returned && d in w'.lingering
  {
    w' := Next(c, w, TimeOut(d));
    AttainableNext(c, w, TimeOut(d));
  }

  /** The scheduler waits for the gate, opens it and pushes the job again. */
  lemma ComesBack(c: Config, w: World, id: Uuid) returns (w': World)
    requires Attainable(c, w) && id in w.led.db.rows
    requires var r := w.led.db.rows[id]; r.status == Pending && r.notBefore.Some? && r.notBefore.value >= w.led.clock
    ensures Attainable(c, w') && Follows(w, w', id) && id in w'.entries && w'.lingering == w.lingering
    ensures id in w'.led.db.rows && w'.led.db.rows[id] == w.led.db.rows[id].(notBefore := None)
    ensures w'.led.minted == w.led.minted
  {
    var gate := w.led.db.rows[id].notBefore.value;
    var w1 := Waits(c, w, gate);
    var w2 := Opens(c, w1, id);
    w' := Pushes(c, w2, id);
  }

  lemma Waits(c: Config, w: World, until: Time) returns (w': World)
    requires Attainable(c, w) && w.led.clock <= until
    ensures Attainable(c, w') && w'.led == w.led.(clock := until) && w'.lingering == w.lingering
  {
    AttainableNext(c, w, Tick(until));
    w' := Next(c, w, Tick(until));
  }

  lemma Opens(c: Config, w: World, id: Uuid) returns (w': World)
    requires Attainable(c, w) && id in w.led.db.rows
    requires w.led.db.rows[id].status == Pending && w.led.db.rows[id].notBefore == Some(w.led.clock)
    ensures Attainable(c, w') && Follows(w, w', id) && id in w'.outbox && w'.lingering == w.lingering
    ensures id in w'.led.db.rows && w'.led.db.rows[id] == w.led.db.rows[id].(notBefore := None)
    ensures w'.led.minted == w.led.minted
  {
    var act, m := Mature(w.led.clock), MatureDue(id, w.led.clock);
    DoMove(c, w, m, id, act);
    OpenedIsReady(Minting(w.led, id, act), id);
    w' := Next(c, w, m);
    assert Takes(w, id, act) && w'.outbox == w.outbox + multiset{id};
    assert w.led.minted + {} == w.led.minted;
  }

  lemma Pushes(c: Config, w: World, id: Uuid) returns (w': World)
    requires Attainable(c, w) && id in w.outbox
    ensures Attainable(c, w') && w'.led == w.led && id in w'.entries && w'.lingering == w.lingering
  {
    AttainableNext(c, w, Push(id));
    w' := Next(c, w, Push(id));
  }

  /** A worker claims the job and starts a handler. */
  lemma Starts(c: Config, w: World, id: Uuid, token: Uuid) returns (w': World)
    requires Attainable(c, w) && id in w.entries && id in w.led.db.rows && token !in w.led.minted
    requires var r := w.led.db.rows[id]; r.status == Pending && r.notBefore == None && r.attempts < MAX_SMALLINT
    ensures Attainable(c, w') && Follows(w, w', id) && Dispatch(id, token) in w'.running && w'.lingering == w.lingering
    ensures Live(w'.led, Dispatch(id, token)) && var r, r' := w.led.db.rows[id], w'.led.db.rows[id];
            r'.attempts == r.attempts + 1 && r'.maxRetry == r.maxRetry
  {
    var m, act := Deliver(id, "worker", token), Claim("worker", token);
    ClaimedIsLive(Minting(w.led, id, act), id, "worker", token);
    var w1 := Next(c, w, m);
    DoMove(c, w, m, id, act);
    assert Dispatch(id, token) in w1.queued;
    w' := Next(c, w1, Start(Dispatch(id, token)));
    AttainableNext(c, w1, Start(Dispatch(id, token)));
    assert w'.led == w1.led && w'.lingering == w1.lingering;
  }

  lemma RunningTokenIsMinted(s: State, d: Dispatch)
    requires Sound(s) && Live(s, d)
    ensures d.token in s.minted
  {
    assert JobSound(s, d.id);
    if d.token !in s.minted {
      UnmintedIsUnused(s, d.token);
      RowTokenWasIssued(Life(s.trail, d.id), d.token);
    }
  }

  /** Whenever a held job with an attempt left is running, the system can get to two handlers
      of it alive without any further reclaim or replay. */
  lemma TimeoutForks(c: Config, w: World, d: Dispatch) returns (w': World)
    requires Attainable(c, w) && d in w.running && Live(w.led, d)
    requires var r := w.led.db.rows[d.id]; r.attempts < r.maxRetry && r.attempts < MAX_SMALLINT
    ensures Attainable(c, w') && Follows(w, w', d.id) && |AliveTokens(w', d.id)| >= 2
  {
    assert d.token in w.led.minted by {
      AttainableIsSound(c, w);
      RunningTokenIsMinted(w.led, d);
    }
    var w1 := CutOff(c, w, d);
    var w2 := ComesBack(c, w1, d.id);
    FreshId(w2.led.minted);
    var token: Uuid :| token !in w2.led.minted;
    w' := Starts(c, w2, d.id, token);
    TwoAlive(w', d, Dispatch(d.id, token));
  }

  lemma TwoAlive(w: World, d: Dispatch, e: Dispatch)
    requires d in w.lingering && e in w.running && d.id == e.id && d.token != e.token
    ensures |AliveTokens(w, d.id)| >= 2
  {
    assert d in w.running + w.lingering && e in w.running + w.lingering;
    SubsetSize({d.token, e.token}, AliveTokens(w, d.id));
  }

  lemma Enqueued(c: Config, id: Uuid, row: Row, t: Time) returns (w: World)
    requires 0 <= t && NewRow(row, t) && row.status == Pending
    ensures Attainable(c, w) && id in w.entries && id in w.led.db.rows && w.led.db.rows[id] == row
    ensures BornAs(w.led.trail, id, row) && Helped(w.led.trail, id) == 0
  {
    assert PlayableFrom(c, IDLE, []) && PlayFrom(c, IDLE, []) == IDLE;
    var w1 := Waits(c, IDLE, t);
    var w2 := Next(c, w1, Enqueue(id, row));
    DoMove(c, w1, Enqueue(id, row), id, Create(row));
    InsertedFirst(Minting(w1.led, id, Create(row)), id, row);
    assert id in w2.outbox;
    w := Pushes(c, w2, id);
  }

  lemma InsertedFirst(s: State, id: Uuid, row: Row)
    requires s.db == EMPTY.db && s.trail == [] && NewRow(row, s.clock)
    ensures Applies(s.db, id, Create(row), s.clock)
    ensures var s' := Record(s, id, Create(row));
            && id in s'.db.rows && s'.db.rows[id] == row && BornAs(s'.trail, id, row) && Helped(s'.trail, id) == 0
  {
    var x := Change(id, Create(row), s.clock, None, Some(row));
    OneChange(x);
    assert s.trail + [x] == [x];
    assert Record(s, id, Create(row)).trail == [x] && Record(s, id, Create(row)).db.rows == map[id := row];
  }

  lemma OneChange(x: Change)
    ensures Life([x], x.id) == [x] && (!x.act.Reclaim? && !x.act.Replay? ==> Helped([x], x.id) == 0)
  {
    LifeSnoc([], x, x.id);
    assert [] + [x] == [x] && Life([], x.id) == [];
    assert Count([x][..0], IsReclaim) == 0 && Count([x][..0], IsReplay) == 0;
  }

  lemma {:induction false} BornStays(trail: seq<Change>, more: seq<Change>, id: Uuid)
    requires trail <= more && Life(trail, id) != []
    ensures Life(more, id) != [] && Life(more, id)[0] == Life(trail, id)[0]
    decreases |more|
  {
    if |more| > |trail| {
      assert trail <= more[..|more| - 1];
      BornStays(trail, more[..|more| - 1], id);
    } else {
      assert trail == more;
    }
  }

  ghost predicate TwoAliveUnhelped(c: Config, w: World, id: Uuid, row: Row) {
    Attainable(c, w) && BornAs(w.led.trail, id, row) && Helped(w.led.trail, id) == 0 && |AliveTokens(w, id)| >= 2
  }

  /** A job enqueued pending can have two handlers alive although it is never reclaimed or
      replayed if and only if it has at least two attempts. */
  lemma TwoHandlersExactly(c: Config, id: Uuid, row: Row, t: Time)
    requires 0 <= t && NewRow(row, t) && row.status == Pending
    ensures (exists w :: TwoAliveUnhelped(c, w, id, row)) <==> row.maxRetry >= 2
  {
    if row.maxRetry >= 2 {
      var w1 := Enqueued(c, id, row, t);
      FreshId(w1.led.minted);
      var token: Uuid :| token !in w1.led.minted;
      var w2 := Starts(c, w1, id, token);
      var w := TimeoutForks(c, w2, Dispatch(id, token));
      BornStays(w1.led.trail, w.led.trail, id);
      assert TwoAliveUnhelped(c, w, id, row);
    } else {
      forall w | TwoAliveUnhelped(c, w, id, row) ensures false {
        AliveWithinBudget(c, w, id, row);
      }
    }
  }
}
