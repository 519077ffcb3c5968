/** The whole system around the database: the XADDs producers are about to make, the
    stream entries and pending lists (which may lose and duplicate), a lagging read
    replica, the dispatcher queue and the workers. Every move that touches the database
    is one step of the ledger. */
module World {
  import opened Lifecycle
  import opened Ledger
  import G = Guarantees
  import S = Series

  /** A claimed job on its way through dispatcher and worker. */
  datatype Dispatch = Dispatch(id: Uuid, token: Uuid)

  /** `lingering` are handlers whose slot was released by the timeout while they go on;
      `started` and `timedOut` are history: every handler run, and every one cut off. */
  datatype World = World(
    led: State,
    replica: map<Uuid, Row>,
    outbox: multiset<Uuid>,
    entries: multiset<Uuid>,
    queued: multiset<Dispatch>,
    running: multiset<Dispatch>,
    returned: multiset<Dispatch>,
    lingering: multiset<Dispatch>,
    started: seq<Dispatch>,
    timedOut: seq<Dispatch>)

  datatype Move =
    | Tick(until: Time)
    | Enqueue(id: Uuid, row: Row)
    | PromoteDue(id: Uuid, now: Time, child: Uuid)
    | MatureDue(id: Uuid, now: Time)
    | ReclaimStale(id: Uuid, cutoff: Time)
    | ReplayFailed(id: Uuid)
    | CancelWaiting(id: Uuid)
    | PurgeOld(id: Uuid, cutoff: Time)
    | Replicate
    | Sweep(id: Uuid)
    | Push(id: Uuid)
    | DropPush(id: Uuid)
    | Duplicate(id: Uuid)
    | Lose(id: Uuid)
    | Deliver(id: Uuid, worker: string, token: Uuid)
    | Start(d: Dispatch)
    | Heartbeat(d: Dispatch)
    | Return(d: Dispatch)
    | TimeOut(d: Dispatch)
    | HandlerEnds(d: Dispatch)
    | Complete(d: Dispatch)
    | GiveUp(d: Dispatch, error: string)
    | DispatchFailed(d: Dispatch)
    | Crash(d: Dispatch)

  function InFlight(w: World): multiset<Dispatch> {
    w.queued + w.running + w.returned
  }

  /** The database transaction of a move, if it has one. */
  function LedgerStep(m: Move): Option<Step> {
    match m
    case Tick(until) => Some(Advance(until))
    case Enqueue(id, row) => Some(Do(id, Create(row)))
    case PromoteDue(id, now, child) => Some(Fire(id, now, child))
    case MatureDue(id, now) => Some(Do(id, Mature(now)))
    case ReclaimStale(id, cutoff) => Some(Do(id, Reclaim(cutoff)))
    case ReplayFailed(id) => Some(Do(id, Replay))
    case CancelWaiting(id) => Some(Do(id, Cancel))
    case PurgeOld(id, cutoff) => Some(Do(id, Purge(cutoff)))
    case Deliver(id, worker, token) => Some(Do(id, Claim(worker, token)))
    case Heartbeat(d) => Some(Do(d.id, Beat(d.token)))
    case Complete(d) => Some(Do(d.id, Finish(d.token)))
    case GiveUp(d, error) => Some(Do(d.id, Fail(d.token, error)))
    case DispatchFailed(d) => Some(Do(d.id, Fail(d.token, "dispatch failed")))
    case _ => None
  }

  predicate CanMove(c: Config, w: World, m: Move) {
    && (LedgerStep(m).Some? ==> Enabled(c, w.led, LedgerStep(m).value))
    && match m
       case Sweep(id) => id in w.replica && (w.replica[id].status == Pending || w.replica[id].status == Queued)
       case Push(id) => id in w.outbox
       case DropPush(id) => id in w.outbox
       case Duplicate(id) => id in w.entries
       case Lose(id) => id in w.entries
       case Deliver(id, _, _) => id in w.entries
       case Start(d) => d in w.queued
       case Heartbeat(d) => d in w.running || d in w.returned
       case Return(d) => d in w.running
       case TimeOut(d) => d in w.running
       case HandlerEnds(d) => d in w.lingering
       case Complete(d) => d in w.returned
       case GiveUp(d, _) => d in w.returned
       case DispatchFailed(d) => d in w.queued
       case Crash(d) => d in InFlight(w)
       case _ => true
  }

  /** ErrNotClaimable from a claim: no row, wrong status, or gated. The entry is acked. */
  predicate NotClaimable(s: State, id: Uuid) {
    id !in s.db.rows || !Claimable(s.db.rows[id].status) || !GateOpen(s.db.rows[id], s.clock)
  }

  /** Does the move's row change go through? Then producers owe the stream an entry. */
  predicate Takes(w: World, id: Uuid, act: Act) {
    Applies(w.led.db, id, act, w.led.clock)
  }

  function Owe(w: World, id: Uuid, go: bool): World {
    if go then w.(outbox := w.outbox + multiset{id}) else w
  }

  function Transport(w: World, m: Move): World {
    match m
    case Enqueue(id, row) => Owe(w, id, row.status == Pending && Takes(w, id, Create(row)))
    case PromoteDue(id, now, _) => Owe(w, id, Takes(w, id, Promote(now)))
    case MatureDue(id, now) => Owe(w, id, Takes(w, id, Mature(now)))
    case ReclaimStale(id, cutoff) => Owe(w, id, Takes(w, id, Reclaim(cutoff)))
    case ReplayFailed(id) => Owe(w, id, Takes(w, id, Replay))
    case Replicate => w.(replica := w.led.db.rows)
    case Sweep(id) => Owe(w, id, true)
    case Push(id) => w.(outbox := w.outbox - multiset{id}, entries := w.entries + multiset{id})
    case DropPush(id) => w.(outbox := w.outbox - multiset{id})
    case Duplicate(id) => w.(entries := w.entries + multiset{id})
    case Lose(id) => w.(entries := w.entries - multiset{id})
    case Deliver(id, worker, token) =>
      if Takes(w, id, Claim(worker, token)) then w.(queued := w.queued + multiset{Dispatch(id, token)})
      else if NotClaimable(w.led, id) then w.(entries := w.entries - multiset{id})
      else w
    case Start(d) =>
      w.(queued := w.queued - multiset{d}, running := w.running + multiset{d}, started := w.started + [d])
    case Return(d) => w.(running := w.running - multiset{d}, returned := w.returned + multiset{d})
    case TimeOut(d) =>
      w.(running := w.running - multiset{d}, returned := w.returned + multiset{d},
         lingering := w.lingering + multiset{d}, timedOut := w.timedOut + [d])
    case HandlerEnds(d) => w.(lingering := w.lingering - multiset{d})
    case Complete(d) => w.(returned := w.returned - multiset{d}, entries := w.entries - multiset{d.id})
    case GiveUp(d, _) => w.(returned := w.returned - multiset{d}, entries := w.entries - multiset{d.id})
    case DispatchFailed(d) => w.(queued := w.queued - multiset{d}, entries := w.entries - multiset{d.id})
    case Crash(d) =>
      if d in w.queued then w.(queued := w.queued - multiset{d})
      else if d in w.running then w.(running := w.running - multiset{d})
      else w.(returned := w.returned - multiset{d})
    case _ => w
  }

  function Next(c: Config, w: World, m: Move): World {
    var w' := Transport(w, m);
    if LedgerStep(m).Some? then w'.(led := Apply(c, w.led, LedgerStep(m).value)) else w'
  }

  predicate PlayableFrom(c: Config, w: World, moves: seq<Move>)
    decreases |moves|
  {
    moves == [] || (CanMove(c, w, moves[0]) && PlayableFrom(c, Next(c, w, moves[0]), moves[1..]))
  }

  function PlayFrom(c: Config, w: World, moves: seq<Move>): World
    decreases |moves|
  {
    if moves == [] then w else PlayFrom(c, Next(c, w, moves[0]), moves[1..])
  }

  const IDLE := World(EMPTY, map[], multiset{}, multiset{}, multiset{}, multiset{}, multiset{}, multiset{}, [], [])

  ghost predicate Attainable(c: Config, w: World) {
    exists moves :: PlayableFrom(c, IDLE, moves) && PlayFrom(c, IDLE, moves) == w
  }

  /** Every play of the system is a run of the ledger. */
  lemma {:induction false} PlaysAreRuns(c: Config, w: World, moves: seq<Move>)
    requires PlayableFrom(c, w, moves)
    ensures exists steps :: ValidFrom(c, w.led, steps) && RunFrom(c, w.led, steps) == PlayFrom(c, w, moves).led
    decreases |moves|
  {
    if moves == [] {
      assert ValidFrom(c, w.led, []) && RunFrom(c, w.led, []) == w.led;
    } else {
      var w1 := Next(c, w, moves[0]);
      PlaysAreRuns(c, w1, moves[1..]);
      var rest :| ValidFrom(c, w1.led, rest) && RunFrom(c, w1.led, rest) == PlayFrom(c, w, moves).led;
      MoveBeforeRun(c, w, moves[0], rest);
    }
  }

  lemma MoveBeforeRun(c: Config, w: World, m: Move, rest: seq<Step>)
    requires CanMove(c, w, m) && ValidFrom(c, Next(c, w, m).led, rest)
    ensures exists steps ::
              ValidFrom(c, w.led, steps) && RunFrom(c, w.led, steps) == RunFrom(c, Next(c, w, m).led, rest)
  {
    if LedgerStep(m).Some? { RunCons(c, w.led, LedgerStep(m).value, rest); } else { assert Next(c, w, m).led == w.led; }
  }

  lemma AttainableLedgerIsReachable(c: Config, w: World)
    requires Attainable(c, w)
    ensures Reachable(c, w.led)
  {
    var moves :| PlayableFrom(c, IDLE, moves) && PlayFrom(c, IDLE, moves) == w;
    PlaysAreRuns(c, IDLE, moves);
  }

  // ---------- nothing names a scheduled row ----------

  predicate Released(s: State, id: Uuid) {
    id in s.minted && (id in s.db.rows ==> s.db.rows[id].status != Scheduled)
  }

  lemma ReleasedStays(c: Config, s: State, step: Step, id: Uuid)
    requires Enabled(c, s, step) && Released(s, id)
    ensures Released(Apply(c, s, step), id)
  {
  }

  ghost predicate StreamsReleased(w: World) {
    && (forall id | id in w.outbox :: Released(w.led, id))
    && (forall id | id in w.entries :: Released(w.led, id))
    && (forall id | id in w.replica && w.replica[id].status != Scheduled :: Released(w.led, id))
  }

  ghost predicate NoEarlyClaims(s: State) {
    forall x | x in s.trail && x.act.Claim? && x.before.Some? :: x.before.value.status != Scheduled
  }

  lemma ChangeReleases(c: Config, s: State, step: Step, id: Uuid)
    requires Enabled(c, s, step)
    requires (step.Fire? && step.id == id && Applies(s.db, id, Promote(step.now), s.clock)) ||
             (step.Do? && step.id == id && Applies(s.db, id, step.act, s.clock) &&
              (step.act.Create? ==> step.act.row.status == Pending))
    requires step.Fire? || (step.act.Create? || step.act.Mature? || step.act.Reclaim? || step.act.Replay?)
    requires id in s.db.rows ==> id in s.minted
    ensures Released(Apply(c, s, step), id)
  {
  }

  /** Producers owe the stream only jobs whose row they have just seen change or listed. */
  predicate OwedFor(w: World, m: Move, id: Uuid) {
    match m
    case Enqueue(j, row) => j == id && row.status == Pending && Takes(w, id, Create(row))
    case PromoteDue(j, now, _) => j == id && Takes(w, id, Promote(now))
    case MatureDue(j, now) => j == id && Takes(w, id, Mature(now))
    case ReclaimStale(j, cutoff) => j == id && Takes(w, id, Reclaim(cutoff))
    case ReplayFailed(j) => j == id && Takes(w, id, Replay)
    case Sweep(j) => j == id
    case _ => false
  }

  lemma TransportSources(c: Config, w: World, m: Move, id: Uuid)
    requires CanMove(c, w, m)
    ensures id in Transport(w, m).outbox ==> id in w.outbox || OwedFor(w, m, id)
  {
  }

  lemma EntrySources(c: Config, w: World, m: Move, id: Uuid)
    requires CanMove(c, w, m)
    ensures id in Transport(w, m).entries ==> id in w.entries || id in w.outbox
  {
    if AcksEntry(m) { EntryAcked(w, m, id); } else if !m.Push? && !m.Duplicate? { EntriesUnchanged(w, m); }
  }

  predicate AcksEntry(m: Move) {
    m.Lose? || m.Deliver? || m.Complete? || m.GiveUp? || m.DispatchFailed?
  }

  lemma EntryAcked(w: World, m: Move, id: Uuid)
    requires AcksEntry(m)
    ensures Transport(w, m).entries[id] <= w.entries[id]
  {
  }

  lemma EntriesUnchanged(w: World, m: Move)
    requires !AcksEntry(m) && !m.Push? && !m.Duplicate?
    ensures Transport(w, m).entries == w.entries
  {
  }

  lemma OwedIsReleased(c: Config, w: World, m: Move, id: Uuid)
    requires Sound(w.led) && CanMove(c, w, m) && OwedFor(w, m, id) && !m.Sweep?
    ensures Released(Apply(c, w.led, LedgerStep(m).value), id)
  {
    if id in w.led.db.rows { RowsAreShaped(w.led, id); }
    ChangeReleases(c, w.led, LedgerStep(m).value, id);
  }

  lemma MoveKeepsReleased(c: Config, w: World, m: Move, id: Uuid)
    requires CanMove(c, w, m) && Released(w.led, id)
    ensures Released(Next(c, w, m).led, id)
  {
    if LedgerStep(m).Some? { ReleasedStays(c, w.led, LedgerStep(m).value, id); }
  }

  lemma OutboxStaysReleased(c: Config, w: World, m: Move, id: Uuid)
    requires Sound(w.led) && StreamsReleased(w) && CanMove(c, w, m) && id in Transport(w, m).outbox
    ensures Released(Next(c, w, m).led, id)
  {
    TransportSources(c, w, m, id);
    if id in w.outbox || m.Sweep? { MoveKeepsReleased(c, w, m, id); } else { OwedIsReleased(c, w, m, id); }
  }

  lemma EntriesStayReleased(c: Config, w: World, m: Move, id: Uuid)
    requires StreamsReleased(w) && CanMove(c, w, m) && id in Transport(w, m).entries
    ensures Released(Next(c, w, m).led, id)
  {
    EntrySources(c, w, m, id);
    MoveKeepsReleased(c, w, m, id);
  }

  lemma ReplicaStaysReleased(c: Config, w: World, m: Move, id: Uuid)
    requires Sound(w.led) && StreamsReleased(w) && CanMove(c, w, m)
    requires id in Transport(w, m).replica && Transport(w, m).replica[id].status != Scheduled
    ensures Released(Next(c, w, m).led, id)
  {
    if m.Replicate? { RowsAreShaped(w.led, id); }
    MoveKeepsReleased(c, w, m, id);
  }

  lemma MoveKeepsStreamsReleased(c: Config, w: World, m: Move)
    requires Sound(w.led) && StreamsReleased(w) && CanMove(c, w, m)
    ensures StreamsReleased(Next(c, w, m))
  {
    var w', t := Next(c, w, m), Transport(w, m);
    assert w'.outbox == t.outbox && w'.entries == t.entries && w'.replica == t.replica;
    forall id | id in t.outbox ensures Released(w'.led, id) { OutboxStaysReleased(c, w, m, id); }
    forall id | id in t.entries ensures Released(w'.led, id) { EntriesStayReleased(c, w, m, id); }
    forall id | id in t.replica && t.replica[id].status != Scheduled ensures Released(w'.led, id) {
      ReplicaStaysReleased(c, w, m, id);
    }
  }

  lemma StepKeepsClaimsLate(c: Config, s: State, step: Step)
    requires NoEarlyClaims(s) && Enabled(c, s, step)
    requires step.Do? && step.act.Claim? ==> Released(s, step.id)
    ensures NoEarlyClaims(Apply(c, s, step))
  {
  }

  // ---------- dispatches ----------

  predicate Live(s: State, d: Dispatch) {
    d.id in s.db.rows && HeldBy(s.db.rows[d.id], d.token)
  }

  predicate Reclaimed(s: State, d: Dispatch) {
    d.token in ReclaimedTokens(Life(s.trail, d.id))
  }

  predicate Handed(s: State, d: Dispatch) {
    d.token in Issued(Life(s.trail, d.id))
  }

  ghost predicate DispatchesSound(w: World) {
    && (forall d | d in InFlight(w) :: InFlight(w)[d] == 1 && Handed(w.led, d))
    && (forall d | d in w.queued || d in w.running :: Live(w.led, d) || Reclaimed(w.led, d))
    && (forall d | d in w.started :: Handed(w.led, d) && d !in w.queued)
    && (forall i, j | 0 <= i < j < |w.started| :: w.started[i] != w.started[j])
  }

  lemma RecordOnLife(s: State, id: Uuid, act: Act, j: Uuid)
    ensures var l, l' := Life(s.trail, j), Life(Record(s, id, act).trail, j);
            && Issued(l) <= Issued(l') && ReclaimedTokens(l) <= ReclaimedTokens(l')
            && (j == id && Applies(s.db, id, act, s.clock) && act.Claim? ==> act.token in Issued(l'))
            && (j == id && Applies(s.db, id, act, s.clock) && act.Reclaim? && s.db.rows[id].token.Some? ==>
                  s.db.rows[id].token.value in ReclaimedTokens(l'))
  {
    if Applies(s.db, id, act, s.clock) {
      var before := Find(s.db.rows, id);
      var x := Change(id, act, s.clock, before, Effect(before, act, s.clock));
      LifeSnoc(s.trail, x, j);
      if j == id { assert (Life(s.trail, id) + [x])[..|Life(s.trail, id)|] == Life(s.trail, id); }
    }
  }

  lemma StepOnLife(c: Config, s: State, step: Step, j: Uuid)
    ensures var l, l' := Life(s.trail, j), Life(Apply(c, s, step).trail, j);
            Issued(l) <= Issued(l') && ReclaimedTokens(l) <= ReclaimedTokens(l')
  {
    match step
    case Advance(_) =>
    case Do(id, act) => RecordOnLife(s.(minted := s.minted + MintedBy(id, act)), id, act, j);
    case Fire(id, now, child) =>
      var s1 := s.(minted := s.minted + {child});
      RecordOnLife(s1, id, Promote(now), j);
      var s2 := Record(s1, id, Promote(now));
      if Applies(s.db, id, Promote(now), s.clock) && Followup(c, s2.db.rows[id], now).Some? {
        RecordOnLife(s2, child, Create(Followup(c, s2.db.rows[id], now).value), j);
      }
  }

  lemma RecordKeepsLive(s: State, id: Uuid, act: Act, d: Dispatch)
    requires Live(s, d) || Reclaimed(s, d)
    requires id == d.id ==> act != Finish(d.token) && !(act.Fail? && act.token == d.token)
    ensures Live(Record(s, id, act), d) || Reclaimed(Record(s, id, act), d)
  {
    RecordOnLife(s, id, act, d.id);
    if Live(s, d) && id == d.id && Applies(s.db, id, act, s.clock) {
      HolderStep(Change(id, act, s.clock, Some(s.db.rows[id]), Effect(Some(s.db.rows[id]), act, s.clock)), d.token);
    }
  }

  /** A step that is not the holder's own completion or failure leaves a dispatch live or
      reclaimed. */
  lemma LiveOrReclaimedStays(c: Config, s: State, step: Step, d: Dispatch)
    requires Enabled(c, s, step) && (Live(s, d) || Reclaimed(s, d))
    requires step.Do? && step.id == d.id ==>
               step.act != Finish(d.token) && !(step.act.Fail? && step.act.token == d.token)
    ensures Live(Apply(c, s, step), d) || Reclaimed(Apply(c, s, step), d)
  {
    match step
    case Advance(_) =>
    case Do(id, act) => RecordKeepsLive(s.(minted := s.minted + MintedBy(id, act)), id, act, d);
    case Fire(id, now, child) =>
      var s1 := s.(minted := s.minted + {child});
      RecordKeepsLive(s1, id, Promote(now), d);
      var s2 := Record(s1, id, Promote(now));
      if Applies(s.db, id, Promote(now), s.clock) && Followup(c, s2.db.rows[id], now).Some? {
        RecordKeepsLive(s2, child, Create(Followup(c, s2.db.rows[id], now).value), d);
      }
  }

  lemma ActiveSources(c: Config, w: World, m: Move, d: Dispatch)
    requires CanMove(c, w, m) && (d in InFlight(w) ==> InFlight(w)[d] == 1)
    requires d in Transport(w, m).queued || d in Transport(w, m).running
    ensures (m.Deliver? && d == Dispatch(m.id, m.token) && Takes(w, m.id, Claim(m.worker, m.token))) ||
            ((d in w.queued || d in w.running) && (m.Complete? || m.GiveUp? || m.DispatchFailed? ==> m.d != d))
  {
    if d in Transport(w, m).queued { QueuedFrom(c, w, m, d); } else { RunningFrom(c, w, m, d); }
  }

  lemma QueuedFrom(c: Config, w: World, m: Move, d: Dispatch)
    requires CanMove(c, w, m) && (d in InFlight(w) ==> InFlight(w)[d] == 1) && d in Transport(w, m).queued
    ensures (m.Deliver? && d == Dispatch(m.id, m.token) && Takes(w, m.id, Claim(m.worker, m.token))) ||
            (d in w.queued && (m.Complete? || m.GiveUp? || m.DispatchFailed? ==> m.d != d))
  {
    if d in w.queued { assert d in InFlight(w) && w.queued[d] + w.running[d] + w.returned[d] == 1; }
    if !m.Deliver? && !m.Start? && !m.DispatchFailed? && !m.Crash? { QueueUnchanged(w, m); }
  }

  lemma RunningFrom(c: Config, w: World, m: Move, d: Dispatch)
    requires CanMove(c, w, m) && (d in InFlight(w) ==> InFlight(w)[d] == 1) && d in Transport(w, m).running
    ensures (d in w.queued || d in w.running) && (m.Complete? || m.GiveUp? || m.DispatchFailed? ==> m.d != d)
  {
    if d in w.running { assert d in InFlight(w) && w.queued[d] + w.running[d] + w.returned[d] == 1; }
    if !m.Start? && !m.Return? && !m.TimeOut? && !m.Crash? && !m.Complete? && !m.GiveUp? { SlotsUnchanged(w, m); }
  }

  lemma DeliverIsLive(c: Config, w: World, m: Move)
    requires m.Deliver? && Takes(w, m.id, Claim(m.worker, m.token))
    ensures Live(Next(c, w, m).led, Dispatch(m.id, m.token))
  {
  }

  lemma OthersKeepLive(c: Config, w: World, m: Move, d: Dispatch)
    requires CanMove(c, w, m) && (Live(w.led, d) || Reclaimed(w.led, d))
    requires m.Complete? || m.GiveUp? || m.DispatchFailed? ==> m.d != d
    ensures Live(Next(c, w, m).led, d) || Reclaimed(Next(c, w, m).led, d)
  {
    if LedgerStep(m).Some? { LiveOrReclaimedStays(c, w.led, LedgerStep(m).value, d); }
  }

  lemma MoveKeepsLive(c: Config, w: World, m: Move, d: Dispatch)
    requires DispatchesSound(w) && CanMove(c, w, m)
    requires d in Next(c, w, m).queued || d in Next(c, w, m).running
    ensures Live(Next(c, w, m).led, d) || Reclaimed(Next(c, w, m).led, d)
  {
    ActiveSources(c, w, m, d);
    if d in w.queued || d in w.running {
      OthersKeepLive(c, w, m, d);
    } else {
      DeliverIsLive(c, w, m);
    }
  }

  lemma MoveKeepsHanded(c: Config, w: World, m: Move, d: Dispatch)
    requires Handed(w.led, d)
    ensures Handed(Next(c, w, m).led, d)
  {
    if LedgerStep(m).Some? { StepOnLife(c, w.led, LedgerStep(m).value, d.id); }
  }

  lemma ClaimHands(s: State, id: Uuid, worker: string, token: Uuid)
    requires Applies(s.db, id, Claim(worker, token), s.clock)
    ensures Handed(Record(s, id, Claim(worker, token)), Dispatch(id, token))
  {
    RecordOnLife(s, id, Claim(worker, token), id);
  }

  lemma DeliverHands(c: Config, w: World, m: Move)
    requires m.Deliver? && CanMove(c, w, m) && Takes(w, m.id, Claim(m.worker, m.token))
    ensures Handed(Next(c, w, m).led, Dispatch(m.id, m.token))
  {
    ClaimHands(w.led.(minted := w.led.minted + MintedBy(m.id, Claim(m.worker, m.token))), m.id, m.worker, m.token);
  }

  lemma DeliveredTokenIsNew(c: Config, w: World, m: Move)
    requires m.Deliver? && Sound(w.led) && CanMove(c, w, m)
    ensures !Handed(w.led, Dispatch(m.id, m.token))
  {
    assert m.token !in w.led.minted;
    UnmintedIsUnused(w.led, m.token);
  }

  predicate Arrives(w: World, m: Move, d: Dispatch) {
    m.Deliver? && d == Dispatch(m.id, m.token) && Takes(w, m.id, Claim(m.worker, m.token))
  }

  lemma FlightGrowsByArrivals(c: Config, w: World, m: Move, d: Dispatch)
    requires CanMove(c, w, m)
    ensures InFlight(Transport(w, m))[d] <= InFlight(w)[d] + if Arrives(w, m, d) then 1 else 0
  {
    if m.Start? || m.Return? || m.TimeOut? { SlotsPassOn(c, w, m, d); } else { SlotsEmpty(w, m, d); }
  }

  lemma SlotsPassOn(c: Config, w: World, m: Move, d: Dispatch)
    requires CanMove(c, w, m) && (m.Start? || m.Return? || m.TimeOut?)
    ensures InFlight(Transport(w, m))[d] == InFlight(w)[d]
  {
    var t := Transport(w, m);
    assert InFlight(w)[d] == w.queued[d] + w.running[d] + w.returned[d];
    assert InFlight(t)[d] == t.queued[d] + t.running[d] + t.returned[d];
  }

  lemma SlotsEmpty(w: World, m: Move, d: Dispatch)
    requires !m.Start? && !m.Return? && !m.TimeOut?
    ensures InFlight(Transport(w, m))[d] <= InFlight(w)[d] + if Arrives(w, m, d) then 1 else 0
  {
    var t := Transport(w, m);
    QueuedCount(w, m, d);
    SlotCount(w, m, d);
    assert InFlight(w)[d] == w.queued[d] + w.running[d] + w.returned[d];
    assert InFlight(t)[d] == t.queued[d] + t.running[d] + t.returned[d];
  }

  lemma QueuedCount(w: World, m: Move, d: Dispatch)
    ensures Transport(w, m).queued[d] <= w.queued[d] + if Arrives(w, m, d) then 1 else 0
  {
    if !m.Deliver? && !m.Start? && !m.DispatchFailed? && !m.Crash? { QueueUnchanged(w, m); }
  }

  lemma SlotCount(w: World, m: Move, d: Dispatch)
    requires !m.Start? && !m.Return? && !m.TimeOut?
    ensures Transport(w, m).running[d] <= w.running[d] && Transport(w, m).returned[d] <= w.returned[d]
  {
    if !m.Crash? && !m.Complete? && !m.GiveUp? { SlotsUnchanged(w, m); }
  }

  lemma SlotsUnchanged(w: World, m: Move)
    requires !m.Start? && !m.Return? && !m.TimeOut? && !m.Crash? && !m.Complete? && !m.GiveUp?
    ensures Transport(w, m).running == w.running && Transport(w, m).returned == w.returned
  {
  }

  lemma QueueUnchanged(w: World, m: Move)
    requires !m.Deliver? && !m.Start? && !m.DispatchFailed? && !m.Crash?
    ensures Transport(w, m).queued == w.queued
  {
  }

  lemma QueueSources(c: Config, w: World, m: Move, d: Dispatch)
    requires CanMove(c, w, m) && (d in InFlight(w) ==> InFlight(w)[d] == 1)
    ensures d in Transport(w, m).queued ==> Arrives(w, m, d) || (d in w.queued && (m.Start? ==> d != m.d))
  {
    if !m.Deliver? && !m.Start? && !m.DispatchFailed? && !m.Crash? { QueueUnchanged(w, m); }
    if d in w.queued { assert d in InFlight(w) && w.queued[d] <= InFlight(w)[d] == 1; }
  }

  lemma MoveKeepsDispatches(c: Config, w: World, m: Move)
    requires Sound(w.led) && DispatchesSound(w) && CanMove(c, w, m)
    ensures DispatchesSound(Next(c, w, m))
  {
    var w' := Next(c, w, m);
    forall d | d in w'.queued || d in w'.running ensures Live(w'.led, d) || Reclaimed(w'.led, d) {
      MoveKeepsLive(c, w, m, d);
    }
    forall d | d in InFlight(w') ensures InFlight(w')[d] == 1 && Handed(w'.led, d) {
      FlightGrowsByArrivals(c, w, m, d);
      if Arrives(w, m, d) {
        DeliverHands(c, w, m);
        DeliveredTokenIsNew(c, w, m);
      } else {
        MoveKeepsHanded(c, w, m, d);
      }
    }
    MoveKeepsStarted(c, w, m);
  }

  lemma StartedGrows(w: World, m: Move)
    ensures Transport(w, m).started == w.started + if m.Start? then [m.d] else []
  {
  }

  lemma StartedStays(c: Config, w: World, m: Move, d: Dispatch)
    requires Sound(w.led) && CanMove(c, w, m) && Handed(w.led, d)
    requires d in InFlight(w) ==> InFlight(w)[d] == 1
    requires d !in w.queued || (m.Start? && m.d == d)
    ensures Handed(Next(c, w, m).led, d) && d !in Transport(w, m).queued
  {
    QueueSources(c, w, m, d);
    MoveKeepsHanded(c, w, m, d);
    if m.Deliver? { DeliveredTokenIsNew(c, w, m); }
  }

  lemma MoveKeepsStarted(c: Config, w: World, m: Move)
    requires Sound(w.led) && DispatchesSound(w) && CanMove(c, w, m)
    ensures var w' := Next(c, w, m);
            && (forall d | d in w'.started :: Handed(w'.led, d) && d !in w'.queued)
            && (forall i, j | 0 <= i < j < |w'.started| :: w'.started[i] != w'.started[j])
  {
    StartedGrows(w, m);
    if m.Start? { assert m.d in InFlight(w); }
    forall d | d in w.started || (m.Start? && d == m.d)
      ensures Handed(Next(c, w, m).led, d) && d !in Transport(w, m).queued
    {
      StartedStays(c, w, m, d);
    }
  }

  // ---------- handlers that outlive their timeout ----------

  /** A dispatch times out at most once and then neither waits nor holds a slot for its
      handler; a lingering handler is one that timed out. */
  ghost predicate TimeoutsSound(w: World) {
    && (forall d | d in w.running :: d in w.started)
    && (forall d | d in w.timedOut :: d in w.started && d !in w.running)
    && (forall i, j | 0 <= i < j < |w.timedOut| :: w.timedOut[i] != w.timedOut[j])
    && (forall d | d in w.lingering :: w.lingering[d] == 1 && d in w.timedOut)
  }

  lemma TimedOutGrows(w: World, m: Move)
    ensures Transport(w, m).timedOut == w.timedOut + if m.TimeOut? then [m.d] else []
  {
  }

  lemma LingeringSources(w: World, m: Move)
    ensures m.TimeOut? ==> Transport(w, m).lingering == w.lingering + multiset{m.d}
    ensures m.HandlerEnds? ==> Transport(w, m).lingering == w.lingering - multiset{m.d}
    ensures !m.TimeOut? && !m.HandlerEnds? ==> Transport(w, m).lingering == w.lingering
  {
  }

  lemma RunningSources(w: World, m: Move, d: Dispatch)
    ensures d in Transport(w, m).running ==> d in w.running || (m.Start? && d == m.d)
    ensures m.TimeOut? && d == m.d ==> Transport(w, m).running[d] == if d in w.running then w.running[d] - 1 else 0
  {
    if !m.Start? && !m.Return? && !m.TimeOut? && !m.Crash? && !m.Complete? && !m.GiveUp? { SlotsUnchanged(w, m); }
  }

  lemma TimedOutStays(c: Config, w: World, m: Move, d: Dispatch)
    requires TimeoutsSound(w) && DispatchesSound(w) && CanMove(c, w, m)
    requires d in w.timedOut || (m.TimeOut? && d == m.d)
    ensures d in w.started && d !in Transport(w, m).running
  {
    RunningSources(w, m, d);
    if d in w.timedOut {
      assert d in w.started && d !in w.running && d !in w.queued;
    } else {
      assert d in InFlight(w) && InFlight(w)[d] == 1;
    }
  }

  lemma LateHandlersSound(w: World, w': World, m: Move)
    requires TimeoutsSound(w) && w'.timedOut == w.timedOut + if m.TimeOut? then [m.d] else []
    requires m.TimeOut? ==> m.d in w.running && w'.lingering == w.lingering + multiset{m.d}
    requires m.HandlerEnds? ==> w'.lingering == w.lingering - multiset{m.d}
    requires !m.TimeOut? && !m.HandlerEnds? ==> w'.lingering == w.lingering
    ensures forall i, j | 0 <= i < j < |w'.timedOut| :: w'.timedOut[i] != w'.timedOut[j]
    ensures forall d | d in w'.lingering :: w'.lingering[d] == 1 && d in w'.timedOut
  {
    if m.TimeOut? { assert m.d !in w.timedOut; }
  }

  lemma MoveKeepsTimeouts(c: Config, w: World, m: Move)
    requires TimeoutsSound(w) && DispatchesSound(w) && CanMove(c, w, m)
    ensures TimeoutsSound(Next(c, w, m))
  {
    var t := Transport(w, m);
    TimedOutGrows(w, m);
    LingeringSources(w, m);
    StartedGrows(w, m);
    LateHandlersSound(w, t, m);
    forall d | d in t.running ensures d in t.started { RunningSources(w, m, d); }
    forall d | d in t.timedOut ensures d in t.started && d !in t.running { TimedOutStays(c, w, m, d); }
    assert TimeoutsSound(t);
  }

  // ---------- the system invariant ----------

  ghost predicate SystemSound(w: World) {
    Sound(w.led) && StreamsReleased(w) && NoEarlyClaims(w.led) && DispatchesSound(w) && TimeoutsSound(w)
  }

  lemma MoveKeepsSystemSound(c: Config, w: World, m: Move)
    requires SystemSound(w) && CanMove(c, w, m)
    ensures SystemSound(Next(c, w, m))
  {
    MoveKeepsStreamsReleased(c, w, m);
    MoveKeepsDispatches(c, w, m);
    MoveKeepsTimeouts(c, w, m);
    if LedgerStep(m).Some? {
      StepKeepsSound(c, w.led, LedgerStep(m).value);
      StepKeepsClaimsLate(c, w.led, LedgerStep(m).value);
    }
  }

  lemma {:induction false} PlayKeepsSystemSound(c: Config, w: World, moves: seq<Move>)
    requires SystemSound(w) && PlayableFrom(c, w, moves)
    ensures SystemSound(PlayFrom(c, w, moves))
    decreases |moves|
  {
    if moves != [] {
      MoveKeepsSystemSound(c, w, moves[0]);
      PlayKeepsSystemSound(c, Next(c, w, moves[0]), moves[1..]);
    }
  }

  lemma AttainableIsSound(c: Config, w: World)
    requires Attainable(c, w)
    ensures SystemSound(w)
  {
    var moves :| PlayableFrom(c, IDLE, moves) && PlayFrom(c, IDLE, moves) == w;
    ReachableIsSound(c, EMPTY) by { assert ValidFrom(c, EMPTY, []) && RunFrom(c, EMPTY, []) == EMPTY; }
    PlayKeepsSystemSound(c, IDLE, moves);
  }

  // ---------- theorems ----------

  lemma {:induction false} LifeInTrail(trail: seq<Change>, id: Uuid)
    ensures forall x | x in Life(trail, id) :: x in trail && x.id == id
  {
    if trail != [] { LifeInTrail(trail[..|trail| - 1], id); }
  }

  /** No claim in any play of the system takes a job out of scheduled, and none comes
      before the job's scheduled_at (a minute before, for a job created pending). */
  lemma NothingRunsEarly(c: Config, w: World, i: nat)
    requires Attainable(c, w) && i < |w.led.trail| && w.led.trail[i].act.Claim?
    ensures var x, l := w.led.trail[i], Life(w.led.trail, w.led.trail[i].id);
            && x.before.Some? && x.before.value.status != Scheduled
            && IsLife(l) && l != []
            && (Born(l).scheduledAt.Some? ==>
                  x.at >= Born(l).scheduledAt.value - if Born(l).status == Scheduled then 0 else MINUTE)
  {
    AttainableIsSound(c, w);
    var x := w.led.trail[i];
    var l := Life(w.led.trail, x.id);
    assert JobSound(w.led, x.id);
    G.ChangeInLife(w.led.trail, i);
    LifeAt(l, G.Position(w.led.trail, i));
    LifeInTrail(w.led.trail, x.id);
    if Born(l).scheduledAt.Some? { NotClaimedEarly(l, G.Position(w.led.trail, i)); }
  }

  lemma {:induction false} NoEarlyClaimsCounted(trail: seq<Change>, sid: Uuid)
    requires forall x | x in trail && x.act.Claim? && x.before.Some? :: x.before.value.status != Scheduled
    ensures Count(trail, S.IsEarlyClaim(sid)) == 0
  {
    if trail != [] {
      var p := trail[..|trail| - 1];
      assert forall x | x in p :: x in trail;
      NoEarlyClaimsCounted(p, sid);
      assert trail[|trail| - 1] in trail;
    }
  }

  /** In the whole system a series' members now scheduled, members ever cancelled while
      scheduled and promotions that ended the series are exactly one. */
  lemma SeriesConservationInSystem(c: Config, w: World, sid: Uuid)
    requires Attainable(c, w) && S.Births(w.led, sid) > 0
    ensures |S.Waiting(w.led.db.rows, sid)| + S.Dropped(w.led, sid) + S.Ended(c, w.led, sid) == 1
  {
    AttainableIsSound(c, w);
    AttainableLedgerIsReachable(c, w);
    S.SeriesConservation(c, w.led, sid);
    NoEarlyClaimsCounted(w.led.trail, sid);
  }

  function StartedTokens(w: World, id: Uuid): set<Uuid> {
    set d | d in w.started && d.id == id :: d.token
  }

  /** Handlers of the job alive now: in a worker's slot, or going on after their timeout. */
  function AliveTokens(w: World, id: Uuid): set<Uuid> {
    set d | d in w.running + w.lingering && d.id == id :: d.token
  }

  /** How often a handler of the job was cut off by the timeout. */
  function Timeouts(timedOut: seq<Dispatch>, id: Uuid): nat {
    if timedOut == [] then 0
    else Timeouts(timedOut[..|timedOut| - 1], id) + if timedOut[|timedOut| - 1].id == id then 1 else 0
  }

  function TimedOutTokens(timedOut: seq<Dispatch>, id: Uuid): set<Uuid> {
    set d | d in timedOut && d.id == id :: d.token
  }

  lemma {:induction false} TimedOutTokensAreFew(timedOut: seq<Dispatch>, id: Uuid)
    ensures |TimedOutTokens(timedOut, id)| <= Timeouts(timedOut, id)
  {
    if timedOut != [] {
      var p, last := timedOut[..|timedOut| - 1], timedOut[|timedOut| - 1];
      TimedOutTokensAreFew(p, id);
      assert forall d | d in timedOut :: d in p || d == last;
      var more := if last.id == id then {last.token} else {};
      assert TimedOutTokens(timedOut, id) == TimedOutTokens(p, id) + more;
    }
  }

  /** However often stream entries are duplicated: every handler run has its own token,
      runs since the last replay are at most attempt_count, and handlers alive at once are
      at most one more than the reclaims and timeouts of the job. */
  lemma DuplicatesDoNotMultiplyWork(c: Config, w: World, id: Uuid)
    requires Attainable(c, w)
    ensures forall i, j | 0 <= i < j < |w.started| :: w.started[i].token != w.started[j].token
    ensures forall d | d in w.running + w.lingering :: (w.running + w.lingering)[d] == 1
    ensures id in w.led.db.rows ==>
              |StartedTokens(w, id) * EpochTokens(Life(w.led.trail, id))| <= w.led.db.rows[id].attempts
    ensures |AliveTokens(w, id)| <= 1 + Count(Life(w.led.trail, id), IsReclaim) + Timeouts(w.timedOut, id)
  {
    AttainableIsSound(c, w);
    var l := Life(w.led.trail, id);
    assert JobSound(w.led, id);
    forall i, j | 0 <= i < j < |w.started| ensures w.started[i].token != w.started[j].token {
      assert Handed(w.led, w.started[i]) && Handed(w.led, w.started[j]);
    }
    forall d | d in w.running + w.lingering ensures (w.running + w.lingering)[d] == 1 {
      if d in w.running { assert d in InFlight(w) && d !in w.timedOut; }
    }
    if id in w.led.db.rows {
      AttemptsCountTokens(l);
      SubsetSize(StartedTokens(w, id) * EpochTokens(l), EpochTokens(l));
    }
    AliveAreFew(w, id);
  }

  lemma AliveAreFew(w: World, id: Uuid)
    requires SystemSound(w)
    ensures |AliveTokens(w, id)| <= 1 + Count(Life(w.led.trail, id), IsReclaim) + Timeouts(w.timedOut, id)
  {
    var l, late := Life(w.led.trail, id), TimedOutTokens(w.timedOut, id);
    assert JobSound(w.led, id);
    var held := if id in w.led.db.rows && w.led.db.rows[id].token.Some? then {w.led.db.rows[id].token.value} else {};
    forall d | (d in w.running || d in w.lingering) && d.id == id
      ensures d.token in held + ReclaimedTokens(l) + late
    {
      if d in w.running { assert Live(w.led, d) || Reclaimed(w.led, d); } else { assert d in w.timedOut; }
    }
    SubsetSize(AliveTokens(w, id), held + ReclaimedTokens(l) + late);
    ReclaimedTokensAreFew(l);
    TimedOutTokensAreFew(w.timedOut, id);
  }

  // ---------- longer plays ----------

  lemma {:induction false} PlaySnoc(c: Config, w: World, moves: seq<Move>, m: Move)
    requires PlayableFrom(c, w, moves) && CanMove(c, PlayFrom(c, w, moves), m)
    ensures PlayableFrom(c, w, moves + [m]) && PlayFrom(c, w, moves + [m]) == Next(c, PlayFrom(c, w, moves), m)
    decreases |moves|
  {
    if moves == [] {
      assert [m][1..] == [] && [] + [m] == [m];
      assert PlayFrom(c, Next(c, w, m), []) == Next(c, w, m);
    } else {
      var more := moves + [m];
      assert more[0] == moves[0] && more[1..] == moves[1..] + [m];
      PlaySnoc(c, Next(c, w, moves[0]), moves[1..], m);
    }
  }

  lemma AttainableNext(c: Config, w: World, m: Move)
    requires Attainable(c, w) && CanMove(c, w, m)
    ensures Attainable(c, Next(c, w, m))
  {
    var moves :| PlayableFrom(c, IDLE, moves) && PlayFrom(c, IDLE, moves) == w;
    PlaySnoc(c, IDLE, moves, m);
  }
}
