/** The database as the system's transactions see it: the jobs, job_events and
    job_idempotency tables together with the clock, the UUIDs handed out so far and the
    trail of every row change made. A run is any sequence of steps; batch transactions
    are sequences of these steps at one clock value (module Batches). */
module Ledger {
  import opened Lifecycle

  datatype Db = Db(rows: map<Uuid, Row>, events: seq<Event>, keys: map<string, Uuid>)

  /** `minted` and `trail` are history: no transaction reads them. */
  datatype State = State(db: Db, clock: Time, minted: set<Uuid>, trail: seq<Change>)

  /** `next` is the cron library: the first fire time after a time, or an error. */
  datatype Config = Config(next: (string, string, Time) -> Option<Time>, staleAfter: Time)

  function Find(rows: map<Uuid, Row>, id: Uuid): Option<Row> {
    if id in rows then Some(rows[id]) else None
  }

  // ---------- one row change on the tables ----------

  predicate HasKey(r: Row) {
    r.key.Some? && r.key.value != ""
  }

  /** Does the database make this change now? An insert also needs its key unused. */
  predicate Applies(db: Db, id: Uuid, act: Act, at: Time) {
    && Guard(Find(db.rows, id), act, at)
    && (act.Create? && HasKey(act.row) ==> act.row.key.value !in db.keys)
  }

  function PutRow(rows: map<Uuid, Row>, id: Uuid, r: Option<Row>): map<Uuid, Row> {
    if r.Some? then rows[id := r.value] else rows - {id}
  }

  function KeysAfter(keys: map<string, Uuid>, id: Uuid, act: Act): map<string, Uuid> {
    match act
    case Create(row) => if HasKey(row) then keys[row.key.value := id] else keys
    case Purge(_) => map k | k in keys && keys[k] != id :: keys[k]
    case _ => keys
  }

  function Touch(db: Db, id: Uuid, act: Act, at: Time): Db {
    var before := Find(db.rows, id);
    if !Applies(db, id, act, at) then db
    else Db(PutRow(db.rows, id, Effect(before, act, at)),
            db.events + EventsFor(id, before, act, at),
            KeysAfter(db.keys, id, act))
  }

  /** `Touch` with the change noted on the trail. */
  function Record(s: State, id: Uuid, act: Act): State {
    var before := Find(s.db.rows, id);
    if !Applies(s.db, id, act, s.clock) then s
    else s.(db := Touch(s.db, id, act, s.clock),
            trail := s.trail + [Change(id, act, s.clock, before, Effect(before, act, s.clock))])
  }

  // ---------- steps ----------

  /** `Fire` promotes a due scheduled job and, for a series member, inserts its follow-up
      (as row `child`) in the same transaction. */
  datatype Step =
    | Advance(to_: Time)
    | Do(id: Uuid, act: Act)
    | Fire(id: Uuid, now: Time, child: Uuid)

  /** What the callers guarantee: fresh UUIDs, timestamps taken from the clock in the past. */
  predicate Enabled(c: Config, s: State, step: Step) {
    match step
    case Advance(t) => s.clock <= t
    case Fire(_, now, child) => now <= s.clock && child !in s.minted
    case Do(id, act) =>
      match act
      case Create(row) =>
        && id !in s.minted && NewRow(row, s.clock)
        && (row.series.Some? ==> row.series.value !in s.minted && row.series.value != id)
      case Claim(_, token) => token !in s.minted
      case Promote(_) => false
      case Mature(now) => now <= s.clock
      case Reclaim(cutoff) => cutoff <= s.clock - c.staleAfter
      case _ => true
  }

  function MintedBy(id: Uuid, act: Act): set<Uuid> {
    match act
    case Create(row) => if row.series.Some? then {id, row.series.value} else {id}
    case Claim(_, token) => {token}
    case _ => {}
  }

  predicate HasFollowup(r: Row) {
    r.recurring && r.cron.Some? && r.cron.value != "" && r.series.Some?
  }

  function SeriesZone(r: Row): string {
    if r.tz == "" then "UTC" else r.tz
  }

  function FollowupRow(parent: Row, next: Time, now: Time): Row {
    Row(Scheduled, parent.kind, parent.payload, parent.queue, parent.priority, 0, parent.maxRetry,
        None, None, None, parent.owner, parent.cron, SeriesZone(parent), parent.series, true,
        Some(next), None, now, None, None, None, None)
  }

  /** The follow-up of a row just promoted, if its series has one. */
  function Followup(c: Config, parent: Row, now: Time): Option<Row> {
    if !HasFollowup(parent) then None
    else
      match c.next(parent.cron.value, SeriesZone(parent), now)
      case None => None
      case Some(t) => Some(FollowupRow(parent, t, now))
  }

  function FireStep(c: Config, s: State, id: Uuid, now: Time, child: Uuid): State {
    var s1 := s.(minted := s.minted + {child});
    if !Applies(s.db, id, Promote(now), s.clock) then s1
    else
      var s2 := Record(s1, id, Promote(now));
      match Followup(c, s2.db.rows[id], now)
      case None => s2
      case Some(row) => Record(s2, child, Create(row))
  }

  /** The tables after firing: the promotion and, where there is one, the follow-up. */
  function FireDb(c: Config, db: Db, id: Uuid, now: Time, child: Uuid, at: Time): Db {
    if !Applies(db, id, Promote(now), at) then db
    else
      var promoted := Touch(db, id, Promote(now), at);
      match Followup(c, promoted.rows[id], now)
      case None => promoted
      case Some(row) => Touch(promoted, child, Create(row), at)
  }

  function Apply(c: Config, s: State, step: Step): State {
    match step
    case Advance(t) => s.(clock := t)
    case Do(id, act) => Record(s.(minted := s.minted + MintedBy(id, act)), id, act)
    case Fire(id, now, child) => FireStep(c, s, id, now, child)
  }

  /** The change a step makes to row j, if any. */
  function ActOn(c: Config, s: State, step: Step, j: Uuid): Option<Act> {
    match step
    case Advance(_) => None
    case Do(id, act) => if id == j && Applies(s.db, id, act, s.clock) then Some(act) else None
    case Fire(id, now, child) =>
      if !Applies(s.db, id, Promote(now), s.clock) then None
      else if j == id then Some(Promote(now))
      else if j != child then None
      else
        var f := Followup(c, Effect(Find(s.db.rows, id), Promote(now), s.clock).value, now);
        if f.Some? && Applies(s.db, child, Create(f.value), s.clock) then Some(Create(f.value)) else None
  }

  /** Each step makes at most one change to a row. */
  lemma StepOnRow(c: Config, s: State, step: Step, j: Uuid)
    ensures var a, before := ActOn(c, s, step, j), Find(s.db.rows, j);
            && (a.Some? ==> Guard(before, a.value, s.clock))
            && Find(Apply(c, s, step).db.rows, j) == if a.Some? then Effect(before, a.value, s.clock) else before
    ensures s.minted <= Apply(c, s, step).minted
    ensures Apply(c, s, step).clock == if step.Advance? then step.to_ else s.clock
  {
  }

  predicate ValidFrom(c: Config, s: State, steps: seq<Step>)
    decreases |steps|
  {
    steps == [] || (Enabled(c, s, steps[0]) && ValidFrom(c, Apply(c, s, steps[0]), steps[1..]))
  }

  function RunFrom(c: Config, s: State, steps: seq<Step>): State
    decreases |steps|
  {
    if steps == [] then s else RunFrom(c, Apply(c, s, steps[0]), steps[1..])
  }

  lemma RunCons(c: Config, s: State, step: Step, rest: seq<Step>)
    requires Enabled(c, s, step) && ValidFrom(c, Apply(c, s, step), rest)
    ensures ValidFrom(c, s, [step] + rest) && RunFrom(c, s, [step] + rest) == RunFrom(c, Apply(c, s, step), rest)
  {
    assert ([step] + rest)[1..] == rest;
  }

  const EMPTY := State(Db(map[], [], map[]), 0, {}, [])

  ghost predicate Reachable(c: Config, s: State) {
    exists steps :: ValidFrom(c, EMPTY, steps) && RunFrom(c, EMPTY, steps) == s
  }

  // ---------- the trail of one job ----------

  function Life(trail: seq<Change>, id: Uuid): seq<Change> {
    if trail == [] then []
    else
      var c := trail[|trail| - 1];
      Life(trail[..|trail| - 1], id) + if c.id == id then [c] else []
  }

  function EventsOf(events: seq<Event>, id: Uuid): seq<Event> {
    if events == [] then []
    else
      var e := events[|events| - 1];
      EventsOf(events[..|events| - 1], id) + if e.id == id then [e] else []
  }

  lemma LifeSnoc(trail: seq<Change>, c: Change, id: Uuid)
    ensures Life(trail + [c], id) == if c.id == id then Life(trail, id) + [c] else Life(trail, id)
  {
    assert (trail + [c])[..|trail|] == trail;
  }

  lemma EventsSnoc(events: seq<Event>, e: seq<Event>, of: Uuid, id: Uuid)
    requires |e| <= 1 && forall x | x in e :: x.id == of
    ensures EventsOf(events + e, id) == if of == id then EventsOf(events, id) + e else EventsOf(events, id)
  {
    if e == [] { assert events + e == events; } else { assert (events + e)[..|events|] == events; }
  }

  // ---------- the invariant ----------

  /** The job's part of the trail is a life that ends in the job's present row, and its
      audit log is the log of that life. */
  ghost predicate JobSound(s: State, id: Uuid) {
    var l := Life(s.trail, id);
    && IsLife(l) && Final(l) == Find(s.db.rows, id)
    && (l != [] ==> l[|l| - 1].at <= s.clock && id in s.minted)
    && Issued(l) <= s.minted
    && EventsOf(s.db.events, id) == Log(l)
  }

  /** job_idempotency maps key k to job j exactly when row j exists and carries k. */
  ghost predicate KeysAgree(db: Db) {
    && (forall k | k in db.keys :: k != "" && db.keys[k] in db.rows && db.rows[db.keys[k]].key == Some(k))
    && (forall id | id in db.rows && HasKey(db.rows[id]) ::
          db.rows[id].key.value in db.keys && db.keys[db.rows[id].key.value] == id)
  }

  ghost predicate TokensDisjoint(s: State) {
    forall a, b | a != b :: Issued(Life(s.trail, a)) !! Issued(Life(s.trail, b))
  }

  ghost predicate Sound(s: State) {
    (forall id :: JobSound(s, id)) && KeysAgree(s.db) && TokensDisjoint(s)
  }

  lemma TouchKeepsKeys(db: Db, id: Uuid, act: Act, at: Time)
    requires KeysAgree(db)
    ensures KeysAgree(Touch(db, id, act, at))
  {
    if Applies(db, id, act, at) && !act.Create? && !act.Purge? {
      var row := Effect(Find(db.rows, id), act, at).value;
      EffectKeepsKey(db.rows[id], act, at);
      RowKeepsKeys(db, id, row, db.events + EventsFor(id, Find(db.rows, id), act, at));
    }
  }

  lemma EffectKeepsKey(r: Row, act: Act, at: Time)
    requires Guard(Some(r), act, at) && !act.Purge?
    ensures Effect(Some(r), act, at).Some? && Effect(Some(r), act, at).value.key == r.key
  {
  }

  lemma RowKeepsKeys(db: Db, id: Uuid, row: Row, events: seq<Event>)
    requires KeysAgree(db) && id in db.rows && row.key == db.rows[id].key
    ensures KeysAgree(Db(db.rows[id := row], events, db.keys))
  {
  }

  lemma RecordKeepsOtherJob(s: State, id: Uuid, act: Act, j: Uuid)
    requires JobSound(s, j) && j != id
    ensures var s' := Record(s, id, act);
            JobSound(s', j) && Life(s'.trail, j) == Life(s.trail, j)
  {
    if Applies(s.db, id, act, s.clock) {
      var before := Find(s.db.rows, id);
      LifeSnoc(s.trail, Change(id, act, s.clock, before, Effect(before, act, s.clock)), j);
      EventsSnoc(s.db.events, EventsFor(id, before, act, s.clock), id, j);
    }
  }

  lemma RecordKeepsJob(s: State, id: Uuid, act: Act)
    requires JobSound(s, id)
    requires act.Create? ==> Life(s.trail, id) == [] && id in s.minted
    requires act.Claim? ==> act.token in s.minted && act.token !in Issued(Life(s.trail, id))
    ensures var s' := Record(s, id, act);
            && JobSound(s', id)
            && Issued(Life(s'.trail, id)) <= Issued(Life(s.trail, id)) + if act.Claim? then {act.token} else {}
  {
    if Applies(s.db, id, act, s.clock) {
      var before := Find(s.db.rows, id);
      var c := Change(id, act, s.clock, before, Effect(before, act, s.clock));
      var s' := Record(s, id, act);
      RecordView(s, id, act);
      assert Life(s'.trail, id) == Life(s.trail, id) + [c] by { LifeSnoc(s.trail, c, id); }
      assert EventsOf(s'.db.events, id) == EventsOf(s.db.events, id) + EventsFor(id, before, act, s.clock) by {
        EventsSnoc(s.db.events, EventsFor(id, before, act, s.clock), id, id);
      }
      LifeExtend(Life(s.trail, id), c);
      JobStaysSound(s, s', id, c);
    }
  }

  lemma JobStaysSound(s: State, s': State, id: Uuid, c: Change)
    requires JobSound(s, id) && s'.clock == s.clock && s'.minted == s.minted && c.id == id && c.at == s.clock
    requires Fits(c) && Life(s'.trail, id) == Life(s.trail, id) + [c] && IsLife(Life(s'.trail, id))
    requires Final(Life(s'.trail, id)) == Find(s'.db.rows, id)
    requires Life(s.trail, id) == [] ==> id in s.minted
    requires Issued(Life(s'.trail, id)) == Issued(Life(s.trail, id)) + (if c.act.Claim? then {c.act.token} else {})
    requires c.act.Claim? ==> c.act.token in s.minted
    requires EventsOf(s'.db.events, id) == Log(Life(s'.trail, id))
    ensures JobSound(s', id)
  {
  }

  lemma RecordView(s: State, id: Uuid, act: Act)
    requires Applies(s.db, id, act, s.clock)
    ensures var s', before := Record(s, id, act), Find(s.db.rows, id);
            && s'.trail == s.trail + [Change(id, act, s.clock, before, Effect(before, act, s.clock))]
            && s'.db.events == s.db.events + EventsFor(id, before, act, s.clock)
            && Find(s'.db.rows, id) == Effect(before, act, s.clock) && s'.clock == s.clock && s'.minted == s.minted
  {
  }

  lemma RecordKeepsTokens(s: State, s': State, id: Uuid, issued: set<Uuid>)
    requires TokensDisjoint(s)
    requires forall j | j != id :: Life(s'.trail, j) == Life(s.trail, j)
    requires Issued(Life(s'.trail, id)) <= Issued(Life(s.trail, id)) + issued
    requires forall j :: issued !! Issued(Life(s.trail, j))
    ensures TokensDisjoint(s')
  {
    forall a, b | a != b
      ensures Issued(Life(s'.trail, a)) !! Issued(Life(s'.trail, b))
    {
      assert Issued(Life(s.trail, a)) !! Issued(Life(s.trail, b));
      assert issued !! Issued(Life(s.trail, a)) && issued !! Issued(Life(s.trail, b));
    }
  }

  lemma RecordKeepsSound(s: State, id: Uuid, act: Act)
    requires Sound(s)
    requires act.Create? ==> Life(s.trail, id) == [] && id in s.minted
    requires act.Claim? ==> act.token in s.minted && forall j :: act.token !in Issued(Life(s.trail, j))
    ensures Sound(Record(s, id, act))
  {
    var s' := Record(s, id, act);
    assert JobSound(s, id);
    TouchKeepsKeys(s.db, id, act, s.clock);
    RecordKeepsJob(s, id, act);
    forall j | j != id
      ensures JobSound(s', j) && Life(s'.trail, j) == Life(s.trail, j)
    {
      assert JobSound(s, j);
      RecordKeepsOtherJob(s, id, act, j);
    }
    RecordKeepsTokens(s, s', id, if act.Claim? then {act.token} else {});
  }

  lemma MintKeepsSound(s: State, more: set<Uuid>)
    requires Sound(s)
    ensures Sound(s.(minted := s.minted + more))
  {
    forall id ensures JobSound(s.(minted := s.minted + more), id) {
      assert JobSound(s, id);
    }
  }

  lemma UnmintedIsUnused(s: State, id: Uuid)
    requires Sound(s) && id !in s.minted
    ensures Life(s.trail, id) == [] && forall j :: id !in Issued(Life(s.trail, j))
  {
    assert JobSound(s, id);
    forall j ensures id !in Issued(Life(s.trail, j)) { assert JobSound(s, j); }
  }

  lemma RowsAreShaped(s: State, id: Uuid)
    requires Sound(s) && id in s.db.rows
    ensures Shape(s.db.rows[id], s.clock) && id in s.minted
  {
    assert JobSound(s, id);
    ShapeHolds(Life(s.trail, id));
  }

  lemma FireKeepsSound(c: Config, s: State, id: Uuid, now: Time, child: Uuid)
    requires Sound(s) && now <= s.clock && child !in s.minted
    ensures Sound(FireStep(c, s, id, now, child))
  {
    var s1 := s.(minted := s.minted + {child});
    MintKeepsSound(s, {child});
    UnmintedIsUnused(s, child);
    if Applies(s.db, id, Promote(now), s.clock) {
      RowsAreShaped(s, id);
      RecordKeepsSound(s1, id, Promote(now));
      var s2 := Record(s1, id, Promote(now));
      var f := Followup(c, s2.db.rows[id], now);
      if f.Some? {
        assert JobSound(s1, child);
        RecordKeepsOtherJob(s1, id, Promote(now), child);
        RecordKeepsSound(s2, child, Create(f.value));
      }
    }
  }

  lemma StepKeepsSound(c: Config, s: State, step: Step)
    requires Sound(s) && Enabled(c, s, step)
    ensures Sound(Apply(c, s, step))
  {
    match step
    case Advance(t) =>
      forall id ensures JobSound(s.(clock := t), id) { assert JobSound(s, id); }
    case Fire(id, now, child) => FireKeepsSound(c, s, id, now, child);
    case Do(id, act) =>
      MintKeepsSound(s, MintedBy(id, act));
      if act.Create? { UnmintedIsUnused(s, id); }
      if act.Claim? { UnmintedIsUnused(s, act.token); }
      RecordKeepsSound(s.(minted := s.minted + MintedBy(id, act)), id, act);
  }

  lemma {:induction false} RunKeepsSound(c: Config, s: State, steps: seq<Step>)
    requires Sound(s) && ValidFrom(c, s, steps)
    ensures Sound(RunFrom(c, s, steps))
    decreases |steps|
  {
    if steps != [] {
      StepKeepsSound(c, s, steps[0]);
      RunKeepsSound(c, Apply(c, s, steps[0]), steps[1..]);
    }
  }

  lemma ReachableIsSound(c: Config, s: State)
    requires Reachable(c, s)
    ensures Sound(s)
  {
    var steps :| ValidFrom(c, EMPTY, steps) && RunFrom(c, EMPTY, steps) == s;
    assert Sound(EMPTY) by {
      forall id ensures JobSound(EMPTY, id) { assert Life([], id) == [] && EventsOf([], id) == []; }
    }
    RunKeepsSound(c, EMPTY, steps);
  }
}
