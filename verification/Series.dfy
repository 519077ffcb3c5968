/** Recurring series: each promoted member leaves exactly one successor behind, so a live
    series has exactly one scheduled member until that member is cancelled. */
module Series {
  import opened Lifecycle
  import opened Ledger
  import G = Guarantees

  // ---------- counting over the trail ----------

  predicate InSeries(r: Option<Row>, sid: Uuid) {
    r.Some? && r.value.series == Some(sid)
  }

  function IsBirth(sid: Uuid): Change -> bool {
    (c: Change) => c.act.Create? && c.act.row.series == Some(sid)
  }

  function IsPromotion(sid: Uuid): Change -> bool {
    (c: Change) => c.act.Promote? && InSeries(c.before, sid)
  }

  predicate WaitingMember(r: Option<Row>, sid: Uuid) {
    InSeries(r, sid) && r.value.status == Scheduled
  }

  function IsDrop(sid: Uuid): Change -> bool {
    (c: Change) => c.act.Cancel? && WaitingMember(c.before, sid)
  }

  function IsEarlyClaim(sid: Uuid): Change -> bool {
    (c: Change) => c.act.Claim? && WaitingMember(c.before, sid)
  }

  predicate Promoted(x: Change, sid: Uuid) {
    x.act.Promote? && InSeries(x.before, sid) && x.after.Some?
  }

  /** A promotion that leaves no successor: the next fire time is an error. */
  predicate EndsSeries(c: Config, x: Change, sid: Uuid) {
    Promoted(x, sid) && Followup(c, x.after.value, x.act.now) == None
  }

  /** A promotion whose successor is due no later than the promoted member was. */
  predicate StepsBack(c: Config, x: Change, sid: Uuid) {
    && Promoted(x, sid) && Followup(c, x.after.value, x.act.now).Some? && x.before.value.scheduledAt.Some?
    && Followup(c, x.after.value, x.act.now).value.scheduledAt.value <= x.before.value.scheduledAt.value
  }

  function IsEnd(c: Config, sid: Uuid): Change -> bool {
    (x: Change) => EndsSeries(c, x, sid)
  }

  function IsBackstep(c: Config, sid: Uuid): Change -> bool {
    (x: Change) => StepsBack(c, x, sid)
  }

  function Births(s: State, sid: Uuid): nat { Count(s.trail, IsBirth(sid)) }
  function Promotions(s: State, sid: Uuid): nat { Count(s.trail, IsPromotion(sid)) }
  function Dropped(s: State, sid: Uuid): nat { Count(s.trail, IsDrop(sid)) }
  function ClaimedWhileScheduled(s: State, sid: Uuid): nat { Count(s.trail, IsEarlyClaim(sid)) }

  function Ended(c: Config, s: State, sid: Uuid): nat { Count(s.trail, IsEnd(c, sid)) }
  function Backsteps(c: Config, s: State, sid: Uuid): nat { Count(s.trail, IsBackstep(c, sid)) }

  /** The members now scheduled. */
  function Waiting(rows: map<Uuid, Row>, sid: Uuid): set<Uuid> {
    set id | id in rows && rows[id].status == Scheduled && rows[id].series == Some(sid)
  }

  /** The fire times of the members, in the order they were created. */
  function FireTimes(trail: seq<Change>, sid: Uuid): seq<Time> {
    if trail == [] then []
    else
      var c := trail[|trail| - 1];
      FireTimes(trail[..|trail| - 1], sid) +
      if IsBirth(sid)(c) && c.act.row.scheduledAt.Some? then [c.act.row.scheduledAt.value] else []
  }

  predicate Increasing(t: seq<Time>) {
    forall i, j | 0 <= i < j < |t| :: t[i] < t[j]
  }

  // ---------- the law ----------

  ghost predicate Law(c: Config, s: State, sid: Uuid) {
    var begun := if Births(s, sid) > 0 then 1 else 0;
    && (Births(s, sid) > 0 ==> sid in s.minted)
    && |Waiting(s.db.rows, sid)| + Dropped(s, sid) + ClaimedWhileScheduled(s, sid) + Ended(c, s, sid) == begun
    && Births(s, sid) + Ended(c, s, sid) == Promotions(s, sid) + begun
    && |FireTimes(s.trail, sid)| == Births(s, sid)
    && (Increasing(FireTimes(s.trail, sid)) <==> Backsteps(c, s, sid) == 0)
    && (forall id | id in Waiting(s.db.rows, sid) ::
          Births(s, sid) > 0 && s.db.rows[id].scheduledAt == Some(FireTimes(s.trail, sid)[Births(s, sid) - 1]))
  }

  lemma CountSnoc(trail: seq<Change>, x: Change, p: Change -> bool)
    ensures Count(trail + [x], p) == Count(trail, p) + if p(x) then 1 else 0
  {
    assert (trail + [x])[..|trail|] == trail;
  }

  /** What one change does to every count of the series. */
  lemma CountsAfter(c: Config, s: State, id: Uuid, act: Act, sid: Uuid)
    requires Applies(s.db, id, act, s.clock)
    ensures var s', r := Record(s, id, act), Find(s.db.rows, id);
            var x := Change(id, act, s.clock, r, Effect(r, act, s.clock));
            && s'.trail == s.trail + [x]
            && Births(s', sid) == Births(s, sid) + (if IsBirth(sid)(x) then 1 else 0)
            && Promotions(s', sid) == Promotions(s, sid) + (if IsPromotion(sid)(x) then 1 else 0)
            && Dropped(s', sid) == Dropped(s, sid) + (if IsDrop(sid)(x) then 1 else 0)
            && ClaimedWhileScheduled(s', sid) ==
               ClaimedWhileScheduled(s, sid) + (if IsEarlyClaim(sid)(x) then 1 else 0)
            && Ended(c, s', sid) == Ended(c, s, sid) + (if IsEnd(c, sid)(x) then 1 else 0)
            && Backsteps(c, s', sid) == Backsteps(c, s, sid) + (if IsBackstep(c, sid)(x) then 1 else 0)
            && FireTimes(s'.trail, sid) ==
               FireTimes(s.trail, sid) +
               (if IsBirth(sid)(x) && x.act.row.scheduledAt.Some? then [x.act.row.scheduledAt.value] else [])
  {
    var before := Find(s.db.rows, id);
    var x := Change(id, act, s.clock, before, Effect(before, act, s.clock));
    CountSnoc(s.trail, x, IsBirth(sid));
    CountSnoc(s.trail, x, IsPromotion(sid));
    CountSnoc(s.trail, x, IsDrop(sid));
    CountSnoc(s.trail, x, IsEarlyClaim(sid));
    CountSnoc(s.trail, x, IsEnd(c, sid));
    CountSnoc(s.trail, x, IsBackstep(c, sid));
    assert (s.trail + [x])[..|s.trail|] == s.trail;
  }

  /** Where a change leaves a row, scheduled or not, is where the waiting set differs. */
  lemma WaitingAfter(s: State, id: Uuid, act: Act, sid: Uuid)
    requires Applies(s.db, id, act, s.clock)
    ensures var was := id in Waiting(s.db.rows, sid);
            var w, w' := Waiting(s.db.rows, sid), Waiting(Record(s, id, act).db.rows, sid);
            && (act.Create? && act.row.series == Some(sid) && act.row.status == Scheduled ==> !was && w' == w + {id})
            && (was && !act.Create? ==> (act.Promote? || act.Cancel? || act.Claim?) && w' == w - {id})
            && (!was && !(act.Create? && act.row.series == Some(sid) && act.row.status == Scheduled) ==> w' == w)
  {
  }

  /** A change that neither inserts a member nor promotes one. */
  lemma ChangeKeepsLaw(c: Config, s: State, id: Uuid, act: Act, sid: Uuid)
    requires Law(c, s, sid)
    requires !(act.Promote? && InSeries(Find(s.db.rows, id), sid)) && !(act.Create? && act.row.series == Some(sid))
    ensures Law(c, Record(s, id, act), sid)
  {
    if Applies(s.db, id, act, s.clock) {
      OtherCounts(c, s, id, act, sid);
      OtherWaiting(s, id, act, sid);
    }
  }

  lemma OtherCounts(c: Config, s: State, id: Uuid, act: Act, sid: Uuid)
    requires Applies(s.db, id, act, s.clock)
    requires !(act.Promote? && InSeries(Find(s.db.rows, id), sid)) && !(act.Create? && act.row.series == Some(sid))
    ensures var s' := Record(s, id, act);
            && Births(s', sid) == Births(s, sid) && Promotions(s', sid) == Promotions(s, sid)
            && Ended(c, s', sid) == Ended(c, s, sid) && Backsteps(c, s', sid) == Backsteps(c, s, sid)
            && FireTimes(s'.trail, sid) == FireTimes(s.trail, sid)
            && Dropped(s', sid) + ClaimedWhileScheduled(s', sid) ==
               Dropped(s, sid) + ClaimedWhileScheduled(s, sid) + if id in Waiting(s.db.rows, sid) then 1 else 0
  {
    CountsAfter(c, s, id, act, sid);
    WaitingAfter(s, id, act, sid);
    assert FireTimes(Record(s, id, act).trail, sid) == FireTimes(s.trail, sid);
  }

  lemma OtherWaiting(s: State, id: Uuid, act: Act, sid: Uuid)
    requires Applies(s.db, id, act, s.clock)
    requires !(act.Promote? && InSeries(Find(s.db.rows, id), sid)) && !(act.Create? && act.row.series == Some(sid))
    ensures var s', w := Record(s, id, act), Waiting(s.db.rows, sid);
            && Waiting(s'.db.rows, sid) == w - {id} && |w - {id}| == |w| - (if id in w then 1 else 0)
            && s'.minted == s.minted && forall j | j in w - {id} :: s'.db.rows[j] == s.db.rows[j]
  {
    WaitingAfter(s, id, act, sid);
    var w := Waiting(s.db.rows, sid);
    if id in w { assert |w - {id}| == |w| - 1; } else { assert w - {id} == w; }
  }

  /** The first member of a series, under a fresh series id. */
  lemma HeadKeepsLaw(c: Config, s: State, id: Uuid, row: Row, sid: Uuid)
    requires Law(c, s, sid) && row.series == Some(sid) && sid in s.minted && Births(s, sid) == 0
    ensures Law(c, Record(s, id, Create(row)), sid)
  {
    var s' := Record(s, id, Create(row));
    if Applies(s.db, id, Create(row), s.clock) {
      CountsAfter(c, s, id, Create(row), sid);
      WaitingAfter(s, id, Create(row), sid);
      assert Waiting(s.db.rows, sid) == {} && FireTimes(s.trail, sid) == [];
      assert Waiting(s'.db.rows, sid) == {id};
      assert FireTimes(s'.trail, sid) == [row.scheduledAt.value];
    }
  }

  lemma IncreasingSnoc(times: seq<Time>, t: Time)
    requires times != []
    ensures Increasing(times + [t]) <==> Increasing(times) && times[|times| - 1] < t
  {
    var more := times + [t];
    if Increasing(more) {
      forall i, j | 0 <= i < j < |times| ensures times[i] < times[j] { assert more[i] < more[j]; }
      assert more[|times| - 1] < more[|times|];
    }
  }

  /** A waiting member handing over to its successor keeps the law; fire times go on
      increasing exactly if the successor is due later. */
  lemma HandoverKeepsLaw(c: Config, s: State, s': State, sid: Uuid, parent: Uuid, child: Uuid, t: Time)
    requires Law(c, s, sid) && parent in Waiting(s.db.rows, sid) && child !in Waiting(s.db.rows, sid)
    requires Waiting(s'.db.rows, sid) == Waiting(s.db.rows, sid) - {parent} + {child}
    requires Births(s', sid) == Births(s, sid) + 1 && Promotions(s', sid) == Promotions(s, sid) + 1
    requires Dropped(s', sid) == Dropped(s, sid) && ClaimedWhileScheduled(s', sid) == ClaimedWhileScheduled(s, sid)
    requires Ended(c, s', sid) == Ended(c, s, sid)
    requires s.db.rows[parent].scheduledAt.Some?
    requires Backsteps(c, s', sid) == Backsteps(c, s, sid) + if t <= s.db.rows[parent].scheduledAt.value then 1 else 0
    requires FireTimes(s'.trail, sid) == FireTimes(s.trail, sid) + [t] && s.minted <= s'.minted
    requires child in s'.db.rows && s'.db.rows[child].scheduledAt == Some(t)
    ensures Law(c, s', sid)
  {
    var w := Waiting(s.db.rows, sid);
    assert |w| == 1 && Waiting(s'.db.rows, sid) == {child} by {
      assert |w - {parent}| == |w| - 1;
      assert w - {parent} == {};
    }
    IncreasingSnoc(FireTimes(s.trail, sid), t);
  }

  /** A promotion without a successor ends the series. */
  lemma EndKeepsLaw(c: Config, s: State, id: Uuid, now: Time, sid: Uuid)
    requires Law(c, s, sid) && Applies(s.db, id, Promote(now), s.clock) && s.db.rows[id].series == Some(sid)
    requires Followup(c, s.db.rows[id].(status := Pending), now) == None
    ensures Law(c, Record(s, id, Promote(now)), sid)
  {
    CountsAfter(c, s, id, Promote(now), sid);
    WaitingAfter(s, id, Promote(now), sid);
    assert FireTimes(Record(s, id, Promote(now)).trail, sid) == FireTimes(s.trail, sid);
    var w := Waiting(s.db.rows, sid);
    assert |w - {id}| == |w| - 1;
  }

  lemma MemberPromoted(c: Config, s: State, id: Uuid, now: Time, f: Row, sid: Uuid)
    requires Applies(s.db, id, Promote(now), s.clock) && s.db.rows[id].series == Some(sid)
    requires Followup(c, s.db.rows[id].(status := Pending), now) == Some(f)
    ensures var s', back := Record(s, id, Promote(now)), f.scheduledAt.value <= s.db.rows[id].scheduledAt.value;
            && id in Waiting(s.db.rows, sid) && Waiting(s'.db.rows, sid) == Waiting(s.db.rows, sid) - {id}
            && Births(s', sid) == Births(s, sid) && Promotions(s', sid) == Promotions(s, sid) + 1
            && Dropped(s', sid) == Dropped(s, sid) && ClaimedWhileScheduled(s', sid) == ClaimedWhileScheduled(s, sid)
            && Ended(c, s', sid) == Ended(c, s, sid) && FireTimes(s'.trail, sid) == FireTimes(s.trail, sid)
            && Backsteps(c, s', sid) == Backsteps(c, s, sid) + if back then 1 else 0
  {
    CountsAfter(c, s, id, Promote(now), sid);
    WaitingAfter(s, id, Promote(now), sid);
    assert FireTimes(Record(s, id, Promote(now)).trail, sid) == FireTimes(s.trail, sid);
  }

  lemma MemberCreated(c: Config, s: State, child: Uuid, f: Row, sid: Uuid)
    requires Applies(s.db, child, Create(f), s.clock) && f.series == Some(sid)
    requires f.status == Scheduled && f.scheduledAt.Some?
    ensures var s' := Record(s, child, Create(f));
            && child !in Waiting(s.db.rows, sid) && Waiting(s'.db.rows, sid) == Waiting(s.db.rows, sid) + {child}
            && Births(s', sid) == Births(s, sid) + 1 && Promotions(s', sid) == Promotions(s, sid)
            && Dropped(s', sid) == Dropped(s, sid) && ClaimedWhileScheduled(s', sid) == ClaimedWhileScheduled(s, sid)
            && Ended(c, s', sid) == Ended(c, s, sid) && Backsteps(c, s', sid) == Backsteps(c, s, sid)
            && FireTimes(s'.trail, sid) == FireTimes(s.trail, sid) + [f.scheduledAt.value]
            && child in s'.db.rows && s'.db.rows[child] == f && s'.minted == s.minted
  {
    CountsAfter(c, s, child, Create(f), sid);
    WaitingAfter(s, child, Create(f), sid);
  }

  /** A promotion with its successor. */
  lemma MemberFireKeepsLaw(c: Config, s: State, id: Uuid, now: Time, child: Uuid, f: Row, sid: Uuid)
    requires Law(c, s, sid) && Applies(s.db, id, Promote(now), s.clock) && s.db.rows[id].series == Some(sid)
    requires Followup(c, s.db.rows[id].(status := Pending), now) == Some(f) && child !in s.db.rows && child != id
    requires Applies(Record(s, id, Promote(now)).db, child, Create(f), s.clock)
    ensures Law(c, Record(Record(s, id, Promote(now)), child, Create(f)), sid)
  {
    var s2 := Record(s, id, Promote(now));
    MemberPromoted(c, s, id, now, f, sid);
    MemberCreated(c, s2, child, f, sid);
    HandoverKeepsLaw(c, s, Record(s2, child, Create(f)), sid, id, child, f.scheduledAt.value);
  }

  lemma FireKeepsLaw(c: Config, s: State, id: Uuid, now: Time, child: Uuid, sid: Uuid)
    requires Law(c, s, sid) && Sound(s) && now <= s.clock && child !in s.minted
    ensures Law(c, FireStep(c, s, id, now, child), sid)
  {
    var s1 := s.(minted := s.minted + {child});
    MintKeepsLaw(c, s, {child}, sid);
    if Applies(s.db, id, Promote(now), s.clock) {
      assert child !in s.db.rows by { if child in s.db.rows { RowsAreShaped(s, child); } }
      assert Shape(s.db.rows[id], s.clock) by { RowsAreShaped(s, id); }
      var s2 := Record(s1, id, Promote(now));
      var f := Followup(c, s2.db.rows[id], now);
      if s.db.rows[id].series != Some(sid) {
        ChangeKeepsLaw(c, s1, id, Promote(now), sid);
        if f.Some? { ChangeKeepsLaw(c, s2, child, Create(f.value), sid); }
      } else if f.Some? {
        MemberFireKeepsLaw(c, s1, id, now, child, f.value, sid);
      } else {
        EndKeepsLaw(c, s1, id, now, sid);
      }
    }
  }

  lemma StepKeepsLaw(c: Config, s: State, step: Step, sid: Uuid)
    requires Law(c, s, sid) && Sound(s) && Enabled(c, s, step)
    ensures Law(c, Apply(c, s, step), sid)
  {
    match step
    case Advance(_) =>
    case Fire(id, now, child) => FireKeepsLaw(c, s, id, now, child, sid);
    case Do(id, act) => DoKeepsLaw(c, s, id, act, sid);
  }

  lemma MintKeepsLaw(c: Config, s: State, more: set<Uuid>, sid: Uuid)
    requires Law(c, s, sid)
    ensures Law(c, s.(minted := s.minted + more), sid)
  {
  }

  lemma DoKeepsLaw(c: Config, s: State, id: Uuid, act: Act, sid: Uuid)
    requires Law(c, s, sid) && Enabled(c, s, Do(id, act))
    ensures Law(c, Apply(c, s, Do(id, act)), sid)
  {
    var s1 := s.(minted := s.minted + MintedBy(id, act));
    MintKeepsLaw(c, s, MintedBy(id, act), sid);
    if act.Create? && act.row.series == Some(sid) {
      assert sid !in s.minted && sid in s1.minted && Births(s1, sid) == Births(s, sid) == 0;
      HeadKeepsLaw(c, s1, id, act.row, sid);
    } else {
      assert !act.Promote?;
      ChangeKeepsLaw(c, s1, id, act, sid);
    }
  }

  lemma {:induction false} RunKeepsLaw(c: Config, s: State, steps: seq<Step>, sid: Uuid)
    requires Law(c, s, sid) && Sound(s) && ValidFrom(c, s, steps)
    ensures Law(c, RunFrom(c, s, steps), sid)
    decreases |steps|
  {
    if steps != [] {
      StepKeepsLaw(c, s, steps[0], sid);
      StepKeepsSound(c, s, steps[0]);
      RunKeepsLaw(c, Apply(c, s, steps[0]), steps[1..], sid);
    }
  }

  lemma ReachableKeepsLaw(c: Config, s: State, sid: Uuid)
    requires Reachable(c, s)
    ensures Law(c, s, sid)
  {
    var steps :| ValidFrom(c, EMPTY, steps) && RunFrom(c, EMPTY, steps) == s;
    ReachableIsSound(c, EMPTY) by { assert ValidFrom(c, EMPTY, []) && RunFrom(c, EMPTY, []) == EMPTY; }
    RunKeepsLaw(c, EMPTY, steps, sid);
  }

  /** Series conservation in every reachable state, whatever the schedule: members now
      scheduled, ever cancelled or claimed while scheduled, and promotions that ended the
      series add up to one; every other promotion created exactly one member. */
  lemma SeriesConservation(c: Config, s: State, sid: Uuid)
    requires Reachable(c, s) && Births(s, sid) > 0
    ensures |Waiting(s.db.rows, sid)| + Dropped(s, sid) + ClaimedWhileScheduled(s, sid) + Ended(c, s, sid) == 1
    ensures Births(s, sid) == 1 + Promotions(s, sid) - Ended(c, s, sid)
  {
    ReachableKeepsLaw(c, s, sid);
  }

  /** In every reachable state the fire times of a series strictly increase if and only if no
      promotion in it got a next time at or before the time of the member it promoted. */
  lemma FireTimesIncreaseExactly(c: Config, s: State, sid: Uuid)
    requires Reachable(c, s)
    ensures |FireTimes(s.trail, sid)| == Births(s, sid)
    ensures Increasing(FireTimes(s.trail, sid)) <==> Backsteps(c, s, sid) == 0
  {
    ReachableKeepsLaw(c, s, sid);
  }

  ghost predicate ForwardWhenPromoted(c: Config, x: Change) {
    x.act.Promote? && x.before.Some? && x.before.value.cron.Some? ==>
      var next := c.next(x.before.value.cron.value, SeriesZone(x.before.value), x.act.now);
      next.Some? ==> next.value > x.act.now
  }

  /** A promotion whose next time is later than its own clock reading does not step back: a
      member is promoted only once it is due. */
  lemma ForwardIsNoBackstep(c: Config, x: Change, sid: Uuid)
    requires Fits(x) && ForwardWhenPromoted(c, x)
    ensures !StepsBack(c, x, sid)
  {
  }

  lemma {:induction false} ForwardNeverStepsBack(c: Config, trail: seq<Change>, sid: Uuid)
    requires forall x | x in trail :: Fits(x) && ForwardWhenPromoted(c, x)
    ensures Count(trail, IsBackstep(c, sid)) == 0
  {
    if trail != [] {
      var p, x := trail[..|trail| - 1], trail[|trail| - 1];
      assert forall y | y in p :: y in trail;
      ForwardNeverStepsBack(c, p, sid);
      assert x in trail;
      ForwardIsNoBackstep(c, x, sid);
    }
  }

  lemma TrailFits(c: Config, s: State, x: Change)
    requires Reachable(c, s) && x in s.trail
    ensures Fits(x)
  {
    ReachableIsSound(c, s);
    var i :| 0 <= i < |s.trail| && s.trail[i] == x;
    assert JobSound(s, x.id);
    G.ChangeInLife(s.trail, i);
    LifeAt(Life(s.trail, x.id), G.Position(s.trail, i));
  }

  /** So while every promotion's next time lies in its future, fire times strictly increase. */
  lemma FireTimesIncrease(c: Config, s: State, sid: Uuid)
    requires Reachable(c, s) && forall x | x in s.trail :: ForwardWhenPromoted(c, x)
    ensures Increasing(FireTimes(s.trail, sid))
  {
    forall x | x in s.trail ensures Fits(x) { TrailFits(c, s, x); }
    ForwardNeverStepsBack(c, s.trail, sid);
    FireTimesIncreaseExactly(c, s, sid);
  }

  lemma {:induction false} CountGrows(trail: seq<Change>, k: nat, p: Change -> bool)
    requires k <= |trail|
    ensures Count(trail[..k], p) <= Count(trail, p)
  {
    if k == |trail| {
      assert trail[..k] == trail;
    } else {
      assert trail[..|trail| - 1][..k] == trail[..k];
      CountGrows(trail[..|trail| - 1], k, p);
    }
  }

  lemma {:induction false} TrailGrows(c: Config, s: State, steps: seq<Step>)
    requires ValidFrom(c, s, steps)
    ensures s.trail <= RunFrom(c, s, steps).trail
    decreases |steps|
  {
    if steps != [] {
      TrailGrows(c, Apply(c, s, steps[0]), steps[1..]);
    }
  }

  /** A series with no scheduled member is over: no continuation gives it one again. */
  lemma SeriesEndsForGood(c: Config, s: State, steps: seq<Step>, sid: Uuid)
    requires Reachable(c, s) && ValidFrom(c, s, steps) && Births(s, sid) > 0 && Waiting(s.db.rows, sid) == {}
    ensures Waiting(RunFrom(c, s, steps).db.rows, sid) == {}
  {
    var s' := RunFrom(c, s, steps);
    TrailGrows(c, s, steps);
    ReachableIsSound(c, s);
    ReachableKeepsLaw(c, s, sid);
    RunKeepsLaw(c, s, steps, sid);
    assert s'.trail[..|s.trail|] == s.trail;
    CountGrows(s'.trail, |s.trail|, IsDrop(sid));
    CountGrows(s'.trail, |s.trail|, IsEarlyClaim(sid));
    CountGrows(s'.trail, |s.trail|, IsEnd(c, sid));
  }

  // ---------- what the members of a series have in common ----------

  function ZoneOf(r: Row): string {
    if r.tz == "" then "UTC" else r.tz
  }

  /** The columns every member of a series shares. */
  predicate SameSeries(a: Row, b: Row) {
    && a.kind == b.kind && a.payload == b.payload && a.queue == b.queue && a.priority == b.priority
    && a.maxRetry == b.maxRetry && a.owner == b.owner && a.cron == b.cron && ZoneOf(a) == ZoneOf(b)
    && a.series == b.series && a.recurring == b.recurring
  }

  ghost predicate Alike(s: State, sid: Uuid) {
    forall x, y | x in s.trail && y in s.trail && IsBirth(sid)(x) && IsBirth(sid)(y) :: SameSeries(x.act.row, y.act.row)
  }

  /** A member inserted right after a promotion in its series: without a key, unclaimed,
      created at the promotion's clock reading, due when the series' own expression and zone
      say. */
  predicate Succeeds(c: Config, trail: seq<Change>, i: nat)
    requires i < |trail| && trail[i].act.Create?
  {
    i > 0 && var row, p := trail[i].act.row, trail[i - 1];
    && p.act.Promote? && p.before.Some? && p.before.value.series == row.series
    && row.status == Scheduled && row.key == None && row.attempts == 0 && row.createdAt == p.act.now
    && row.cron.Some? && row.scheduledAt.Some?
    && c.next(row.cron.value, ZoneOf(row), p.act.now) == row.scheduledAt
  }

  /** Every member but a head succeeds a promoted one, and every promoted one whose series has a
      next time is succeeded. */
  ghost predicate Chained(c: Config, trail: seq<Change>, sid: Uuid) {
    && (forall i, j | 0 <= j < i < |trail| && IsBirth(sid)(trail[j]) && IsBirth(sid)(trail[i]) :: Succeeds(c, trail, i))
    && (forall i | 0 <= i < |trail| && IsPromotion(sid)(trail[i]) && HasNext(c, trail[i]) ::
          i + 1 < |trail| && IsBirth(sid)(trail[i + 1]) && Succeeds(c, trail, i + 1))
  }

  predicate HasNext(c: Config, x: Change) {
    x.act.Promote? && x.before.Some? && x.before.value.cron.Some? &&
    c.next(x.before.value.cron.value, ZoneOf(x.before.value), x.act.now).Some?
  }

  lemma {:induction false} NoBirths(trail: seq<Change>, sid: Uuid)
    requires Count(trail, IsBirth(sid)) == 0
    ensures forall x | x in trail :: !IsBirth(sid)(x)
  {
    if trail != [] { NoBirths(trail[..|trail| - 1], sid); }
  }

  /** A stored row has the identity of its insert, which is on the trail. */
  lemma RowWasBorn(s: State, id: Uuid) returns (x: Change)
    requires Sound(s) && id in s.db.rows
    ensures x in s.trail && x.act.Create? && SameIdentity(s.db.rows[id], x.act.row)
  {
    var l := Life(s.trail, id);
    assert JobSound(s, id);
    ShapeHolds(l);
    BornIsFirst(l);
    G.LifeIsPart(s.trail, id);
    x := l[0];
  }

  lemma FollowupIsAlike(s: State, id: Uuid, t: Time, now: Time, sid: Uuid, y: Change)
    requires Sound(s) && Alike(s, sid) && id in s.db.rows && s.db.rows[id].series == Some(sid)
    requires s.db.rows[id].recurring && y in s.trail && IsBirth(sid)(y)
    ensures SameSeries(FollowupRow(s.db.rows[id].(status := Pending), t, now), y.act.row)
  {
    var x := RowWasBorn(s, id);
    assert SameSeries(x.act.row, y.act.row);
  }

  /** The changes a step puts on the trail. */
  function Added(c: Config, s: State, step: Step): seq<Change> {
    match step
    case Advance(_) => []
    case Do(id, act) =>
      var before := Find(s.db.rows, id);
      if Applies(s.db, id, act, s.clock) then [Change(id, act, s.clock, before, Effect(before, act, s.clock))] else []
    case Fire(id, now, child) =>
      var before := Find(s.db.rows, id);
      if !Applies(s.db, id, Promote(now), s.clock) then []
      else
        var promoted := Change(id, Promote(now), s.clock, before, Effect(before, Promote(now), s.clock));
        var f := Followup(c, promoted.after.value, now);
        if f.Some? && NewRow(f.value, s.clock)
        then [promoted, Change(child, Create(f.value), s.clock, None, f)] else [promoted]
  }

  lemma StepAdds(c: Config, s: State, step: Step)
    requires Sound(s) && Enabled(c, s, step)
    ensures Apply(c, s, step).trail == s.trail + Added(c, s, step)
  {
    if step.Fire? && step.child in s.db.rows { RowsAreShaped(s, step.child); }
  }

  lemma OneBirthAtOnce(c: Config, s: State, step: Step, sid: Uuid, x: Change, y: Change)
    requires x in Added(c, s, step) && y in Added(c, s, step) && IsBirth(sid)(x) && IsBirth(sid)(y)
    ensures x == y
  {
  }

  lemma PairIsAlike(c: Config, s: State, step: Step, sid: Uuid, x: Change, y: Change)
    requires Sound(s) && Law(c, s, sid) && Enabled(c, s, step) && Alike(s, sid)
    requires x in s.trail || x in Added(c, s, step)
    requires y in s.trail || y in Added(c, s, step)
    requires IsBirth(sid)(x) && IsBirth(sid)(y)
    ensures SameSeries(x.act.row, y.act.row)
  {
    if x in s.trail && y in s.trail {
      assert SameSeries(x.act.row, y.act.row);
    } else if y in s.trail {
      BirthIsAlike(c, s, step, sid, x, y);
    } else if x in s.trail {
      BirthIsAlike(c, s, step, sid, y, x);
    } else {
      OneBirthAtOnce(c, s, step, sid, x, y);
    }
  }

  lemma StepKeepsAlike(c: Config, s: State, step: Step, sid: Uuid)
    requires Sound(s) && Law(c, s, sid) && Enabled(c, s, step) && Alike(s, sid)
    ensures Alike(Apply(c, s, step), sid)
  {
    StepAdds(c, s, step);
    var t := s.trail + Added(c, s, step);
    forall x, y | x in t && y in t && IsBirth(sid)(x) && IsBirth(sid)(y) ensures SameSeries(x.act.row, y.act.row) {
      PairIsAlike(c, s, step, sid, x, y);
    }
  }

  lemma BirthIsAlike(c: Config, s: State, step: Step, sid: Uuid, x: Change, y: Change)
    requires Sound(s) && Law(c, s, sid) && Enabled(c, s, step) && Alike(s, sid)
    requires x in Added(c, s, step) && IsBirth(sid)(x) && y in s.trail && IsBirth(sid)(y)
    ensures SameSeries(x.act.row, y.act.row)
  {
    match step
    case Advance(_) =>
    case Do(_, _) => if Births(s, sid) == 0 { NoBirths(s.trail, sid); }
    case Fire(id, now, _) => FollowupIsAlike(s, id, x.act.row.scheduledAt.value, now, sid, y);
  }

  lemma InsertIsFirst(c: Config, s: State, step: Step, sid: Uuid)
    requires Law(c, s, sid) && Enabled(c, s, step) && step.Do? && step.act.Create? && step.act.row.series == Some(sid)
    ensures forall j | 0 <= j < |s.trail| :: !IsBirth(sid)(s.trail[j])
  {
    NoBirths(s.trail, sid);
    forall j | 0 <= j < |s.trail| ensures !IsBirth(sid)(s.trail[j]) { assert s.trail[j] in s.trail; }
  }

  lemma NewMemberSucceeds(c: Config, s: State, step: Step, sid: Uuid, i: nat, j: nat)
    requires Sound(s) && Law(c, s, sid) && Enabled(c, s, step)
    requires var t := s.trail + Added(c, s, step);
             j < i < |t| && |s.trail| <= i && IsBirth(sid)(t[j]) && IsBirth(sid)(t[i])
    ensures Succeeds(c, s.trail + Added(c, s, step), i)
  {
    if step.Do? { InsertIsFirst(c, s, step, sid); }
  }

  lemma NewPromotionIsSucceeded(c: Config, s: State, step: Step, sid: Uuid, i: nat)
    requires Sound(s) && Enabled(c, s, step)
    requires var t := s.trail + Added(c, s, step);
             |s.trail| <= i < |t| && IsPromotion(sid)(t[i]) && HasNext(c, t[i])
    ensures var t := s.trail + Added(c, s, step);
            i + 1 < |t| && IsBirth(sid)(t[i + 1]) && Succeeds(c, t, i + 1)
  {
    RowsAreShaped(s, step.id);
  }

  lemma StepKeepsChained(c: Config, s: State, step: Step, sid: Uuid)
    requires Sound(s) && Law(c, s, sid) && Enabled(c, s, step) && Chained(c, s.trail, sid)
    ensures Chained(c, Apply(c, s, step).trail, sid)
  {
    StepAdds(c, s, step);
    var t, n := s.trail + Added(c, s, step), |s.trail|;
    forall i, j | 0 <= j < i < |t| && IsBirth(sid)(t[j]) && IsBirth(sid)(t[i]) ensures Succeeds(c, t, i) {
      if i < n { assert Succeeds(c, s.trail, i); } else { NewMemberSucceeds(c, s, step, sid, i, j); }
    }
    forall i | 0 <= i < |t| && IsPromotion(sid)(t[i]) && HasNext(c, t[i])
      ensures i + 1 < |t| && IsBirth(sid)(t[i + 1]) && Succeeds(c, t, i + 1)
    {
      if i < n { assert Succeeds(c, s.trail, i + 1); } else { NewPromotionIsSucceeded(c, s, step, sid, i); }
    }
  }

  lemma {:induction false} RunKeepsChained(c: Config, s: State, steps: seq<Step>, sid: Uuid)
    requires Sound(s) && Law(c, s, sid) && Alike(s, sid) && Chained(c, s.trail, sid) && ValidFrom(c, s, steps)
    ensures Alike(RunFrom(c, s, steps), sid) && Chained(c, RunFrom(c, s, steps).trail, sid)
    decreases |steps|
  {
    if steps != [] {
      StepKeepsLaw(c, s, steps[0], sid);
      StepKeepsAlike(c, s, steps[0], sid);
      StepKeepsChained(c, s, steps[0], sid);
      StepKeepsSound(c, s, steps[0]);
      RunKeepsChained(c, Apply(c, s, steps[0]), steps[1..], sid);
    }
  }

  /** In every reachable state all members a series ever had, and so any two stored ones, are the
      same work: type, payload, queue, priority, retries, owner, expression and zone. */
  lemma MembersAreAlike(c: Config, s: State, sid: Uuid)
    requires Reachable(c, s)
    ensures Alike(s, sid)
    ensures forall a, b | a in s.db.rows && b in s.db.rows && s.db.rows[a].series == s.db.rows[b].series == Some(sid) ::
              SameSeries(s.db.rows[a], s.db.rows[b])
  {
    ReachableIsChained(c, s, sid);
    ReachableIsSound(c, s);
    forall a, b | a in s.db.rows && b in s.db.rows && s.db.rows[a].series == s.db.rows[b].series == Some(sid)
      ensures SameSeries(s.db.rows[a], s.db.rows[b])
    {
      var x := RowWasBorn(s, a);
      var y := RowWasBorn(s, b);
      assert SameSeries(x.act.row, y.act.row);
    }
  }

  lemma ReachableIsChained(c: Config, s: State, sid: Uuid)
    requires Reachable(c, s)
    ensures Alike(s, sid) && Chained(c, s.trail, sid)
  {
    var steps :| ValidFrom(c, EMPTY, steps) && RunFrom(c, EMPTY, steps) == s;
    var none: seq<Step> := [];
    assert Reachable(c, EMPTY) by { assert ValidFrom(c, EMPTY, none) && RunFrom(c, EMPTY, none) == EMPTY; }
    ReachableIsSound(c, EMPTY);
    ReachableKeepsLaw(c, EMPTY, sid);
    RunKeepsChained(c, EMPTY, steps, sid);
  }

  /** In every reachable state each member but the first was inserted right after a promotion in
      its series, fresh and due when the series' expression next fires after the promotion's
      clock reading; and each promotion with such a next time has that member right behind it. */
  lemma SuccessorsFollow(c: Config, s: State, sid: Uuid)
    requires Reachable(c, s)
    ensures Chained(c, s.trail, sid)
  {
    ReachableIsChained(c, s, sid);
  }
}
