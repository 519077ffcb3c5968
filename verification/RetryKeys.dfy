/** Keyed replay among everything else: requests whose two transactions interleave with each
    other and with every other transaction, and which replay changes a key causes. */
module RetryKeys {
  import opened Lifecycle
  import opened Ledger
  import opened Batches
  import A = Api

  datatype Request = Request(key: string, id: Uuid)

  /** A replay change made, with its place on the trail. */
  datatype Cause = Cause(key: string, id: Uuid, place: nat)

  /** `open` are requests between binding their key and replaying; `caused` is history. */
  datatype Desk = Desk(led: State, bound: map<string, Uuid>, open: map<nat, Request>, caused: seq<Cause>)

  datatype Move =
    | Bind(n: nat, request: Request)
    | Carry(n: nat)
    | Die(n: nat)
    | Other(step: Step)

  predicate CanMove(c: Config, d: Desk, m: Move) {
    match m
    case Bind(n, _) => n !in d.open
    case Carry(n) => n in d.open
    case Die(n) => n in d.open
    case Other(step) => Enabled(c, d.led, step) && !(step.Do? && step.act.Replay?)
  }

  /** A key in use answers the request at once; else the request goes on to its replay. */
  function Next(c: Config, d: Desk, m: Move): Desk
    requires CanMove(c, d, m)
  {
    match m
    case Bind(n, q) =>
      if q.key != "" && q.key in d.bound then d
      else d.(bound := A.BoundAfter(d.bound, q.key, q.id), open := d.open[n := q])
    case Carry(n) =>
      var q := d.open[n];
      Desk(Apply(c, d.led, Do(q.id, Replay)), d.bound, d.open - {n},
           if Applies(d.led.db, q.id, Replay, d.led.clock)
           then d.caused + [Cause(q.key, q.id, |d.led.trail|)] else d.caused)
    case Die(n) => d.(open := d.open - {n})
    case Other(step) => d.(led := Apply(c, d.led, step))
  }

  predicate Plays(c: Config, d: Desk, moves: seq<Move>)
    decreases |moves|
  {
    moves == [] || (CanMove(c, d, moves[0]) && Plays(c, Next(c, d, moves[0]), moves[1..]))
  }

  function End(c: Config, d: Desk, moves: seq<Move>): Desk
    requires Plays(c, d, moves)
    decreases |moves|
  {
    if moves == [] then d else End(c, Next(c, d, moves[0]), moves[1..])
  }

  // ---------- the invariant ----------

  predicate Holding(d: Desk, q: Request) {
    q.key != "" ==> q.key in d.bound && d.bound[q.key] == q.id
  }

  /** An open request and a replay made each have their key to themselves. */
  ghost predicate KeysHeld(d: Desk) {
    && (forall n | n in d.open :: Holding(d, d.open[n]))
    && (forall n, k | n in d.open && k in d.open && n != k && d.open[n].key != "" :: d.open[n].key != d.open[k].key)
    && (forall x | x in d.caused :: Holding(d, Request(x.key, x.id)))
    && (forall n, x | n in d.open && x in d.caused && x.key != "" :: d.open[n].key != x.key)
  }

  predicate OncePerKey(caused: seq<Cause>) {
    forall i, j | 0 <= i < j < |caused| && caused[i].key != "" :: caused[i].key != caused[j].key
  }

  /** Every replay change on the trail since `from` has exactly one cause. */
  ghost predicate Accounted(d: Desk, from: nat) {
    && (forall x | x in d.caused ::
          x.place < |d.led.trail| && d.led.trail[x.place].act.Replay? && d.led.trail[x.place].id == x.id)
    && Count(d.led.trail, IsReplay) == from + |d.caused|
  }

  lemma BindKeepsKeys(c: Config, d: Desk, n: nat, q: Request)
    requires KeysHeld(d) && CanMove(c, d, Bind(n, q))
    ensures KeysHeld(Next(c, d, Bind(n, q)))
  {
    if q.key == "" || q.key !in d.bound {
      var e := Next(c, d, Bind(n, q));
      forall k | k in d.open ensures Holding(e, d.open[k]) && (q.key != "" ==> d.open[k].key != q.key) {
        assert Holding(d, d.open[k]);
      }
      forall x | x in d.caused ensures Holding(e, Request(x.key, x.id)) && (q.key != "" ==> x.key != q.key) {
        assert Holding(d, Request(x.key, x.id));
      }
    }
  }

  lemma CarryKeepsKeys(c: Config, d: Desk, n: nat)
    requires KeysHeld(d) && OncePerKey(d.caused) && n in d.open
    ensures KeysHeld(Next(c, d, Carry(n))) && OncePerKey(Next(c, d, Carry(n)).caused)
  {
    var q, e := d.open[n], Next(c, d, Carry(n));
    assert Holding(d, q);
    forall k | k in e.open ensures Holding(e, e.open[k]) && (q.key != "" ==> e.open[k].key != q.key) {
      assert k != n && Holding(d, d.open[k]);
    }
    forall x | x in d.caused ensures Holding(e, Request(x.key, x.id)) && (q.key != "" ==> x.key != q.key) {
      assert Holding(d, Request(x.key, x.id));
    }
  }

  lemma MoveKeepsKeys(c: Config, d: Desk, m: Move)
    requires KeysHeld(d) && OncePerKey(d.caused) && CanMove(c, d, m)
    ensures KeysHeld(Next(c, d, m)) && OncePerKey(Next(c, d, m).caused)
  {
    match m
    case Bind(n, q) => BindKeepsKeys(c, d, n, q);
    case Carry(n) => CarryKeepsKeys(c, d, n);
    case Die(n) => assert forall k | k in d.open :: Holding(d, d.open[k]);
    case Other(_) => assert forall k | k in d.open :: Holding(d, d.open[k]);
  }

  lemma RecordCounted(s: State, id: Uuid, act: Act)
    ensures var t := Record(s, id, act).trail;
            && s.trail <= t
            && Count(t, IsReplay) ==
               Count(s.trail, IsReplay) + if act.Replay? && Applies(s.db, id, act, s.clock) then 1 else 0
  {
    var t := Record(s, id, act).trail;
    if Applies(s.db, id, act, s.clock) { assert t[..|s.trail|] == s.trail; }
  }

  lemma StepCounted(c: Config, s: State, step: Step)
    ensures var t := Apply(c, s, step).trail;
            && s.trail <= t
            && (!(step.Do? && step.act.Replay?) ==> Count(t, IsReplay) == Count(s.trail, IsReplay))
  {
    match step
    case Advance(_) =>
    case Do(id, act) => RecordCounted(s.(minted := s.minted + MintedBy(id, act)), id, act);
    case Fire(id, now, child) =>
      var s1 := s.(minted := s.minted + {child});
      RecordCounted(s1, id, Promote(now));
      var s2 := Record(s1, id, Promote(now));
      if Applies(s.db, id, Promote(now), s.clock) && Followup(c, s2.db.rows[id], now).Some? {
        RecordCounted(s2, child, Create(Followup(c, s2.db.rows[id], now).value));
      }
  }

  lemma MoveKeepsAccount(c: Config, d: Desk, m: Move, from: nat)
    requires Accounted(d, from) && CanMove(c, d, m)
    ensures Accounted(Next(c, d, m), from)
  {
    if m.Other? { StepCounted(c, d.led, m.step); }
    if m.Carry? {
      var id := d.open[m.n].id;
      RecordCounted(d.led.(minted := d.led.minted + {}), id, Replay);
    }
  }

  /** In every play, however requests, crashes and other transactions interleave, the replay
      changes of any jobs caused under one key are at most one, it is of the job the key is
      bound to, and every replay change has such a cause. */
  lemma {:induction false} KeyCausesOneReplay(c: Config, d: Desk, moves: seq<Move>, from: nat)
    requires KeysHeld(d) && OncePerKey(d.caused) && Accounted(d, from) && Plays(c, d, moves)
    ensures var e := End(c, d, moves);
            && OncePerKey(e.caused) && Accounted(e, from)
            && forall x | x in e.caused && x.key != "" :: x.key in e.bound && e.bound[x.key] == x.id
    decreases |moves|
  {
    if moves != [] {
      MoveKeepsKeys(c, d, moves[0]);
      MoveKeepsAccount(c, d, moves[0], from);
      KeyCausesOneReplay(c, Next(c, d, moves[0]), moves[1..], from);
    } else {
      forall x | x in d.caused && x.key != "" ensures x.key in d.bound && d.bound[x.key] == x.id {
        assert Holding(d, Request(x.key, x.id));
      }
    }
  }

  /** A bound key with no request open is spent: no continuation replays under it again. */
  predicate Spent(d: Desk, key: string) {
    key != "" && key in d.bound && forall n | n in d.open :: d.open[n].key != key
  }

  function ReplaysOf(caused: seq<Cause>, key: string): nat {
    if caused == [] then 0
    else ReplaysOf(caused[..|caused| - 1], key) + if caused[|caused| - 1].key == key then 1 else 0
  }

  lemma {:induction false} SpentForGood(c: Config, d: Desk, moves: seq<Move>, key: string)
    requires Spent(d, key) && Plays(c, d, moves)
    ensures Spent(End(c, d, moves), key) && ReplaysOf(End(c, d, moves).caused, key) == ReplaysOf(d.caused, key)
    decreases |moves|
  {
    if moves != [] {
      var d1 := Next(c, d, moves[0]);
      if |d1.caused| > |d.caused| { OneMoreReplay(d.caused, d1.caused[|d.caused|], key); }
      SpentForGood(c, d1, moves[1..], key);
    }
  }

  /** A bound key's only open request replays if and only if it is carried out while its job
      is failed; either way the key is then spent. */
  lemma CarryDecides(c: Config, d: Desk, n: nat)
    requires KeysHeld(d) && n in d.open && d.open[n].key != ""
    ensures var q, e := d.open[n], Next(c, d, Carry(n));
            && Spent(e, q.key) && Spent(Next(c, d, Die(n)), q.key)
            && (ReplaysOf(e.caused, q.key) == ReplaysOf(d.caused, q.key) + 1 <==>
                q.id in d.led.db.rows && d.led.db.rows[q.id].status == Failed)
            && ReplaysOf(Next(c, d, Die(n)).caused, q.key) == ReplaysOf(d.caused, q.key)
  {
    var q, e := d.open[n], Next(c, d, Carry(n));
    assert Holding(d, q);
    assert forall k | k in d.open && k != n :: d.open[k].key != q.key;
    if |e.caused| > |d.caused| { OneMoreReplay(d.caused, e.caused[|d.caused|], q.key); }
  }

  lemma OneMoreReplay(caused: seq<Cause>, x: Cause, key: string)
    ensures ReplaysOf(caused + [x], key) == ReplaysOf(caused, key) + if x.key == key then 1 else 0
  {
    assert (caused + [x])[..|caused|] == caused;
  }

  /** Undisturbed, the two transactions change keys and tables as the handler's answer says. */
  lemma AloneAsAnswered(c: Config, d: Desk, n: nat, q: Request)
    requires n !in d.open
    ensures var failed := q.id in d.led.db.rows && d.led.db.rows[q.id].status == Failed;
            var answer := A.AnswerTo(d.bound, A.Ask(q.key, q.id, failed, false));
            var d1 := Next(c, d, Bind(n, q));
            var e := if n in d1.open then Next(c, d1, Carry(n)) else d1;
            && e.bound == A.BoundAfter(d.bound, q.key, q.id)
            && e.led.db == if answer == A.Replayed then Touch(d.led.db, q.id, Replay, d.led.clock) else d.led.db
  {
  }

  /** The desk's tables go through a run of the ledger. */
  lemma {:induction false} PlaysAreRuns(c: Config, d: Desk, moves: seq<Move>)
    requires Plays(c, d, moves)
    ensures exists steps :: ValidFrom(c, d.led, steps) && RunFrom(c, d.led, steps) == End(c, d, moves).led
    decreases |moves|
  {
    if moves == [] {
      assert ValidFrom(c, d.led, []) && RunFrom(c, d.led, []) == d.led;
    } else {
      var d1 := Next(c, d, moves[0]);
      PlaysAreRuns(c, d1, moves[1..]);
      var rest :| ValidFrom(c, d1.led, rest) && RunFrom(c, d1.led, rest) == End(c, d, moves).led;
      if moves[0].Carry? {
        RunCons(c, d.led, Do(d.open[moves[0].n].id, Replay), rest);
      } else if moves[0].Other? {
        RunCons(c, d.led, moves[0].step, rest);
      }
    }
  }
}
