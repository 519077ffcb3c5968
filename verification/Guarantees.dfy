/** What every run of the database transactions guarantees about jobs, tokens, backoff
    and attempts, whatever order the API, workers, scheduler, reaper and purger act in. */
module Guarantees {
  import opened Lifecycle
  import opened Ledger

  // ---------- trail positions and life positions ----------

  lemma {:induction false} LifeGrows(trail: seq<Change>, i: nat, id: Uuid)
    requires i <= |trail|
    ensures Life(trail[..i], id) <= Life(trail, id)
  {
    if i == |trail| {
      assert trail[..i] == trail;
    } else {
      assert trail[..|trail| - 1][..i] == trail[..i];
      LifeGrows(trail[..|trail| - 1], i, id);
    }
  }

  function Position(trail: seq<Change>, i: nat): nat
    requires i < |trail|
  {
    |Life(trail[..i], trail[i].id)|
  }

  lemma ChangeInLife(trail: seq<Change>, i: nat)
    requires i < |trail|
    ensures Position(trail, i) < |Life(trail, trail[i].id)|
    ensures Life(trail, trail[i].id)[Position(trail, i)] == trail[i]
  {
    assert trail[..i + 1][..i] == trail[..i];
    LifeGrows(trail, i + 1, trail[i].id);
  }

  lemma PositionsAgree(trail: seq<Change>, i: nat, j: nat)
    requires i < j < |trail| && trail[i].id == trail[j].id
    ensures Position(trail, i) < Position(trail, j)
  {
    ChangeInLife(trail[..j], i);
    assert trail[..j][..i] == trail[..i];
  }

  // ---------- rows, log and idempotency index ----------

  /** Every row of every reachable state has the column pattern of its status. */
  lemma RowsKeepShape(c: Config, s: State, id: Uuid)
    requires Reachable(c, s) && id in s.db.rows
    ensures Shape(s.db.rows[id], s.clock)
  {
    ReachableIsSound(c, s);
    RowsAreShaped(s, id);
  }

  /** In every reachable state the job_events of a job replay to its row. */
  lemma AuditLogAgrees(c: Config, s: State, id: Uuid)
    requires Reachable(c, s)
    ensures var log := EventsOf(s.db.events, id);
            && Linked(log)
            && (id in s.db.rows ==>
                  && log != [] && log[|log| - 1].newStatus == s.db.rows[id].status
                  && RunsSinceReplay(log) == s.db.rows[id].attempts)
            && (id !in s.db.rows && log != [] ==>
                  log[|log| - 1].newStatus == Completed || log[|log| - 1].newStatus == Cancelled)
  {
    ReachableIsSound(c, s);
    assert JobSound(s, id);
    if Life(s.trail, id) != [] { AuditLogReplays(Life(s.trail, id)); }
  }

  /** The idempotency index is exactly the keys of the live rows, so no two live jobs share one. */
  lemma IdempotencyIndexAgrees(c: Config, s: State)
    requires Reachable(c, s)
    ensures s.db.keys.Keys == set id | id in s.db.rows && HasKey(s.db.rows[id]) :: s.db.rows[id].key.value
    ensures forall id | id in s.db.rows && HasKey(s.db.rows[id]) :: s.db.keys[s.db.rows[id].key.value] == id
    ensures forall a, b | a in s.db.rows && b in s.db.rows && HasKey(s.db.rows[a]) &&
                          s.db.rows[a].key == s.db.rows[b].key :: a == b
  {
    ReachableIsSound(c, s);
  }

  /** Every column a worker or the purger goes by is a fact about the job's own history: when it
      was first claimed, last claimed or beaten, by whom, why it last failed, until when it
      waits, and when it ended. */
  lemma ColumnsTellHistory(c: Config, s: State, id: Uuid)
    requires Reachable(c, s) && id in s.db.rows
    ensures Life(s.trail, id) != [] && TellsHistory(s.db.rows[id], Life(s.trail, id))
  {
    ReachableIsSound(c, s);
    assert JobSound(s, id);
    ColumnsTell(Life(s.trail, id));
  }

  // ---------- retention ----------

  /** The change of trail[i]'s job just before it, somewhere earlier on the trail. */
  lemma EarlierInTrail(trail: seq<Change>, i: nat)
    requires i < |trail| && 0 < Position(trail, i) < |Life(trail, trail[i].id)|
    ensures exists j | 0 <= j < i :: trail[j] == Life(trail, trail[i].id)[Position(trail, i) - 1]
  {
    var id := trail[i].id;
    var p := Life(trail[..i], id);
    LifeGrows(trail, i, id);
    LifeIsPart(trail[..i], id);
    var x := p[|p| - 1];
    assert x in trail[..i];
    var j :| 0 <= j < i && trail[..i][j] == x;
    assert trail[j] == x;
  }

  lemma {:induction false} LifeIsPart(trail: seq<Change>, id: Uuid)
    ensures forall x | x in Life(trail, id) :: x in trail && x.id == id
  {
    if trail != [] { LifeIsPart(trail[..|trail| - 1], id); }
  }

  /** In any run, each purged job was completed or cancelled at an earlier place of the trail,
      at a time before the purge's cutoff: with a cutoff `keep` ago no job goes within `keep`
      of its end, and no failed job ever goes. */
  lemma RetentionIsKept(c: Config, s: State, i: nat, keep: Time)
    requires Reachable(c, s) && i < |s.trail| && s.trail[i].act.Purge?
    ensures exists j | 0 <= j < i ::
              && s.trail[j].id == s.trail[i].id && (s.trail[j].act.Finish? || s.trail[j].act.Cancel?)
              && s.trail[j].at < s.trail[i].act.cutoff
              && (s.trail[i].act.cutoff <= s.trail[i].at - keep ==> s.trail[i].at - s.trail[j].at > keep)
  {
    ReachableIsSound(c, s);
    assert JobSound(s, s.trail[i].id);
    ChangeInLife(s.trail, i);
    PurgedAfterRetention(Life(s.trail, s.trail[i].id), Position(s.trail, i));
    EarlierInTrail(s.trail, i);
    LifeIsPart(s.trail, s.trail[i].id);
  }

  // ---------- backoff and attempts ----------

  /** After FailOrRetry sends a job back at time t with attempt a, no later claim of the
      job in the whole run is before t + min(5m, 10s * 2^a). */
  lemma BackoffOverRuns(c: Config, s: State, i: nat, j: nat)
    requires Reachable(c, s) && i < j < |s.trail| && s.trail[i].id == s.trail[j].id
    requires SentBack(s.trail[i]) && s.trail[j].act.Claim?
    ensures s.trail[j].at >= s.trail[i].at + RetryBackoff(s.trail[i].before.value.attempts)
  {
    ReachableIsSound(c, s);
    assert JobSound(s, s.trail[i].id);
    ChangeInLife(s.trail, i);
    ChangeInLife(s.trail, j);
    PositionsAgree(s.trail, i, j);
    BackoffIsRespected(Life(s.trail, s.trail[i].id), Position(s.trail, i), Position(s.trail, j));
  }

  /** Over any run, claims of a job, still stored or purged, are at most
      (replays + 1) * max(1, max_retry) + reclaims. */
  lemma AttemptsOverRuns(c: Config, s: State, id: Uuid)
    requires Reachable(c, s) && Life(s.trail, id) != []
    ensures var l := Life(s.trail, id);
            && IsLife(l)
            && Count(l, IsClaim) <= Count(l, IsReclaim) +
                                    (Count(l, IsReplay) + 1) * (if Born(l).maxRetry > 1 then Born(l).maxRetry else 1)
    ensures id in s.db.rows ==> Born(Life(s.trail, id)).maxRetry == s.db.rows[id].maxRetry
  {
    ReachableIsSound(c, s);
    assert JobSound(s, id);
    ShapeHolds(Life(s.trail, id));
    AttemptsAreBounded(Life(s.trail, id));
  }

  // ---------- token fencing ----------

  lemma TokenUserWasIssued(s: State, i: nat, token: Uuid)
    requires Sound(s) && i < |s.trail|
    requires UsesToken(s.trail[i], token) || EndsToken(s.trail[i], token)
    ensures token in Issued(Life(s.trail, s.trail[i].id))
  {
    var l, k := Life(s.trail, s.trail[i].id), Position(s.trail, i);
    assert JobSound(s, s.trail[i].id);
    ChangeInLife(s.trail, i);
    LifeAt(l, k);
    RowTokenWasIssued(l[..k], token);
    IssuedGrows(l, k);
  }

  /** In a whole run, at most one Complete, FailOrRetry or reclaim succeeds for a token, and
      no heartbeat, completion or failure with it succeeds afterwards, on any job. */
  lemma TokenEndsOnceOverRuns(c: Config, s: State, i: nat, j: nat, token: Uuid)
    requires Reachable(c, s) && i < j < |s.trail| && EndsToken(s.trail[i], token)
    ensures !EndsToken(s.trail[j], token) && !UsesToken(s.trail[j], token)
  {
    ReachableIsSound(c, s);
    if EndsToken(s.trail[j], token) || UsesToken(s.trail[j], token) {
      TokenUserWasIssued(s, i, token);
      TokenUserWasIssued(s, j, token);
      var id := s.trail[i].id;
      assert id == s.trail[j].id;
      assert JobSound(s, id);
      ChangeInLife(s.trail, i);
      ChangeInLife(s.trail, j);
      PositionsAgree(s.trail, i, j);
      TokenEndsOnce(Life(s.trail, id), Position(s.trail, i), Position(s.trail, j), token);
    }
  }

  ghost predicate NobodyHolds(s: State, token: Uuid) {
    forall id | id in s.db.rows :: !HeldBy(s.db.rows[id], token)
  }

  lemma StepKeepsTokenFree(c: Config, s: State, step: Step, token: Uuid)
    requires Enabled(c, s, step) && token in s.minted && NobodyHolds(s, token)
    ensures token in Apply(c, s, step).minted && NobodyHolds(Apply(c, s, step), token)
  {
  }

  /** Once nobody holds a token that was handed out, in every continuation every Heartbeat,
      Complete and FailOrRetry with it is refused. */
  lemma {:induction false} FencedForever(c: Config, s: State, steps: seq<Step>, token: Uuid, id: Uuid, error: string)
    requires ValidFrom(c, s, steps) && token in s.minted && NobodyHolds(s, token)
    ensures var s' := RunFrom(c, s, steps);
            && !Applies(s'.db, id, Beat(token), s'.clock)
            && !Applies(s'.db, id, Finish(token), s'.clock)
            && !Applies(s'.db, id, Fail(token, error), s'.clock)
    decreases |steps|
  {
    if steps != [] {
      StepKeepsTokenFree(c, s, steps[0], token);
      FencedForever(c, Apply(c, s, steps[0]), steps[1..], token, id, error);
    }
  }

  // ---------- heartbeats keep ownership ----------

  /** Along the steps the holder of the token never lets more than staleAfter pass since
      its last beat, and does not itself complete or fail the job. */
  predicate BeatsInTime(c: Config, s: State, steps: seq<Step>, id: Uuid, token: Uuid, lastBeat: Time)
    decreases |steps|
  {
    if steps == [] then true
    else
      var s', rest := Apply(c, s, steps[0]), steps[1..];
      match steps[0]
      case Advance(t) => t <= lastBeat + c.staleAfter && BeatsInTime(c, s', rest, id, token, lastBeat)
      case Fire(_, _, _) => BeatsInTime(c, s', rest, id, token, lastBeat)
      case Do(j, act) =>
        if j == id && act == Beat(token) then BeatsInTime(c, s', rest, id, token, s.clock)
        else
          && !(j == id && (act == Finish(token) || (act.Fail? && act.token == token)))
          && BeatsInTime(c, s', rest, id, token, lastBeat)
  }

  predicate HeldSince(s: State, id: Uuid, token: Uuid, beat: Time) {
    && id in s.db.rows && id in s.minted && HeldBy(s.db.rows[id], token)
    && s.db.rows[id].heartbeatAt.Some? && s.db.rows[id].heartbeatAt.value >= beat
  }

  lemma StepKeepsHolder(c: Config, s: State, step: Step, id: Uuid, token: Uuid, beat: Time)
    requires Enabled(c, s, step) && HeldSince(s, id, token, beat) && s.clock <= beat + c.staleAfter
    requires step.Do? && step.id == id ==>
               step.act != Finish(token) && !(step.act.Fail? && step.act.token == token)
    ensures HeldSince(Apply(c, s, step), id, token,
                      if step == Do(id, Beat(token)) then s.clock else beat)
  {
  }

  /** If beats, counting the claim, are never more than staleAfter apart, nothing anyone
      does takes the job away: it is still held, and Complete and FailOrRetry succeed. */
  lemma {:induction false} HeartbeatKeepsOwnership(c: Config, s: State, steps: seq<Step>,
                                                   id: Uuid, token: Uuid, beat: Time)
    requires ValidFrom(c, s, steps) && BeatsInTime(c, s, steps, id, token, beat)
    requires HeldSince(s, id, token, beat) && s.clock <= beat + c.staleAfter && c.staleAfter >= 0
    ensures var s' := RunFrom(c, s, steps);
            && id in s'.db.rows && HeldBy(s'.db.rows[id], token)
            && Applies(s'.db, id, Finish(token), s'.clock)
            && forall e :: Applies(s'.db, id, Fail(token, e), s'.clock)
    decreases |steps|
  {
    if steps != [] {
      StepKeepsHolder(c, s, steps[0], id, token, beat);
      HeartbeatKeepsOwnership(c, Apply(c, s, steps[0]), steps[1..], id, token,
                              if steps[0] == Do(id, Beat(token)) then s.clock else beat);
    }
  }
}
