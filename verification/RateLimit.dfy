/** The API's token bucket per caller. The limiter updates its buckets in place; its
    answers are characterised exactly by the request times of the caller's bucket. */
module RateLimit {

  const DEFAULT_RPS := 20
  const DEFAULT_BURST := 40
  const MAX_BUCKETS := 100000

  datatype Config = NoConfig | Config(rps: int, burst: int)

  function Rps(cfg: Config): real {
    if cfg.Config? && cfg.rps > 0 then cfg.rps as real else DEFAULT_RPS as real
  }

  function Burst(cfg: Config): real {
    if cfg.Config? && cfg.burst > 0 then cfg.burst as real else DEFAULT_BURST as real
  }

  /** Both limits by the configuration's own settings: 20 a second and 40 at once unless given. */
  lemma LimitsAreSettings(cfg: Config)
    ensures Rps(cfg) == if cfg.Config? && cfg.rps > 0 then cfg.rps as real else 20.0
    ensures Burst(cfg) == if cfg.Config? && cfg.burst > 0 then cfg.burst as real else 40.0
    ensures Rps(cfg) >= 1.0 && Burst(cfg) >= 1.0
  {
  }

  datatype Bucket = Bucket(tokens: real, last: real)

  // ---------- one bucket over its requests ----------

  // A request is given by its credit time u = rps * t: refilling between two requests adds
  // the difference of their credit times.

  /** Tokens at the last request, refilled but not yet spent. */
  function Level(u: seq<real>, burst: real): real
    requires u != []
    decreases |u|, 0
  {
    var n := |u| - 1;
    if n == 0 then burst
    else
      var filled := Left(u[..n], burst) + (u[n] - u[n - 1]);
      if filled > burst then burst else filled
  }

  function Left(u: seq<real>, burst: real): real
    requires u != []
    decreases |u|, 1
  {
    var t := Level(u, burst);
    if t < 1.0 then t else t - 1.0
  }

  predicate Accepts(u: seq<real>, burst: real)
    requires u != []
  {
    Level(u, burst) >= 1.0
  }

  /** How many of requests i..j-1 were accepted. */
  function Accepted(u: seq<real>, i: nat, j: nat, burst: real): nat
    requires i <= j <= |u|
    decreases j - i
  {
    if i == j then 0
    else Accepted(u, i, j - 1, burst) + if Accepts(u[..j], burst) then 1 else 0
  }

  predicate Ordered(u: seq<real>) {
    forall i, j | 0 <= i <= j < |u| :: u[i] <= u[j]
  }

  /** What the requests from i on still leave to spend at the last one. */
  function Allowance(u: seq<real>, i: nat, burst: real): real
    requires i < |u|
  {
    burst + (u[|u| - 1] - u[i]) - Accepted(u, i, |u| - 1, burst) as real
  }

  lemma {:induction false} AcceptedPrefix(u: seq<real>, m: nat, i: nat, j: nat, burst: real)
    requires i <= j <= m <= |u|
    ensures Accepted(u[..m], i, j, burst) == Accepted(u, i, j, burst)
    decreases j - i
  {
    if i < j {
      AcceptedPrefix(u, m, i, j - 1, burst);
      assert u[..m][..j] == u[..j];
    }
  }

  /** One more request shifts every earlier allowance by the refill and the last answer. */
  lemma AllowanceStep(u: seq<real>, i: nat, burst: real)
    requires |u| > 1 && i < |u| - 1
    ensures var n := |u| - 1;
            Allowance(u, i, burst) ==
            Allowance(u[..n], i, burst) - (if Accepts(u[..n], burst) then 1.0 else 0.0) + (u[n] - u[n - 1])
  {
    AcceptedPrefix(u, |u| - 1, i, |u| - 2, burst);
  }

  /** The level is the least allowance over all starting requests. */
  lemma {:induction false} LevelIsLeastAllowance(u: seq<real>, burst: real)
    requires u != []
    ensures forall i | 0 <= i < |u| :: Level(u, burst) <= Allowance(u, i, burst)
    ensures exists i | 0 <= i < |u| :: Level(u, burst) == Allowance(u, i, burst)
  {
    var n := |u| - 1;
    assert Allowance(u, n, burst) == burst;
    if n > 0 {
      var p := u[..n];
      LevelIsLeastAllowance(p, burst);
      forall i | 0 <= i < n ensures Level(u, burst) <= Allowance(u, i, burst) {
        AllowanceStep(u, i, burst);
        assert Level(p, burst) <= Allowance(p, i, burst);
      }
      var i :| 0 <= i < n && Level(p, burst) == Allowance(p, i, burst);
      AllowanceStep(u, i, burst);
      assert Level(u, burst) == Allowance(u, i, burst) || Level(u, burst) == Allowance(u, n, burst);
    }
  }

  /** The last request is accepted iff every start leaves a whole token to spend. */
  lemma AcceptsExactly(u: seq<real>, burst: real)
    requires u != []
    ensures Accepts(u, burst) <==> forall i | 0 <= i < |u| :: Allowance(u, i, burst) >= 1.0
  {
    LevelIsLeastAllowance(u, burst);
  }

  /** Tokens never exceed burst; while credit times do not go back they are never negative. */
  lemma {:induction false} TokensBounded(u: seq<real>, burst: real)
    requires u != [] && burst >= 0.0
    ensures Left(u, burst) <= Level(u, burst) <= burst
    ensures Ordered(u) ==> 0.0 <= Left(u, burst)
  {
    var n := |u| - 1;
    if n > 0 {
      TokensBounded(u[..n], burst);
      if Ordered(u) { assert u[n - 1] <= u[n]; }
    }
  }

  /** The clock is read before the lock is taken, so a request may be applied after one with
      a later reading; its refill is then negative and can take more than is left. */
  lemma TokensCanGoNegative()
    ensures Left([10.0, 5.0], 1.0) == -5.0
  {
    assert [10.0, 5.0][..1] == [10.0];
    assert Level([10.0], 1.0) == 1.0;
  }

  /** Request k was applied with its clock behind by at most the tokens left at that moment. */
  predicate Covered(u: seq<real>, k: nat, burst: real)
    requires 0 < k < |u|
  {
    u[k - 1] - u[k] <= Left(u[..k], burst)
  }

  /** Tokens stay between zero and burst at every request if and only if every step back of
      the clock is covered by the tokens left when it happens. */
  lemma {:induction false} TokensStayExactly(u: seq<real>, burst: real)
    requires u != [] && burst >= 0.0
    ensures (forall k | 0 < k <= |u| :: 0.0 <= Left(u[..k], burst) <= burst) <==>
            forall k | 0 < k < |u| :: Covered(u, k, burst)
  {
    forall k | 0 < k < |u| ensures u[..k + 1][..k] == u[..k] {}
    forall k | 0 < k < |u| ensures Covered(u, k, burst) <==> 0.0 <= Left(u[..k + 1], burst) {
      assert Level(u[..k + 1], burst) ==
             var filled := Left(u[..k], burst) + (u[k] - u[k - 1]); if filled > burst then burst else filled;
    }
    forall k | 0 < k <= |u| ensures Left(u[..k], burst) <= burst { TokensBounded(u[..k], burst); }
    assert 0.0 <= Left(u[..1], burst);
    if forall k | 0 < k < |u| :: Covered(u, k, burst) {
      forall k | 0 < k <= |u| ensures 0.0 <= Left(u[..k], burst) {
        if k > 1 { assert Covered(u, k - 1, burst); }
      }
    }
  }

  lemma {:induction false} CreditWindowBound(u: seq<real>, i: nat, j: nat, latest: real, burst: real)
    requires i < j <= |u| && burst >= 0.0 && forall k | i <= k < j :: u[k] <= latest
    ensures Accepted(u, i, j, burst) as real <= burst + (latest - u[i])
    decreases j - i
  {
    if Accepts(u[..j], burst) {
      AcceptsExactly(u[..j], burst);
      AcceptedPrefix(u, j, i, j - 1, burst);
      assert Allowance(u[..j], i, burst) >= 1.0;
    } else if i < j - 1 {
      CreditWindowBound(u, i, j - 1, latest, burst);
    } else {
      assert Accepted(u, i, j - 1, burst) == 0;
    }
  }

  lemma {:induction false} SpacedCredits(u: seq<real>, burst: real)
    requires u != [] && burst >= 1.0
    requires forall k | 0 < k < |u| :: u[k] - u[k - 1] >= 1.0
    ensures Accepts(u, burst)
  {
    var n := |u| - 1;
    if n > 0 {
      SpacedCredits(u[..n], burst);
      assert u[n] - u[n - 1] >= 1.0;
    }
  }

  // ---------- the law in request times ----------

  function Credit(t: real, rps: real): real {
    t * rps
  }

  function Credits(t: seq<real>, rps: real): seq<real> {
    seq(|t|, k requires 0 <= k < |t| => Credit(t[k], rps))
  }

  /** Requests i..j-1 of a bucket, at times t, that were accepted. */
  function AcceptedAt(t: seq<real>, i: nat, j: nat, rps: real, burst: real): nat
    requires i <= j <= |t|
  {
    Accepted(Credits(t, rps), i, j, burst)
  }

  /** For every earlier-or-equal request i: those accepted since i, plus this one, fit in
      burst + rps * elapsed. */
  predicate Fits(t: seq<real>, rps: real, burst: real)
    requires t != []
  {
    var n := |t| - 1;
    forall i | 0 <= i <= n :: AcceptedAt(t, i, n, rps, burst) as real + 1.0 <= burst + rps * (t[n] - t[i])
  }

  lemma Distribute(a: real, b: real, rps: real)
    ensures rps * (b - a) == (b - a) * rps == Credit(b, rps) - Credit(a, rps)
  {
  }

  lemma AllowanceInTime(t: seq<real>, i: nat, rps: real, burst: real)
    requires i < |t|
    ensures var n := |t| - 1;
            Allowance(Credits(t, rps), i, burst) ==
            burst + rps * (t[n] - t[i]) - AcceptedAt(t, i, n, rps, burst) as real
  {
    Distribute(t[i], t[|t| - 1], rps);
  }

  lemma ExactTokenBucket(t: seq<real>, rps: real, burst: real)
    requires t != []
    ensures Accepts(Credits(t, rps), burst) <==> Fits(t, rps, burst)
  {
    AcceptsExactly(Credits(t, rps), burst);
    forall i | 0 <= i < |t|
      ensures Allowance(Credits(t, rps), i, burst) ==
              burst + rps * (t[|t| - 1] - t[i]) - AcceptedAt(t, i, |t| - 1, rps, burst) as real
    {
      AllowanceInTime(t, i, rps, burst);
    }
  }

  lemma ScaleOrder(a: real, b: real, rps: real)
    requires a <= b && rps >= 0.0
    ensures Credit(a, rps) <= Credit(b, rps)
  {
  }

  /** In every window, whatever the order of its clock readings, the limiter accepts at most
      burst + rps * (latest reading - first reading). */
  lemma WindowBound(t: seq<real>, i: nat, j: nat, latest: real, rps: real, burst: real)
    requires i < j <= |t| && rps >= 0.0 && burst >= 0.0 && forall k | i <= k < j :: t[k] <= latest
    ensures AcceptedAt(t, i, j, rps, burst) as real <= burst + rps * (latest - t[i])
  {
    var u := Credits(t, rps);
    forall k | i <= k < j ensures u[k] <= Credit(latest, rps) { ScaleOrder(t[k], latest, rps); }
    CreditWindowBound(u, i, j, Credit(latest, rps), burst);
    Distribute(t[i], latest, rps);
  }

  /** A caller whose requests are at least 1/rps apart is never refused. */
  lemma SpacedCallerIsNeverRefused(t: seq<real>, rps: real, burst: real)
    requires t != [] && burst >= 1.0
    requires forall k | 0 < k < |t| :: rps * (t[k] - t[k - 1]) >= 1.0
    ensures Fits(t, rps, burst)
  {
    var u := Credits(t, rps);
    forall k | 0 < k < |t| ensures u[k] - u[k - 1] >= 1.0 {
      Distribute(t[k - 1], t[k], rps);
    }
    SpacedCredits(u, burst);
    ExactTokenBucket(t, rps, burst);
  }

  // ---------- the law in the answers given ----------

  function Trues(a: seq<bool>): nat {
    if a == [] then 0 else Trues(a[..|a| - 1]) + if a[|a| - 1] then 1 else 0
  }

  /** The answers a bucket's requests got. */
  function Answers(t: seq<real>, rps: real, burst: real): seq<bool> {
    seq(|t|, k requires 0 <= k < |t| => Accepts(Credits(t[..k + 1], rps), burst))
  }

  lemma CreditsPrefix(t: seq<real>, k: nat, rps: real)
    requires k <= |t|
    ensures Credits(t[..k], rps) == Credits(t, rps)[..k]
  {
  }

  /** Accepted requests are counted by their answers. */
  lemma {:induction false} AnswersCount(t: seq<real>, i: nat, j: nat, rps: real, burst: real)
    requires i <= j <= |t|
    ensures Trues(Answers(t, rps, burst)[i..j]) == AcceptedAt(t, i, j, rps, burst)
    decreases j - i
  {
    var a := Answers(t, rps, burst);
    if i < j {
      AnswersCount(t, i, j - 1, rps, burst);
      assert a[i..j][..j - 1 - i] == a[i..j - 1];
      CreditsPrefix(t, j, rps);
    }
  }

  lemma AnswersAppend(t: seq<real>, now: real, rps: real, burst: real)
    ensures Answers(t + [now], rps, burst) == Answers(t, rps, burst) + [Fits(t + [now], rps, burst)]
  {
    ExactTokenBucket(t + [now], rps, burst);
    var longer := Answers(t + [now], rps, burst);
    forall k | 0 <= k < |t| ensures longer[k] == Answers(t, rps, burst)[k] {
      assert (t + [now])[..k + 1] == t[..k + 1];
    }
    assert (t + [now])[..|t| + 1] == t + [now];
  }

  /** The last request fits: from each earlier-or-equal one on, the accepted ones plus this one
      are at most size + rate * elapsed. */
  predicate Allowed(t: seq<real>, a: seq<bool>, rate: real, size: real)
    requires t != [] && |a| == |t|
  {
    var n := |t| - 1;
    forall i | 0 <= i <= n :: Trues(a[i..n]) as real + 1.0 <= size + rate * (t[n] - t[i])
  }

  lemma AllowedIsFits(t: seq<real>, rps: real, burst: real)
    requires t != []
    ensures Allowed(t, Answers(t, rps, burst), rps, burst) <==> Fits(t, rps, burst)
  {
    var n := |t| - 1;
    forall i | 0 <= i <= n ensures Trues(Answers(t, rps, burst)[i..n]) == AcceptedAt(t, i, n, rps, burst) {
      AnswersCount(t, i, n, rps, burst);
    }
  }

  /** A fresh bucket accepts exactly its size at one instant. */
  lemma {:induction false} BurstAtOnce(now: real, n: nat, rps: real, size: nat)
    ensures Fits(seq(n + 1, _ => now), rps, size as real) <==> n < size
  {
    var t := seq(n + 1, _ => now);
    var u := Credits(t, rps);
    SameCredits(u, Credit(now, rps), size);
    ExactTokenBucket(t, rps, size as real);
  }

  lemma {:induction false} SameCredits(u: seq<real>, x: real, size: nat)
    requires u != [] && forall k | 0 <= k < |u| :: u[k] == x
    ensures Level(u, size as real) == if |u| <= size then (size - |u| + 1) as real else 0.0
  {
    if |u| > 1 { SameCredits(u[..|u| - 1], x, size); }
  }

  // ---------- the limiter ----------

  /** A bucket as its requests so far leave it; a new bucket is full. */
  function BucketAfter(t: seq<real>, now: real, rps: real, burst: real): Bucket {
    if t == [] then Bucket(burst, now) else Bucket(Left(Credits(t, rps), burst), t[|t| - 1])
  }

  function Earned(b: Bucket, now: real, rps: real): real {
    (now - b.last) * rps
  }

  function Refilled(b: Bucket, now: real, rps: real, burst: real): real {
    var filled := b.tokens + Earned(b, now, rps);
    if filled > burst then burst else filled
  }

  lemma CreditsAppend(t: seq<real>, now: real, rps: real)
    ensures Credits(t + [now], rps) == Credits(t, rps) + [Credit(now, rps)]
  {
  }

  lemma NextLevel(t: seq<real>, now: real, rps: real, burst: real)
    ensures Level(Credits(t + [now], rps), burst) == Refilled(BucketAfter(t, now, rps, burst), now, rps, burst)
  {
    CreditsAppend(t, now, rps);
    var u, x := Credits(t, rps), Credit(now, rps);
    assert (u + [x])[..|u|] == u;
    if t != [] {
      Distribute(t[|t| - 1], now, rps);
    } else {
      Distribute(now, now, rps);
    }
  }

  lemma NextRequest(t: seq<real>, now: real, rps: real, burst: real)
    ensures var level := Refilled(BucketAfter(t, now, rps, burst), now, rps, burst);
            && BucketAfter(t + [now], now, rps, burst) == Bucket(if level < 1.0 then level else level - 1.0, now)
            && (level < 1.0 <==> !Fits(t + [now], rps, burst))
  {
    NextLevel(t, now, rps, burst);
    ExactTokenBucket(t + [now], rps, burst);
  }

  predicate Follows(b: Bucket, t: seq<real>, rps: real, burst: real) {
    t != [] && b == BucketAfter(t, b.last, rps, burst)
  }

  /** Every live bucket is as its requests left it. */
  ghost predicate Tracks(buckets: map<string, Bucket>, since: map<string, seq<real>>, rps: real, burst: real) {
    && buckets.Keys == since.Keys
    && forall k {:trigger Follows(buckets[k], since[k], rps, burst)} | k in since ::
         Follows(buckets[k], since[k], rps, burst)
  }

  ghost function Requests(since: map<string, seq<real>>, key: string): seq<real> {
    if key in since then since[key] else []
  }

  /** The request times after one more request; a full limiter forgets everyone else when
      the key is new. */
  ghost function Logged(since: map<string, seq<real>>, key: string, now: real, full: bool): map<string, seq<real>> {
    var kept := if full && key !in since then map[] else since;
    kept[key := Requests(since, key) + [now]]
  }

  ghost function LoggedAnswer(answers: map<string, seq<bool>>, key: string, ok: bool, full: bool)
    : map<string, seq<bool>>
  {
    var kept := if full && key !in answers then map[] else answers;
    kept[key := (if key in answers then answers[key] else []) + [ok]]
  }

  /** The answers kept for each live bucket are those its requests got. */
  ghost predicate Remembers(since: map<string, seq<real>>, answers: map<string, seq<bool>>, rps: real, burst: real) {
    answers.Keys == since.Keys && forall k | k in since :: answers[k] == Answers(since[k], rps, burst)
  }

  lemma RemembersNext(since: map<string, seq<real>>, answers: map<string, seq<bool>>, key: string, now: real, ok: bool,
                      full: bool, rps: real, burst: real)
    requires Remembers(since, answers, rps, burst)
    requires ok <==> Fits(Requests(since, key) + [now], rps, burst)
    ensures var t, a := Logged(since, key, now, full), LoggedAnswer(answers, key, ok, full);
            && Remembers(t, a, rps, burst) && (ok <==> Allowed(t[key], a[key], rps, burst))
  {
    var before := Requests(since, key);
    AnswersAppend(before, now, rps, burst);
    assert key !in since ==> Answers([], rps, burst) == [];
    AllowedIsFits(before + [now], rps, burst);
  }

  /** Writing back the requester's bucket leaves every other kept one as it was. */
  lemma TracksNext(buckets: map<string, Bucket>, since: map<string, seq<real>>, key: string,
                   b: Bucket, now: real, full: bool, rps: real, burst: real)
    requires Tracks(buckets, since, rps, burst)
    requires b == BucketAfter(Requests(since, key) + [now], now, rps, burst)
    ensures Tracks((if full && key !in buckets then map[] else buckets)[key := b],
                   Logged(since, key, now, full), rps, burst)
  {
    var kept := (if full && key !in buckets then map[] else buckets)[key := b];
    var next := Logged(since, key, now, full);
    forall k | k in next ensures Follows(kept[k], next[k], rps, burst) {
      if k != key {
        assert Follows(buckets[k], since[k], rps, burst);
      }
    }
  }

  lemma SizeAfterWrite<V>(m: map<string, V>, key: string, v: V)
    ensures |m[key := v]| == if key in m then |m| else |m| + 1
  {
    assert m[key := v].Keys == m.Keys + {key};
    assert |m.Keys| == |m| && |m[key := v].Keys| == |m[key := v]|;
  }

  lemma Overwrite<V>(m: map<string, V>, key: string, v: V, w: V)
    ensures m[key := v][key := w] == m[key := w]
  {
  }

  /** What is left of the others' buckets: nothing when a new caller meets a full limiter. */
  function Kept(buckets: map<string, Bucket>, key: string, full: bool): map<string, Bucket> {
    if full && key !in buckets then map[] else buckets
  }

  lemma KeptIsBounded(buckets: map<string, Bucket>, key: string, b: Bucket)
    requires |buckets| <= MAX_BUCKETS
    ensures |Kept(buckets, key, |buckets| == MAX_BUCKETS)[key := b]| <= MAX_BUCKETS
  {
    SizeAfterWrite(Kept(buckets, key, |buckets| == MAX_BUCKETS), key, b);
  }

  /** Serving one request keeps the limiter's books right, and the answer is the law's. */
  lemma RequestServed(buckets: map<string, Bucket>, since: map<string, seq<real>>, answers: map<string, seq<bool>>,
                      key: string, b: Bucket, spent: Bucket, ok: bool, now: real, full: bool, rps: real, burst: real)
    requires |buckets| <= MAX_BUCKETS && full == (|buckets| == MAX_BUCKETS)
    requires Tracks(buckets, since, rps, burst) && Remembers(since, answers, rps, burst)
    requires b == if key in buckets then buckets[key] else Bucket(burst, now)
    requires var level := Refilled(b, now, rps, burst);
             ok == (level >= 1.0) && spent == Bucket(if level < 1.0 then level else level - 1.0, now)
    ensures var next := Kept(buckets, key, full)[key := b][key := spent];
            var t, a := Logged(since, key, now, full), LoggedAnswer(answers, key, ok, full);
            && |next| <= MAX_BUCKETS && Tracks(next, t, rps, burst) && Remembers(t, a, rps, burst)
            && |a[key]| == |t[key]| && (ok <==> Allowed(t[key], a[key], rps, burst))
  {
    var before := Requests(since, key);
    if key in buckets { assert Follows(buckets[key], since[key], rps, burst); }
    assert b == BucketAfter(before, now, rps, burst);
    NextRequest(before, now, rps, burst);
    TracksNext(buckets, since, key, spent, now, full, rps, burst);
    RemembersNext(since, answers, key, now, ok, full, rps, burst);
    Overwrite(Kept(buckets, key, full), key, b, spent);
    KeptIsBounded(buckets, key, spent);
  }

  /** Refill a bucket and take a token if a whole one is there. */
  method Take(b: Bucket, now: real, rps: real, burst: real) returns (spent: Bucket, ok: bool)
    ensures var level := Refilled(b, now, rps, burst);
            ok == (level >= 1.0) && spent == Bucket(if level < 1.0 then level else level - 1.0, now)
  {
    var tokens := b.tokens + Earned(b, now, rps);
    if tokens > burst {
      tokens := burst;
    }
    if tokens < 1.0 {
      return Bucket(tokens, now), false;
    }
    tokens := tokens - 1.0;
    return Bucket(tokens, now), true;
  }

  class RateLimiter {
    const cfg: Config
    var buckets: map<string, Bucket>
    /** The request times of every live bucket since it was created. */
    ghost var since: map<string, seq<real>>
    /** The answers those requests got. */
    ghost var answers: map<string, seq<bool>>

    ghost predicate Valid()
      reads this
    {
      |buckets| <= MAX_BUCKETS && Tracks(buckets, since, Rps(cfg), Burst(cfg)) &&
      Remembers(since, answers, Rps(cfg), Burst(cfg))
    }

    constructor (cfg: Config)
      ensures Valid() && this.cfg == cfg && since == map[] && answers == map[]
    {
      this.cfg := cfg;
      buckets, since, answers := map[], map[], map[];
    }

    /** The caller's bucket, new and full if it has none; the 100001st drops all others. */
    method BucketOf(key: string, now: real, burst: real) returns (b: Bucket)
      requires |buckets| <= MAX_BUCKETS
      modifies this`buckets
      ensures b == if key in old(buckets) then old(buckets)[key] else Bucket(burst, now)
      ensures buckets == Kept(old(buckets), key, |old(buckets)| == MAX_BUCKETS)[key := b]
    {
      SizeAfterWrite(buckets, key, Bucket(burst, now));
      if key in buckets {
        b := buckets[key];
      } else {
        b := Bucket(burst, now);
        buckets := buckets[key := b];
        if |buckets| > MAX_BUCKETS {
          buckets := map[key := b];
        }
      }
    }

    /** One request. A new caller starts a bucket; the 100001st bucket drops all others.
        The answer is the exact law on the caller's requests in the order they are applied,
        whoever else is calling and whatever their clock readings. */
    method Allow(key: string, now: real) returns (ok: bool)
      requires Valid()
      modifies this
      ensures Valid() && key in since && key in answers && |answers[key]| == |since[key]| > 0
      ensures since == Logged(old(since), key, now, |old(buckets)| == 100_000)
      ensures answers == LoggedAnswer(old(answers), key, ok, |old(buckets)| == 100_000)
      ensures var rate := if cfg.Config? && cfg.rps > 0 then cfg.rps as real else 20.0;
              var size := if cfg.Config? && cfg.burst > 0 then cfg.burst as real else 40.0;
              ok <==> Allowed(since[key], answers[key], rate, size)
    {
      var rps, burst := Rps(cfg), Burst(cfg);
      LimitsAreSettings(cfg);
      ghost var full := |buckets| == MAX_BUCKETS;
      var b := BucketOf(key, now, burst);
      var spent: Bucket;
      spent, ok := Take(b, now, rps, burst);
      RequestServed(old(buckets), since, answers, key, b, spent, ok, now, full, rps, burst);
      buckets := buckets[key := spent];
      answers := LoggedAnswer(answers, key, ok, full);
      since := Logged(since, key, now, full);
    }
  }
}
