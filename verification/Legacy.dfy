/** The Redis-only retry path: a failed stream entry is requeued with one more attempt and
    after three retries put in the stream's dead-letter queue. Adding the copy comes
    before acknowledging the original. */
module Legacy {
  import opened Lifecycle
  import opened Wire
  import Queue

  const MAX_RETRIES := 3
  const EXCEEDED := "max retries exceeded"
  const MALFORMED := "malformed message"

  /** The attempt a requeue counts from. */
  function GetAttempt(m: Fields): int {
    if Attempt !in m then 0
    else
      match m[Attempt]
      case Str(s) => if Exact(s) then Atoi(s) else 0
      case Int64(_) => ParseNum(m, Attempt)
      case Float(_) => ParseNum(m, Attempt)
      case _ => 0
  }

  function Requeued(m: Fields): Fields {
    m[Attempt := Str(Itoa(GetAttempt(m) + 1))]
  }

  datatype Delivery = Handled(attempt: int) | Malformed

  /** What a consumer makes of an entry when there is no database. */
  function Delivered(c: Codec, m: Fields): Delivery {
    if ParseJob(c, m).Ok? then Handled(ParseJob(c, m).value.attempts)
    else if FromFields(c, m).Ok? then Handled(ToInt16(FromFields(c, m).value.attempt))
    else Malformed
  }

  /** The entry counts a attempts. */
  predicate Counts(m: Fields, a: int) {
    if Attempt in m then m[Attempt] == Str(Itoa(a)) else a == 0
  }

  lemma CountGrows(m: Fields, a: Int16)
    requires Counts(m, a)
    ensures GetAttempt(m) == a && Counts(Requeued(m), a + 1)
  {
    AtoiItoa(a);
  }

  lemma CountIsRead(c: Codec, m: Fields, a: Int16)
    requires Counts(m, a)
    ensures (Delivered(c, m).Handled? ==> Delivered(c, m).attempt == a)
  {
    AtoiItoa(a);
  }

  lemma SameLookups(m: Fields, a: string, f: Field)
    requires f != Attempt
    ensures Lookup(m[Attempt := Str(a)], f) == Lookup(m, f)
  {
  }

  /** A requeued entry is understood exactly when the original is. */
  lemma RequeueIsRead(c: Codec, m: Fields, a: Int16)
    requires Counts(m, a)
    ensures Delivered(c, m).Malformed? <==> Delivered(c, Requeued(m)).Malformed?
  {
    CountGrows(m, a);
    forall f: Field | f != Attempt ensures Lookup(Requeued(m), f) == Lookup(m, f) {
      SameLookups(m, Itoa(GetAttempt(m) + 1), f);
    }
  }

  /** What a consumer makes of each entry. */
  type Reader = Fields -> Delivery

  /** A reader that counts attempts in the attempt field alone. */
  ghost predicate Counting(read: Reader) {
    && (forall m: Fields, a: Int16 | Counts(m, a) && read(m).Handled? :: read(m).attempt == a)
    && forall m: Fields, a: Int16 | Counts(m, a) :: read(Requeued(m)).Malformed? <==> read(m).Malformed?
  }

  function Consumer(c: Codec): Reader {
    m => Delivered(c, m)
  }

  lemma ConsumerCounts(c: Codec)
    ensures Counting(Consumer(c))
  {
    forall m: Fields, a: Int16 | Counts(m, a)
      ensures Consumer(c)(m).Handled? ==> Consumer(c)(m).attempt == a
      ensures Consumer(c)(Requeued(m)).Malformed? <==> Consumer(c)(m).Malformed?
    {
      CountIsRead(c, m, a);
      RequeueIsRead(c, m, a);
    }
  }

  // ---------- dead-letter names ----------

  function DlqStream(name: string): string {
    if Queue.HasPrefix(name, "stream:") then "dlq:" + name[7..] else "dlq:" + name
  }

  lemma EmailIsPrefixed(high: bool)
    ensures Queue.HasPrefix(Queue.RouteOf("email", high).stream, "stream:")
  {
  }

  lemma FileIsPrefixed(high: bool)
    ensures Queue.HasPrefix(Queue.RouteOf("file_processing", high).stream, "stream:")
  {
  }

  lemma ExecIsPrefixed(high: bool)
    ensures Queue.HasPrefix(Queue.RouteOf("exec_processing", high).stream, "stream:")
  {
  }

  lemma RoutesArePrefixed(name: string, high: bool)
    ensures Queue.RouteOf(name, high).Route? ==> Queue.HasPrefix(Queue.RouteOf(name, high).stream, "stream:")
  {
    if name == "email" {
      EmailIsPrefixed(high);
    } else if name == "file" || name == "file_processing" {
      assert Queue.RouteOf(name, high) == Queue.RouteOf("file_processing", high);
      FileIsPrefixed(high);
    } else if name == "exec" || name == "exec_processing" {
      assert Queue.RouteOf(name, high) == Queue.RouteOf("exec_processing", high);
      ExecIsPrefixed(high);
    }
  }

  lemma DlqNames(s1: string, s2: string)
    requires Queue.HasPrefix(s1, "stream:") && Queue.HasPrefix(s2, "stream:")
    ensures (DlqStream(s1) == DlqStream(s2) <==> s1 == s2) && DlqStream(s1) != s2
  {
    assert s1 == s1[..7] + s1[7..] && s2 == s2[..7] + s2[7..];
    assert DlqStream(s1)[4..] == s1[7..] && DlqStream(s2)[4..] == s2[7..];
    assert DlqStream(s1)[0] == 'd' && s2[..7][0] == 's';
  }

  /** The dead-letter streams by name. */
  lemma DlqOf(pool: string, high: bool)
    requires pool in {"email", "file_processing", "exec_processing"}
    ensures var level := if high then ":high" else ":low";
            DlqStream("stream:queue:" + pool + level) == "dlq:queue:" + pool + level
  {
    var level := if high then ":high" else ":low";
    var s := "stream:queue:" + pool + level;
    assert "stream:queue:"[..7] == "stream:" && "stream:queue:"[7..] == "queue:";
    assert s[..7] == "stream:" && s[7..] == "queue:" + pool + level;
    assert "dlq:" + ("queue:" + pool + level) == "dlq:queue:" + pool + level;
  }

  /** Different served streams have different dead-letter queues, none of them served. */
  lemma DlqIsPerStream(name1: string, high1: bool, name2: string, high2: bool)
    requires Queue.RouteOf(name1, high1).Route? && Queue.RouteOf(name2, high2).Route?
    ensures var s1, s2 := Queue.RouteOf(name1, high1).stream, Queue.RouteOf(name2, high2).stream;
            (DlqStream(s1) == DlqStream(s2) <==> s1 == s2) && DlqStream(s1) != s2
  {
    RoutesArePrefixed(name1, high1);
    RoutesArePrefixed(name2, high2);
    DlqNames(Queue.RouteOf(name1, high1).stream, Queue.RouteOf(name2, high2).stream);
  }

  // ---------- one stream with its group ----------

  datatype Buried = Buried(id: nat, values: Fields, reason: string)

  /** Entry ids are positions; origin names the posted entry a copy descends from. An
      entry waits until delivered, then pending until acknowledged; done entries were
      acknowledged after success, and those before `first` are trimmed away. */
  datatype State = State(
    cap: nat,
    entries: seq<Fields>,
    origin: seq<nat>,
    waiting: set<nat>,
    pending: set<nat>,
    done: set<nat>,
    first: nat,
    dead: seq<Buried>)

  const DEFAULT_STREAM_MAX_LEN := 50_000

  /** No stream is ever without a cap. */
  function EffectiveMaxLen(maxLen: int): (cap: nat)
    ensures cap >= 1
    ensures maxLen > 0 ==> cap == maxLen
    ensures maxLen <= 0 ==> cap == 50_000
  {
    if maxLen > 0 then maxLen else DEFAULT_STREAM_MAX_LEN
  }

  function Empty(maxLen: int): State {
    State(EffectiveMaxLen(maxLen), [], [], {}, {}, {}, 0, [])
  }

  /** A failure may crash between adding the copy and acknowledging the original. Every XADD
      has a MAXLEN; what it trims, oldest first and only while more than the cap are left, from
      the stream or from the dead-letter stream is a move of its own. */
  datatype Move =
    | Post(values: Fields)
    | Deliver(id: nat)
    | Trim
    | TrimDead
    | HandlerSucceeds(id: nat)
    | HandlerFails(id: nat, crash: bool)

  predicate CanMove(read: Reader, s: State, m: Move) {
    match m
    case Post(_) => true
    case Deliver(id) => id in s.waiting && id >= s.first
    case Trim => |s.entries| > s.first + s.cap
    case TrimDead => |s.dead| > s.cap
    case HandlerSucceeds(id) => id < |s.entries| && id !in s.waiting && read(s.entries[id]).Handled?
    case HandlerFails(id, _) => id < |s.entries| && id !in s.waiting
  }

  function Add(s: State, values: Fields, origin: nat): (t: State)
    requires Ids(s)
    requires origin <= |s.entries|
    ensures Ids(t)
  {
    s.(entries := s.entries + [values], origin := s.origin + [origin], waiting := s.waiting + {|s.entries|})
  }

  function Acked(s: State, id: nat): State {
    s.(pending := s.pending - {id})
  }

  predicate Retries(d: Delivery) {
    d.Handled? && d.attempt < MAX_RETRIES
  }

  function Reason(d: Delivery): string {
    if d.Handled? then EXCEEDED else MALFORMED
  }

  /** The copy a failure leaves; none when the entry can no longer be read. */
  function Copied(s: State, id: nat, d: Delivery): (t: State)
    requires Ids(s) && id < |s.entries|
    ensures Ids(t)
  {
    if Retries(d) then Add(s, Requeued(s.entries[id]), s.origin[id])
    else s.(dead := s.dead + [Buried(id, s.entries[id], Reason(d))])
  }

  function Next(read: Reader, s: State, m: Move): (t: State)
    requires CanMove(read, s, m) && Ids(s)
    ensures Ids(t)
  {
    match m
    case Post(values) => Add(s, values, |s.entries|)
    case Deliver(id) => s.(waiting := s.waiting - {id}, pending := s.pending + {id})
    case Trim => s.(first := s.first + 1)
    case TrimDead => s.(dead := s.dead[1..])
    case HandlerSucceeds(id) => Acked(s, id).(done := s.done + {id})
    case HandlerFails(id, crash) =>
      if id < s.first then s
      else
        var copied := Copied(s, id, read(s.entries[id]));
        if crash then copied else Acked(copied, id)
  }

  predicate Below(ids: set<nat>, n: nat) {
    forall i | i in ids :: i < n
  }

  predicate Ids(s: State) {
    && |s.origin| == |s.entries|
    && (forall i | 0 <= i < |s.origin| :: s.origin[i] <= i)
    && Below(s.waiting, |s.entries|) && Below(s.pending, |s.entries|)
    && Below(s.done, |s.entries|) && s.first <= |s.entries| && 1 <= s.cap
    && forall b | b in s.dead :: b.id < |s.entries| && b.values == s.entries[b.id]
  }

  ghost predicate Run(read: Reader, s: State, moves: seq<Move>)
    requires Ids(s)
    decreases |moves|
  {
    moves == [] || (CanMove(read, s, moves[0]) && Run(read, Next(read, s, moves[0]), moves[1..]))
  }

  ghost function After(read: Reader, s: State, moves: seq<Move>): (t: State)
    requires Ids(s) && Run(read, s, moves)
    ensures Ids(t)
    decreases |moves|
  {
    if moves == [] then s else After(read, Next(read, s, moves[0]), moves[1..])
  }

  // ---------- copies of a message ----------

  predicate IsCopy(s: State, o: nat, i: nat) {
    i < |s.origin| && s.origin[i] == o
  }

  predicate Posted(s: State, o: nat) {
    IsCopy(s, o, o)
  }

  /** Where a copy of a message can be: in the stream, waiting or pending; done; or at some
      position of the dead-letter stream. */
  datatype Place = InStream(id: nat) | Done(id: nat) | Dead(n: nat)

  /** A trimmed entry is a copy no more: it can neither be delivered nor requeued. */
  predicate At(s: State, o: nat, p: Place) {
    match p
    case InStream(i) => IsCopy(s, o, i) && (i in s.waiting || i in s.pending) && i >= s.first
    case Done(i) => IsCopy(s, o, i) && i in s.done
    case Dead(n) => n < |s.dead| && IsCopy(s, o, s.dead[n].id)
  }

  ghost predicate HasCopy(s: State, o: nat) {
    exists p :: At(s, o, p)
  }

  ghost predicate SingleCopy(s: State, o: nat) {
    forall p, q | At(s, o, p) && At(s, o, q) :: p == q
  }

  /** Every posted message has a copy. */
  ghost predicate Kept(s: State) {
    forall o | Posted(s, o) :: HasCopy(s, o)
  }

  predicate IsTrim(m: Move) {
    m.Trim? || m.TrimDead?
  }

  /** No delivery, success, failure, crash or repeated handling removes a message's last copy. */
  lemma MoveKeepsCopy(read: Reader, s: State, m: Move, o: nat)
    requires Ids(s) && CanMove(read, s, m) && !IsTrim(m) && HasCopy(s, o)
    ensures HasCopy(Next(read, s, m), o)
  {
    var t := Next(read, s, m);
    var p :| At(s, o, p);
    if m.HandlerFails? {
      FailureKeepsCopy(read, s, m, o, p);
    } else if m.HandlerSucceeds? && p == InStream(m.id) {
      assert At(t, o, Done(m.id));
    } else {
      assert At(t, o, p);
    }
  }

  lemma FailureKeepsCopy(read: Reader, s: State, m: Move, o: nat, p: Place)
    requires Ids(s) && m.HandlerFails? && CanMove(read, s, m) && At(s, o, p)
    ensures HasCopy(Next(read, s, m), o)
  {
    var t := Next(read, s, m);
    if p == InStream(m.id) {
      if Retries(read(s.entries[m.id])) {
        assert At(t, o, InStream(|s.entries|));
      } else {
        assert At(t, o, Dead(|s.dead|));
      }
    } else {
      assert At(t, o, p);
    }
  }

  function TrimmedPlace(s: State, m: Move): Place
    requires IsTrim(m)
  {
    if m.Trim? then InStream(s.first) else Dead(0)
  }

  ghost predicate OnlyCopy(s: State, o: nat, p: Place) {
    At(s, o, p) && forall q | At(s, o, q) :: q == p
  }

  /** The trim hits some message's only copy. */
  ghost predicate Loses(s: State, m: Move)
    requires IsTrim(m)
  {
    exists o :: Posted(s, o) && OnlyCopy(s, o, TrimmedPlace(s, m))
  }

  /** Where a place was before a trim; the dead-letter stream moves up. */
  function Before(m: Move, p: Place): Place {
    if m.TrimDead? && p.Dead? then Dead(p.n + 1) else p
  }

  lemma TrimPlaces(read: Reader, s: State, m: Move, o: nat, p: Place)
    requires Ids(s) && IsTrim(m) && CanMove(read, s, m)
    ensures At(Next(read, s, m), o, p) <==> At(s, o, Before(m, p)) && Before(m, p) != TrimmedPlace(s, m)
  {
  }

  lemma TrimKeepsCopy(read: Reader, s: State, m: Move, o: nat)
    requires Ids(s) && IsTrim(m) && CanMove(read, s, m) && HasCopy(s, o)
    ensures HasCopy(Next(read, s, m), o) <==> !OnlyCopy(s, o, TrimmedPlace(s, m))
  {
    var t := Next(read, s, m);
    if p :| At(t, o, p) {
      TrimPlaces(read, s, m, o, p);
    }
    if !OnlyCopy(s, o, TrimmedPlace(s, m)) {
      var q :| At(s, o, q) && q != TrimmedPlace(s, m);
      var p := if m.TrimDead? && q.Dead? then Dead(q.n - 1) else q;
      TrimPlaces(read, s, m, o, p);
      assert At(t, o, p);
    }
  }

  /** A trim keeps a copy of every message if and only if what it trims is not some message's
      only copy. */
  lemma TrimKeepsUnlessLoses(read: Reader, s: State, m: Move)
    requires Ids(s) && Kept(s) && IsTrim(m) && CanMove(read, s, m)
    ensures Kept(Next(read, s, m)) <==> !Loses(s, m)
  {
    var t := Next(read, s, m);
    forall o ensures Posted(t, o) <==> Posted(s, o) {}
    forall o | Posted(s, o) ensures HasCopy(t, o) <==> !OnlyCopy(s, o, TrimmedPlace(s, m)) {
      TrimKeepsCopy(read, s, m, o);
    }
  }

  lemma NextKeeps(read: Reader, s: State, m: Move)
    requires Ids(s) && Kept(s) && CanMove(read, s, m) && (IsTrim(m) ==> !Loses(s, m))
    ensures Kept(Next(read, s, m))
  {
    if IsTrim(m) {
      TrimKeepsUnlessLoses(read, s, m);
    } else {
      var t := Next(read, s, m);
      forall o | Posted(t, o) ensures HasCopy(t, o) {
        if o == |s.entries| {
          assert At(t, o, InStream(o));
        } else {
          assert Posted(s, o);
          MoveKeepsCopy(read, s, m, o);
        }
      }
    }
  }

  /** No trim along the run hits a message's only copy. */
  ghost predicate LosesNothing(read: Reader, s: State, moves: seq<Move>)
    requires Ids(s) && Run(read, s, moves)
    decreases |moves|
  {
    moves == [] ||
    ((IsTrim(moves[0]) ==> !Loses(s, moves[0])) && LosesNothing(read, Next(read, s, moves[0]), moves[1..]))
  }

  /** Whatever crashes, is redelivered or handled twice, and whatever is trimmed short of a
      message's only copy, every posted message keeps a copy that is in the stream, done or
      dead-lettered. */
  lemma {:induction false} NoTaskIsDropped(read: Reader, s: State, moves: seq<Move>)
    requires Ids(s) && Kept(s) && Run(read, s, moves) && LosesNothing(read, s, moves)
    ensures Kept(After(read, s, moves))
    decreases |moves|
  {
    if moves != [] {
      NextKeeps(read, s, moves[0]);
      NoTaskIsDropped(read, Next(read, s, moves[0]), moves[1..]);
    }
  }

  // ---------- a message lost by trimming ----------

  /** The message was trimmed before its first delivery. */
  ghost predicate Lost(s: State, o: nat) {
    && Posted(s, o) && (forall i | IsCopy(s, o, i) :: i == o)
    && o in s.waiting && o < s.first && o !in s.pending && o !in s.done && forall b | b in s.dead :: b.id != o
  }

  lemma NextKeepsLost(read: Reader, s: State, m: Move, o: nat)
    requires Ids(s) && CanMove(read, s, m) && Lost(s, o)
    ensures Lost(Next(read, s, m), o)
  {
    var t := Next(read, s, m);
    if m.HandlerFails? { assert !IsCopy(s, o, m.id); }
    forall i: nat | IsCopy(t, o, i) ensures i == o {
      if i < |s.entries| { assert IsCopy(s, o, i); }
    }
  }

  /** Nothing brings back a message trimmed before its first delivery. */
  lemma {:induction false} LostForGood(read: Reader, s: State, moves: seq<Move>, o: nat)
    requires Ids(s) && Lost(s, o) && Run(read, s, moves)
    ensures Lost(After(read, s, moves), o) && !HasCopy(After(read, s, moves), o)
    decreases |moves|
  {
    if moves != [] {
      NextKeepsLost(read, s, moves[0], o);
      LostForGood(read, Next(read, s, moves[0]), moves[1..], o);
    }
  }

  function Posts(values: Fields, n: nat): seq<Move> {
    if n == 0 then [] else [Post(values)] + Posts(values, n - 1)
  }

  /** Nothing but fresh posts so far: every entry waits and descends from itself. */
  ghost predicate Unread(s: State) {
    && Ids(s) && s.first == 0 && s.pending == {} && s.done == {} && s.dead == []
    && forall i | 0 <= i < |s.entries| :: s.origin[i] == i && i in s.waiting
  }

  lemma {:induction false} PostsWait(read: Reader, s: State, values: Fields, n: nat)
    requires Unread(s)
    ensures CarefulRun(read, s, Posts(values, n)) && Run(read, s, Posts(values, n))
    ensures var t := After(read, s, Posts(values, n));
            Unread(t) && |t.entries| == |s.entries| + n && t.cap == s.cap
    decreases n
  {
    if n > 0 {
      var s1 := Next(read, s, Post(values));
      assert Posts(values, n)[0] == Post(values) && Posts(values, n)[1..] == Posts(values, n - 1);
      assert Unread(s1);
      PostsWait(read, s1, values, n - 1);
    }
  }

  /** The losing input: one message more than the cap, before any is read. The oldest is
      trimmed; no handler ever sees it and no copy of it is left, without any crash. */
  lemma TrimLosesUnread(read: Reader, maxLen: int, values: Fields)
    ensures var moves := Posts(values, EffectiveMaxLen(maxLen) + 1) + [Trim];
            && CarefulRun(read, Empty(maxLen), moves) && Run(read, Empty(maxLen), moves)
            && Lost(After(read, Empty(maxLen), moves), 0)
  {
    var s, posts := Empty(maxLen), Posts(values, EffectiveMaxLen(maxLen) + 1);
    PostsWait(read, s, values, EffectiveMaxLen(maxLen) + 1);
    var full := After(read, s, posts);
    assert [Trim][1..] == [];
    assert CarefulRun(read, full, [Trim]) && Run(read, full, [Trim]);
    assert After(read, full, [Trim]) == Next(read, full, Trim);
    RunOn(read, s, posts, [Trim]);
  }

  // ---------- a copy is the same task ----------

  /** Every field but the attempt. */
  predicate SameTask(m: Fields, n: Fields) {
    forall f: Field | f != Attempt :: (f in m <==> f in n) && (f in m ==> m[f] == n[f])
  }

  ghost predicate TasksKept(s: State)
    requires Ids(s)
  {
    forall i | 0 <= i < |s.entries| :: SameTask(s.entries[i], s.entries[s.origin[i]])
  }

  lemma NextKeepsTasks(read: Reader, s: State, m: Move)
    requires Ids(s) && TasksKept(s) && CanMove(read, s, m)
    ensures TasksKept(Next(read, s, m))
  {
  }

  /** In any run, crashed, doubled or trimmed, each requeued and each dead-lettered copy carries
      the fields of the message it descends from, the attempt count apart. */
  lemma {:induction false} CopiesCarryTheTask(read: Reader, s: State, moves: seq<Move>)
    requires Ids(s) && TasksKept(s) && Run(read, s, moves)
    ensures TasksKept(After(read, s, moves))
    ensures forall b | b in After(read, s, moves).dead ::
              SameTask(b.values, After(read, s, moves).entries[After(read, s, moves).origin[b.id]])
    decreases |moves|
  {
    if moves != [] {
      NextKeepsTasks(read, s, moves[0]);
      CopiesCarryTheTask(read, Next(read, s, moves[0]), moves[1..]);
    }
  }

  // ---------- exactly one copy, three retries ----------

  /** Nothing crashes and only an entry still pending is settled. */
  predicate Careful(s: State, m: Move) {
    match m
    case HandlerSucceeds(id) => id in s.pending
    case HandlerFails(id, crash) => id in s.pending && !crash
    case _ => true
  }

  ghost predicate CarefulRun(read: Reader, s: State, moves: seq<Move>)
    requires Ids(s)
    decreases |moves|
  {
    moves == [] ||
    (CanMove(read, s, moves[0]) && Careful(s, moves[0]) && CarefulRun(read, Next(read, s, moves[0]), moves[1..]))
  }

  lemma {:induction false} CarefulIsRun(read: Reader, s: State, moves: seq<Move>)
    requires Ids(s) && CarefulRun(read, s, moves)
    ensures Run(read, s, moves)
    decreases |moves|
  {
    if moves != [] {
      CarefulIsRun(read, Next(read, s, moves[0]), moves[1..]);
    }
  }

  ghost predicate InDlq(s: State, i: nat) {
    exists b :: b in s.dead && b.id == i
  }

  /** Not yet let go: still named by the group's lists, trimmed or not, done or buried. */
  ghost predicate Held(s: State, i: nat) {
    i in s.waiting || i in s.pending || i in s.done || InDlq(s, i)
  }

  /** Every entry is in at most one place, and only the latest copy of a message is held. */
  ghost predicate Orderly(s: State)
    requires Ids(s)
  {
    && s.waiting !! s.pending !! s.done
    && (forall b | b in s.dead :: b.id !in s.waiting + s.pending + s.done)
    && (forall i, k | 0 <= i < k < |s.dead| :: s.dead[i].id != s.dead[k].id)
    && forall i, k | 0 <= i < k < |s.origin| && s.origin[i] == s.origin[k] :: !Held(s, i)
  }

  lemma NextKeepsOrder(read: Reader, s: State, m: Move)
    requires Ids(s) && Orderly(s) && CanMove(read, s, m) && Careful(s, m)
    ensures Orderly(Next(read, s, m))
  {
    var t := Next(read, s, m);
    forall i, k | 0 <= i < k < |t.origin| && t.origin[i] == t.origin[k] ensures !Held(t, i) {
      if k < |s.origin| {
        assert !Held(s, i);
        NotHeldAgain(read, s, m, i);
      } else if m.HandlerFails? {
        assert Held(s, m.id);
        if i == m.id {
          assert !InDlq(s, i);
        } else {
          assert !Held(s, i);
          NotHeldAgain(read, s, m, i);
        }
      }
    }
  }

  lemma NotHeldAgain(read: Reader, s: State, m: Move, i: nat)
    requires Ids(s) && CanMove(read, s, m) && Careful(s, m) && i < |s.entries| && !Held(s, i)
    ensures !Held(Next(read, s, m), i)
  {
    forall b | b in Next(read, s, m).dead ensures b.id != i {
      if b in s.dead {
        assert b.id == i ==> InDlq(s, i);
      }
    }
  }

  /** How many of the first n entries descend from o. */
  function Copies(origin: seq<nat>, o: nat, n: nat): nat
    requires n <= |origin|
  {
    if n == 0 then 0 else Copies(origin, o, n - 1) + if origin[n - 1] == o then 1 else 0
  }

  lemma {:induction false} CopiesPrefix(origin: seq<nat>, x: nat, o: nat, n: nat)
    requires n <= |origin|
    ensures Copies(origin + [x], o, n) == Copies(origin, o, n)
  {
    if n > 0 { CopiesPrefix(origin, x, o, n - 1); }
  }

  lemma {:induction false} CopiesAfterLast(origin: seq<nat>, o: nat, i: nat, n: nat)
    requires i < n <= |origin| && origin[i] == o
    requires forall k | i < k < n :: origin[k] != o
    ensures Copies(origin, o, n) == Copies(origin, o, i) + 1
  {
    if n > i + 1 { CopiesAfterLast(origin, o, i, n - 1); }
  }

  lemma {:induction false} NoCopiesBefore(origin: seq<nat>, o: nat, n: nat)
    requires n <= |origin| && n <= o && forall k | 0 <= k < |origin| :: origin[k] <= k
    ensures Copies(origin, o, n) == 0
  {
    if n > 0 { NoCopiesBefore(origin, o, n - 1); }
  }

  /** The n-th copy of a task posted with a attempts counts a + n, at most 3 once retried. */
  ghost predicate CopyCounts(s: State, o: nat, a: Int16, i: nat)
    requires Ids(s) && IsCopy(s, o, i) && Posted(s, o)
  {
    var n := Copies(s.origin, o, i);
    Counts(s.entries[i], a + n) && (n == 0 || a + n <= 3)
  }

  ghost predicate Counted(s: State, o: nat, a: Int16)
    requires Ids(s)
  {
    Posted(s, o) && Counts(s.entries[o], a) ==>
      forall i: nat | IsCopy(s, o, i) :: CopyCounts(s, o, a, i)
  }

  lemma RetryCounts(read: Reader, m: Fields, a: Int16)
    requires Counting(read) && Counts(m, a) && Retries(read(m))
    ensures a < MAX_RETRIES && Counts(Requeued(m), a + 1)
  {
    CountGrows(m, a);
  }

  lemma RequeueCounts(read: Reader, s: State, id: nat, o: nat, a: Int16)
    requires Counting(read) && Ids(s) && Orderly(s) && id in s.pending && IsCopy(s, o, id) && Posted(s, o)
    requires CopyCounts(s, o, a, id) && Retries(read(s.entries[id]))
    ensures CopyCounts(Acked(Add(s, Requeued(s.entries[id]), o), id), o, a, |s.entries|)
  {
    var n := |s.entries|;
    assert Copies(s.origin + [o], o, n) == Copies(s.origin, o, id) + 1 by {
      assert Held(s, id);
      CopiesAfterLast(s.origin, o, id, n);
      CopiesPrefix(s.origin, o, o, n);
    }
    RetryCounts(read, s.entries[id], a + Copies(s.origin, o, id));
  }

  lemma StillCounts(s: State, t: State, o: nat, a: Int16, i: nat)
    requires Ids(s) && Ids(t) && s.entries <= t.entries
    requires t.origin == s.origin || exists x :: t.origin == s.origin + [x]
    requires Posted(s, o) && IsCopy(s, o, i) && CopyCounts(s, o, a, i)
    ensures IsCopy(t, o, i) && Posted(t, o) && CopyCounts(t, o, a, i)
  {
    if t.origin != s.origin {
      var x :| t.origin == s.origin + [x];
      CopiesPrefix(s.origin, x, o, i);
    }
    assert t.entries[i] == s.entries[i] && t.entries[o] == s.entries[o];
  }

  lemma NextGrows(read: Reader, s: State, m: Move)
    requires Ids(s) && CanMove(read, s, m)
    ensures s.entries <= Next(read, s, m).entries && |Next(read, s, m).entries| <= |s.entries| + 1
    ensures Next(read, s, m).origin == s.origin || exists x :: Next(read, s, m).origin == s.origin + [x]
  {
  }

  lemma NewCopyCounts(read: Reader, s: State, m: Move, o: nat, a: Int16)
    requires Counting(read) && Ids(s) && Orderly(s) && Counted(s, o, a) && CanMove(read, s, m) && Careful(s, m)
    requires Posted(Next(read, s, m), o) && Counts(Next(read, s, m).entries[o], a)
    requires IsCopy(Next(read, s, m), o, |s.entries|)
    ensures CopyCounts(Next(read, s, m), o, a, |s.entries|)
  {
    if m.HandlerFails? {
      assert Posted(s, o) && IsCopy(s, o, m.id);
      RequeueCounts(read, s, m.id, o, a);
    } else {
      NoCopiesBefore(Next(read, s, m).origin, o, o);
    }
  }

  lemma CountsExtend(s: State, t: State, o: nat, a: Int16)
    requires Ids(s) && Ids(t) && s.entries <= t.entries && |t.entries| <= |s.entries| + 1
    requires t.origin == s.origin || exists x :: t.origin == s.origin + [x]
    requires Counted(s, o, a)
    requires Posted(t, o) && Counts(t.entries[o], a) && IsCopy(t, o, |s.entries|) ==> CopyCounts(t, o, a, |s.entries|)
    ensures Counted(t, o, a)
  {
    if Posted(t, o) && Counts(t.entries[o], a) {
      forall i: nat | IsCopy(t, o, i) ensures CopyCounts(t, o, a, i) {
        if i < |s.entries| {
          StillCounts(s, t, o, a, i);
        }
      }
    }
  }

  lemma NextKeepsCounts(read: Reader, s: State, m: Move, o: nat, a: Int16)
    requires Counting(read) && Ids(s) && Orderly(s) && Counted(s, o, a) && CanMove(read, s, m) && Careful(s, m)
    ensures Counted(Next(read, s, m), o, a)
  {
    var t := Next(read, s, m);
    NextGrows(read, s, m);
    if Posted(t, o) && Counts(t.entries[o], a) && IsCopy(t, o, |s.entries|) {
      NewCopyCounts(read, s, m, o, a);
    }
    CountsExtend(s, t, o, a);
  }

  /** Why an entry is in the dead-letter queue. */
  ghost predicate Reasoned(read: Reader, s: State) {
    forall b | b in s.dead ::
      match read(b.values)
      case Handled(attempt) => attempt >= 3 && b.reason == "max retries exceeded"
      case Malformed => b.reason == "malformed message"
  }

  lemma {:induction false} ReasonsOverRuns(read: Reader, s: State, moves: seq<Move>)
    requires Ids(s) && Reasoned(read, s) && Run(read, s, moves)
    ensures Reasoned(read, After(read, s, moves))
    decreases |moves|
  {
    if moves != [] {
      ReasonsOverRuns(read, Next(read, s, moves[0]), moves[1..]);
    }
  }

  lemma {:induction false} CarefulRuns(read: Reader, s: State, moves: seq<Move>, o: nat, a: Int16)
    requires Counting(read) && Ids(s) && Orderly(s) && Counted(s, o, a) && CarefulRun(read, s, moves)
    ensures Run(read, s, moves) && Orderly(After(read, s, moves)) && Counted(After(read, s, moves), o, a)
    decreases |moves|
  {
    if moves != [] {
      NextKeepsOrder(read, s, moves[0]);
      NextKeepsCounts(read, s, moves[0], o, a);
      CarefulRuns(read, Next(read, s, moves[0]), moves[1..], o, a);
    }
  }

  lemma {:induction false} OrderOverRuns(read: Reader, s: State, moves: seq<Move>)
    requires Ids(s) && Orderly(s) && CarefulRun(read, s, moves) && Run(read, s, moves)
    ensures Orderly(After(read, s, moves))
    decreases |moves|
  {
    if moves != [] {
      NextKeepsOrder(read, s, moves[0]);
      OrderOverRuns(read, Next(read, s, moves[0]), moves[1..]);
    }
  }

  lemma OrderlyIsSingle(s: State, o: nat)
    requires Ids(s) && Orderly(s)
    ensures SingleCopy(s, o)
  {
    forall p, q | At(s, o, p) && At(s, o, q) ensures p == q {
      var i, k := EntryOf(s, p), EntryOf(s, q);
      assert p.Dead? ==> s.dead[p.n] in s.dead;
      assert q.Dead? ==> s.dead[q.n] in s.dead;
      assert Held(s, i) && Held(s, k);
    }
  }

  function EntryOf(s: State, p: Place): nat
    requires p.Dead? ==> p.n < |s.dead|
  {
    if p.Dead? then s.dead[p.n].id else p.id
  }

  /** Without crashes and double handling a posted message never has two copies, and it has
      exactly one while no trim hits an only copy. */
  lemma ExactlyOneCopy(read: Reader, maxLen: int, moves: seq<Move>, o: nat)
    requires CarefulRun(read, Empty(maxLen), moves) && Run(read, Empty(maxLen), moves)
    requires Posted(After(read, Empty(maxLen), moves), o)
    ensures SingleCopy(After(read, Empty(maxLen), moves), o)
    ensures LosesNothing(read, Empty(maxLen), moves) ==> HasCopy(After(read, Empty(maxLen), moves), o)
  {
    OrderOverRuns(read, Empty(maxLen), moves);
    OrderlyIsSingle(After(read, Empty(maxLen), moves), o);
    if LosesNothing(read, Empty(maxLen), moves) { NoTaskIsDropped(read, Empty(maxLen), moves); }
  }

  /** The copy a recorded failure adds. */
  function AddedPlace(read: Reader, s: State, id: nat): Place
    requires id < |s.entries|
  {
    if Retries(read(s.entries[id])) then InStream(|s.entries|) else Dead(|s.dead|)
  }

  /** A failure of a readable entry adds its copy and takes away at most the entry itself. */
  lemma FailPlaces(read: Reader, s: State, id: nat, crash: bool, o: nat, p: Place)
    requires Ids(s) && CanMove(read, s, HandlerFails(id, crash)) && id >= s.first
    ensures var t := Next(read, s, HandlerFails(id, crash));
            At(t, o, p) <==>
            (p == AddedPlace(read, s, id) && o == s.origin[id]) ||
            (At(s, o, p) && (p == InStream(id) ==> crash))
  {
  }

  lemma SecondCopy(read: Reader, s: State, id: nat, crash: bool)
    requires Ids(s) && CanMove(read, s, HandlerFails(id, crash)) && id >= s.first
    requires (id !in s.pending || crash) && HasCopy(s, s.origin[id])
    ensures !SingleCopy(Next(read, s, HandlerFails(id, crash)), s.origin[id])
  {
    var o, t, added := s.origin[id], Next(read, s, HandlerFails(id, crash)), AddedPlace(read, s, id);
    var p :| At(s, o, p);
    FailPlaces(read, s, id, crash, o, p);
    FailPlaces(read, s, id, crash, o, added);
    assert At(t, o, p) && At(t, o, added) && p != added;
  }

  /** After any careful run, with any trimming, recording one more failure leaves no message
      with two copies if and only if the entry was trimmed, or is still pending and nothing
      crashes, or the message had no copy left. */
  lemma FailKeepsOneCopyExactly(read: Reader, maxLen: int, moves: seq<Move>, id: nat, crash: bool)
    requires CarefulRun(read, Empty(maxLen), moves) && Run(read, Empty(maxLen), moves)
    requires CanMove(read, After(read, Empty(maxLen), moves), HandlerFails(id, crash))
    ensures var s := After(read, Empty(maxLen), moves);
            (forall o :: SingleCopy(Next(read, s, HandlerFails(id, crash)), o)) <==>
            id < s.first || (id in s.pending && !crash) || !HasCopy(s, s.origin[id])
  {
    var s := After(read, Empty(maxLen), moves);
    var t := Next(read, s, HandlerFails(id, crash));
    OrderOverRuns(read, Empty(maxLen), moves);
    if id < s.first {
      forall o ensures SingleCopy(t, o) { OrderlyIsSingle(s, o); }
    } else if id in s.pending && !crash {
      NextKeepsOrder(read, s, HandlerFails(id, crash));
      forall o ensures SingleCopy(t, o) { OrderlyIsSingle(t, o); }
    } else if HasCopy(s, s.origin[id]) {
      SecondCopy(read, s, id, crash);
    } else {
      forall o ensures SingleCopy(t, o) {
        OrderlyIsSingle(s, o);
        forall p ensures At(t, o, p) ==> (p == AddedPlace(read, s, id) && o == s.origin[id]) || At(s, o, p) {
          FailPlaces(read, s, id, crash, o, p);
        }
      }
    }
  }

  ghost predicate Rooted(s: State) {
    forall i | 0 <= i < |s.origin| :: Posted(s, s.origin[i])
  }

  lemma NextKeepsRooted(read: Reader, s: State, m: Move)
    requires Ids(s) && Rooted(s) && CanMove(read, s, m)
    ensures Rooted(Next(read, s, m))
  {
    var t := Next(read, s, m);
    forall i | 0 <= i < |t.origin| ensures Posted(t, t.origin[i]) {
      if i < |s.origin| {
        assert Posted(s, s.origin[i]);
      } else if m.HandlerFails? {
        assert Posted(s, s.origin[m.id]);
      }
    }
  }

  lemma {:induction false} RootedOverRuns(read: Reader, s: State, moves: seq<Move>)
    requires Ids(s) && Rooted(s) && Run(read, s, moves)
    ensures Rooted(After(read, s, moves))
    decreases |moves|
  {
    if moves != [] {
      NextKeepsRooted(read, s, moves[0]);
      RootedOverRuns(read, Next(read, s, moves[0]), moves[1..]);
    }
  }

  /** After any careful run a trim loses a message if and only if it is one of the dead-letter
      stream, or the oldest stream entry is not acknowledged yet. */
  lemma TrimLosesExactly(read: Reader, maxLen: int, moves: seq<Move>, m: Move)
    requires CarefulRun(read, Empty(maxLen), moves) && Run(read, Empty(maxLen), moves)
    requires IsTrim(m) && CanMove(read, After(read, Empty(maxLen), moves), m)
    ensures var s := After(read, Empty(maxLen), moves);
            Loses(s, m) <==> m.TrimDead? || s.first in s.waiting || s.first in s.pending
  {
    var s := After(read, Empty(maxLen), moves);
    OrderOverRuns(read, Empty(maxLen), moves);
    RootedOverRuns(read, Empty(maxLen), moves);
    if m.TrimDead? || s.first in s.waiting || s.first in s.pending {
      var i := if m.TrimDead? then s.dead[0].id else s.first;
      assert m.TrimDead? ==> s.dead[0] in s.dead;
      var o := s.origin[i];
      assert Posted(s, o) && At(s, o, TrimmedPlace(s, m));
      OrderlyIsSingle(s, o);
      assert OnlyCopy(s, o, TrimmedPlace(s, m));
    }
  }

  /** While every message still has a copy after a careful run, a trim leaves it so if and only
      if it drops a stream entry already acknowledged. */
  lemma TrimKeepsCopiesExactly(read: Reader, maxLen: int, moves: seq<Move>, m: Move)
    requires CarefulRun(read, Empty(maxLen), moves) && Run(read, Empty(maxLen), moves)
    requires LosesNothing(read, Empty(maxLen), moves)
    requires IsTrim(m) && CanMove(read, After(read, Empty(maxLen), moves), m)
    ensures var s := After(read, Empty(maxLen), moves);
            Kept(s) && (Kept(Next(read, s, m)) <==> m.Trim? && s.first !in s.waiting && s.first !in s.pending)
  {
    var s := After(read, Empty(maxLen), moves);
    NoTaskIsDropped(read, Empty(maxLen), moves);
    TrimKeepsUnlessLoses(read, s, m);
    TrimLosesExactly(read, maxLen, moves, m);
  }

  function Requeues(a: Int16): nat {
    if a < 3 then 3 - a else 0
  }

  /** At most max(0, 3 - a) copies after the first; when retries bury the message, exactly that
      many, and the last counts max(a, 3). */
  ghost predicate Exhausted(s: State, o: nat, a: Int16)
    requires Ids(s)
  {
    && Copies(s.origin, o, |s.origin|) <= 1 + Requeues(a)
    && forall b | b in s.dead && s.origin[b.id] == o && b.reason == "max retries exceeded" ::
         Copies(s.origin, o, |s.origin|) == 1 + Requeues(a) && Counts(b.values, a + Requeues(a))
  }

  lemma CountedIsExhausted(read: Reader, s: State, o: nat, a: Int16)
    requires Counting(read) && Ids(s) && Orderly(s) && Counted(s, o, a) && Reasoned(read, s)
    requires Posted(s, o) && Counts(s.entries[o], a)
    ensures Exhausted(s, o, a)
  {
    var n := |s.origin|;
    var last := LastCopy(s.origin, o, n);
    CopiesAfterLast(s.origin, o, last, n);
    assert CopyCounts(s, o, a, last);
    forall b | b in s.dead && s.origin[b.id] == o && b.reason == EXCEEDED
      ensures Copies(s.origin, o, n) == 1 + Requeues(a) && Counts(b.values, a + Requeues(a))
    {
      BuriedIsExhausted(read, s, o, a, last, b);
    }
  }

  lemma BuriedIsExhausted(read: Reader, s: State, o: nat, a: Int16, last: nat, b: Buried)
    requires Counting(read) && Ids(s) && Orderly(s) && Reasoned(read, s) && Posted(s, o) && IsCopy(s, o, last)
    requires CopyCounts(s, o, a, last) && Copies(s.origin, o, |s.origin|) == Copies(s.origin, o, last) + 1
    requires forall i | last < i < |s.origin| :: s.origin[i] != o
    requires b in s.dead && s.origin[b.id] == o && b.reason == EXCEEDED
    ensures Copies(s.origin, o, |s.origin|) == 1 + Requeues(a) && Counts(b.values, a + Requeues(a))
  {
    assert Held(s, b.id);
    assert b.id == last && Counts(b.values, a + Copies(s.origin, o, last));
  }

  /** Without crashes and double handling, a task posted with a attempts is requeued at most
      max(0, 3 - a) times, and exactly that often before retries bury it. */
  lemma BuriedAfterThreeRetries(read: Reader, maxLen: int, moves: seq<Move>, o: nat, a: Int16)
    requires Counting(read) && CarefulRun(read, Empty(maxLen), moves) && Run(read, Empty(maxLen), moves)
    requires Posted(After(read, Empty(maxLen), moves), o) && Counts(After(read, Empty(maxLen), moves).entries[o], a)
    ensures Exhausted(After(read, Empty(maxLen), moves), o, a)
  {
    CarefulRuns(read, Empty(maxLen), moves, o, a);
    ReasonsOverRuns(read, Empty(maxLen), moves);
    CountedIsExhausted(read, After(read, Empty(maxLen), moves), o, a);
  }

  function LastCopy(origin: seq<nat>, o: nat, n: nat): (i: nat)
    requires o < n <= |origin| && origin[o] == o
    ensures i < n && origin[i] == o && forall k | i < k < n :: origin[k] != o
  {
    if origin[n - 1] == o then n - 1 else LastCopy(origin, o, n - 1)
  }

  // ---------- a task that keeps failing ----------

  /** Deliver and fail an entry, then its k requeued copies. */
  function FailingPath(id: nat, end: nat, k: nat): seq<Move>
    decreases k
  {
    [Deliver(id), HandlerFails(id, false)] + if k == 0 then [] else FailingPath(end, end + 1, k - 1)
  }

  lemma FailsOnce(read: Reader, s: State, id: nat, a: Int16)
    requires Counting(read) && Ids(s) && id in s.waiting && id >= s.first && Counts(s.entries[id], a)
    requires read(s.entries[id]).Handled?
    ensures CarefulRun(read, s, [Deliver(id), HandlerFails(id, false)])
    ensures Run(read, s, [Deliver(id), HandlerFails(id, false)])
    ensures After(read, s, [Deliver(id), HandlerFails(id, false)]) ==
            Acked(Copied(s.(waiting := s.waiting - {id}), id, Handled(a)), id)
  {
    CountGrows(s.entries[id], a);
    var moves, s1 := [Deliver(id), HandlerFails(id, false)], Next(read, s, Deliver(id));
    assert moves[1..] == [HandlerFails(id, false)] && moves[1..][1..] == [];
    assert After(read, s1, moves[1..]) == Next(read, s1, HandlerFails(id, false));
    assert s.pending + {id} - {id} == s.pending - {id};
  }

  lemma {:induction false} RunOn(read: Reader, s: State, m1: seq<Move>, m2: seq<Move>)
    requires Ids(s) && Run(read, s, m1) && Run(read, After(read, s, m1), m2)
    ensures Run(read, s, m1 + m2) && After(read, s, m1 + m2) == After(read, After(read, s, m1), m2)
    ensures CarefulRun(read, s, m1) && CarefulRun(read, After(read, s, m1), m2) ==> CarefulRun(read, s, m1 + m2)
    decreases |m1|
  {
    if m1 == [] {
      assert m1 + m2 == m2;
    } else {
      var m := m1 + m2;
      assert m[0] == m1[0] && m[1..] == m1[1..] + m2;
      RunOn(read, Next(read, s, m1[0]), m1[1..], m2);
    }
  }

  /** From s to t entry id, counting a, was requeued k times and its last copy buried;
      nothing else moved. */
  predicate EndsBuried(s: State, t: State, id: nat, a: int, k: nat)
    requires id < |s.entries|
  {
    && |t.entries| == |s.entries| + k && s.entries <= t.entries
    && (forall n | |s.entries| <= n < |t.entries| :: Counts(t.entries[n], a + 1 + n - |s.entries|))
    && t.waiting == s.waiting - {id} && t.pending == s.pending - {id} && t.done == s.done
    && var last := if k == 0 then id else |t.entries| - 1;
    t.dead == s.dead + [Buried(last, t.entries[last], EXCEEDED)]
  }

  lemma EndsBuriedStep(s: State, s1: State, t: State, id: nat, a: Int16, k: nat)
    requires Ids(s) && id < |s.entries| && Counts(s.entries[id], a)
    requires s1.entries == s.entries + [Requeued(s.entries[id])]
    requires s1.waiting == s.waiting - {id} + {|s.entries|} && s1.pending == s.pending - {id}
    requires s1.done == s.done && s1.dead == s.dead
    requires EndsBuried(s1, t, |s.entries|, a + 1, k)
    ensures EndsBuried(s, t, id, a, k + 1)
  {
    var end := |s.entries|;
    forall n | end <= n < |t.entries| ensures Counts(t.entries[n], a + 1 + n - end) {
      if n == end {
        assert t.entries[end] == s1.entries[end];
        CountGrows(s.entries[id], a);
      } else {
        assert Counts(t.entries[n], a + 1 + 1 + n - |s1.entries|);
      }
    }
    assert s.entries <= t.entries;
    assert s1.waiting - {end} == s.waiting - {id};
    assert s1.pending - {end} == s.pending - {id};
  }

  /** The careful run along moves takes s to t. */
  ghost predicate Takes(read: Reader, s: State, moves: seq<Move>, t: State) {
    Ids(s) && CarefulRun(read, s, moves) && Run(read, s, moves) && After(read, s, moves) == t
  }

  lemma TakesOn(read: Reader, s: State, m1: seq<Move>, s1: State, m2: seq<Move>, t: State)
    requires Takes(read, s, m1, s1) && Takes(read, s1, m2, t)
    ensures Takes(read, s, m1 + m2, t)
  {
    RunOn(read, s, m1, m2);
  }

  function FailedOnce(s: State, id: nat, a: int): State
    requires Ids(s) && id < |s.entries|
  {
    Acked(Copied(s.(waiting := s.waiting - {id}), id, Handled(a)), id)
  }

  lemma FailsFirst(read: Reader, s: State, id: nat, a: Int16, t: State)
    requires Counting(read) && Ids(s) && id in s.waiting && id >= s.first && Counts(s.entries[id], a)
    requires read(s.entries[id]).Handled? && a < MAX_RETRIES
    requires Takes(read, FailedOnce(s, id, a), FailingPath(|s.entries|, |s.entries| + 1, Requeues(a + 1)), t)
    requires EndsBuried(FailedOnce(s, id, a), t, |s.entries|, a + 1, Requeues(a + 1))
    ensures Takes(read, s, FailingPath(id, |s.entries|, Requeues(a)), t)
    ensures EndsBuried(s, t, id, a, Requeues(a))
  {
    var k, end := Requeues(a + 1), |s.entries|;
    var first := [Deliver(id), HandlerFails(id, false)];
    assert Requeues(a) == k + 1;
    assert Takes(read, s, FailingPath(id, end, k + 1), t) by {
      assert Takes(read, s, first, FailedOnce(s, id, a)) by { FailsOnce(read, s, id, a); }
      TakesOn(read, s, first, FailedOnce(s, id, a), FailingPath(end, end + 1, k), t);
      assert FailingPath(id, end, k + 1) == first + FailingPath(end, end + 1, k);
    }
    BuriedNext(read, s, id, a, t, k);
  }

  lemma BuriedNext(read: Reader, s: State, id: nat, a: Int16, t: State, k: nat)
    requires Ids(s) && id in s.waiting && Counts(s.entries[id], a) && a < MAX_RETRIES
    requires Ids(FailedOnce(s, id, a)) && EndsBuried(FailedOnce(s, id, a), t, |s.entries|, a + 1, k)
    ensures EndsBuried(s, t, id, a, k + 1)
  {
    EndsBuriedStep(s, FailedOnce(s, id, a), t, id, a, k);
  }

  lemma RequeueWaits(read: Reader, s: State, id: nat, a: Int16)
    requires Counting(read) && Ids(s) && id in s.waiting && Counts(s.entries[id], a) && a < MAX_RETRIES
    requires read(s.entries[id]).Handled?
    ensures var s1, end := FailedOnce(s, id, a), |s.entries|;
            && Ids(s1) && |s1.entries| == end + 1 && end in s1.waiting && end >= s1.first
            && Counts(s1.entries[end], a + 1) && read(s1.entries[end]).Handled?
  {
    CountGrows(s.entries[id], a);
    assert FailedOnce(s, id, a).entries[|s.entries|] == Requeued(s.entries[id]);
  }

  lemma FailsLast(read: Reader, s: State, id: nat, a: Int16)
    requires Counting(read) && Ids(s) && id in s.waiting && id >= s.first && Counts(s.entries[id], a)
    requires read(s.entries[id]).Handled? && a >= MAX_RETRIES
    ensures Takes(read, s, FailingPath(id, |s.entries|, Requeues(a)), FailedOnce(s, id, a))
    ensures EndsBuried(s, FailedOnce(s, id, a), id, a, Requeues(a))
  {
    FailsOnce(read, s, id, a);
    assert FailingPath(id, |s.entries|, 0) == [Deliver(id), HandlerFails(id, false)];
  }

  /** A task posted with a attempts that fails every time is requeued exactly max(0, 3 - a)
      times, each entry counting one more, and then its last copy is buried. */
  lemma {:induction false} KeepsFailing(read: Reader, s: State, id: nat, a: Int16) returns (t: State)
    requires Counting(read) && Ids(s) && id in s.waiting && id >= s.first && Counts(s.entries[id], a)
    requires read(s.entries[id]).Handled?
    ensures Takes(read, s, FailingPath(id, |s.entries|, Requeues(a)), t) && EndsBuried(s, t, id, a, Requeues(a))
    decreases MAX_RETRIES - a
  {
    if a < MAX_RETRIES {
      RequeueWaits(read, s, id, a);
      t := KeepsFailing(read, FailedOnce(s, id, a), |s.entries|, a + 1);
      assert |FailedOnce(s, id, a).entries| == |s.entries| + 1;
      FailsFirst(read, s, id, a, t);
    } else {
      t := FailedOnce(s, id, a);
      FailsLast(read, s, id, a);
    }
  }

  /** Two handlers of one redelivered entry both requeue it: the single copy is then lost. */
  lemma DoubleHandlingForks(read: Reader, maxLen: int, values: Fields)
    requires Counting(read) && Counts(values, 0) && read(values).Handled?
    ensures var moves := [Post(values), Deliver(0), HandlerFails(0, false), HandlerFails(0, false)];
            && Run(read, Empty(maxLen), moves) && After(read, Empty(maxLen), moves).waiting == {1, 2}
            && After(read, Empty(maxLen), moves).origin == [0, 0, 0]
  {
    var s1 := Next(read, Empty(maxLen), Post(values));
    FailsOnce(read, s1, 0, 0);
    var s3 := After(read, s1, [Deliver(0), HandlerFails(0, false)]);
    assert [HandlerFails(0, false)][1..] == [];
    var s4 := Next(read, s3, HandlerFails(0, false));
    assert After(read, s3, [HandlerFails(0, false)]) == s4;
    RunOn(read, s1, [Deliver(0), HandlerFails(0, false)], [HandlerFails(0, false)]);
    var moves := [Post(values), Deliver(0), HandlerFails(0, false), HandlerFails(0, false)];
    assert moves[1..] == [Deliver(0), HandlerFails(0, false)] + [HandlerFails(0, false)];
  }

  // ---------- the store ----------

  datatype Fault = NoFault | AddFails | AckFails

  datatype Outcome = Settled | NotFound | AddError | AckError

  /** One stream, its group and its dead-letter stream. */
  class RedisStore {
    const maxLen: int
    var entries: seq<Fields>
    var waiting: set<nat>
    var pending: set<nat>
    var first: nat
    var dead: seq<Buried>
    ghost var origin: seq<nat>
    ghost var done: set<nat>

    ghost function Contents(): State
      reads this
    {
      State(EffectiveMaxLen(maxLen), entries, origin, waiting, pending, done, first, dead)
    }

    constructor (maxLen: int)
      ensures this.maxLen == maxLen && Contents() == Empty(maxLen)
    {
      this.maxLen := maxLen;
      entries, waiting, pending, first, dead, origin, done := [], {}, {}, 0, [], [], {};
    }

    method XRange(id: nat) returns (values: Option<Fields>)
      ensures values == if id < |entries| && id >= first then Some(entries[id]) else None
    {
      if id < |entries| && id >= first {
        return Some(entries[id]);
      }
      return None;
    }

    method XAdd(values: Fields, ghost from: nat)
      requires Ids(Contents())
      requires from <= |entries|
      modifies this
      ensures Contents() == Add(old(Contents()), values, from)
    {
      waiting := waiting + {|entries|};
      entries, origin := entries + [values], origin + [from];
    }

    method AckJob(id: nat)
      modifies this`pending
      ensures Contents() == Acked(old(Contents()), id)
    {
      pending := pending - {id};
    }

    method RetryJob(id: nat, fault: Fault) returns (r: Outcome)
      requires Ids(Contents())
      modifies this
      ensures id >= |old(entries)| || id < old(first) ==> r == NotFound && Contents() == old(Contents())
      ensures id < |old(entries)| && id >= old(first) ==>
                var s := old(Contents());
                var t := Add(s, Requeued(s.entries[id]), s.origin[id]);
                match fault
                case NoFault => r == Settled && Contents() == Acked(t, id)
                case AddFails => r == AddError && Contents() == s
                case AckFails => r == AckError && Contents() == t
    {
      var values := XRange(id);
      if values.None? {
        return NotFound;
      }
      var attempt := GetAttempt(values.value);
      if fault == AddFails {
        return AddError;
      }
      XAdd(values.value[Attempt := Str(Itoa(attempt + 1))], origin[id]);
      if fault == AckFails {
        return AckError;
      }
      AckJob(id);
      return Settled;
    }

    method MoveToDeadLetterQueue(id: nat, reason: string, fault: Fault) returns (r: Outcome)
      requires Ids(Contents())
      modifies this
      ensures id >= |old(entries)| || id < old(first) ==> r == NotFound && Contents() == old(Contents())
      ensures id < |old(entries)| && id >= old(first) ==>
                var s := old(Contents());
                var t := s.(dead := s.dead + [Buried(id, s.entries[id], reason)]);
                match fault
                case NoFault => r == Settled && Contents() == Acked(t, id)
                case AddFails => r == AddError && Contents() == s
                case AckFails => r == AckError && Contents() == t
    {
      var values := XRange(id);
      if values.None? {
        return NotFound;
      }
      if fault == AddFails {
        return AddError;
      }
      dead := dead + [Buried(id, values.value, reason)];
      if fault == AckFails {
        return AckError;
      }
      AckJob(id);
      return Settled;
    }

    /** What a later XADD's MAXLEN drops: the oldest entries left, down to the cap at most. */
    method TrimStream(c: Codec)
      requires Ids(Contents()) && |entries| > first + EffectiveMaxLen(maxLen)
      modifies this`first
      ensures CanMove(Consumer(c), old(Contents()), Trim) && Contents() == Next(Consumer(c), old(Contents()), Trim)
    {
      first := first + 1;
    }

    method TrimDeadLetters(c: Codec)
      requires Ids(Contents()) && |dead| > EffectiveMaxLen(maxLen)
      modifies this`dead
      ensures CanMove(Consumer(c), old(Contents()), TrimDead)
      ensures Contents() == Next(Consumer(c), old(Contents()), TrimDead)
    {
      dead := dead[1..];
    }

    /** A handler's failure is exactly the system's failure move. */
    method HandleJobFailure(c: Codec, id: nat, attempt: int, fault: Fault) returns (r: Outcome)
      requires Ids(Contents()) && id < |entries| && id !in waiting
      requires Delivered(c, entries[id]) == Handled(attempt)
      modifies this
      ensures fault == AddFails ==> Contents() == old(Contents())
      ensures fault != AddFails ==>
                Contents() == Next(Consumer(c), old(Contents()), HandlerFails(id, fault == AckFails))
      ensures r == Settled <==> fault == NoFault && id >= old(first)
    {
      if attempt < MAX_RETRIES {
        r := RetryJob(id, fault);
      } else {
        r := MoveToDeadLetterQueue(id, EXCEEDED, fault);
      }
    }

    /** An entry no reader understands is buried at once. */
    method ProcessMalformed(c: Codec, id: nat, fault: Fault) returns (r: Outcome)
      requires Ids(Contents()) && id < |entries| && id !in waiting
      requires Delivered(c, entries[id]) == Malformed
      modifies this
      ensures fault == AddFails ==> Contents() == old(Contents())
      ensures fault != AddFails ==>
                Contents() == Next(Consumer(c), old(Contents()), HandlerFails(id, fault == AckFails))
    {
      r := MoveToDeadLetterQueue(id, MALFORMED, fault);
    }
  }
}
