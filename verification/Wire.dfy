/** The stream entry of a job reference and of a legacy task, both ways. */
module Wire {
  import opened Lifecycle

  // ---------- decimal numbers ----------

  type Int16 = n: int | -32768 <= n <= 32767

  const MAX_UINT64 := 0xFFFF_FFFF_FFFF_FFFF
  const MAX_INT64 := 0x7FFF_FFFF_FFFF_FFFF
  const MIN_INT64 := -MAX_INT64 - 1

  /** A conversion to 16 bits keeps the low bits. */
  function ToInt16(n: int): (r: Int16)
    ensures (n - r) % 0x1_0000 == 0
  {
    (n + 32768) % 0x1_0000 - 32768
  }

  predicate IsDigit(c: char) {
    '0' <= c <= '9'
  }

  function Digits(n: nat): (s: string)
    ensures s != "" && IsDigit(s[0])
  {
    var d := [((n % 10) + '0' as int) as char];
    if n < 10 then d else Digits(n / 10) + d
  }

  function Itoa(n: int): string {
    if n < 0 then "-" + Digits(-n) else Digits(n)
  }

  /** Reading digits left to right: a bad character fails, but overflow is answered first
      when it is met first. */
  function Scan(s: string, n: nat): Option<nat> {
    if s == "" then Some(n)
    else if !IsDigit(s[0]) then None
    else
      var m := n * 10 + (s[0] as int - '0' as int);
      if m > MAX_UINT64 then Some(MAX_UINT64) else Scan(s[1..], m)
  }

  /** The number a caller that ignores the error gets. */
  function Atoi(s: string): int {
    var negative := s != "" && s[0] == '-';
    var digits := if s != "" && (s[0] == '-' || s[0] == '+') then s[1..] else s;
    var scanned := Scan(digits, 0);
    if digits == "" || scanned.None? then 0
    else
      var n: int := scanned.value;
      if negative then (if n > -MIN_INT64 then MIN_INT64 else -n) else if n > MAX_INT64 then MAX_INT64 else n
  }

  /** No syntax or range error. */
  predicate Exact(s: string) {
    var digits := if s != "" && (s[0] == '-' || s[0] == '+') then s[1..] else s;
    var scanned := Scan(digits, 0);
    digits != "" && scanned.Some? && scanned.value <= if s[0] == '-' then -MIN_INT64 else MAX_INT64
  }

  lemma {:induction false} ScanAppend(s: string, c: char, n: nat)
    requires IsDigit(c) && Scan(s, n).Some?
    requires Scan(s, n).value * 10 + (c as int - '0' as int) <= MAX_UINT64
    ensures Scan(s + [c], n) == Some(Scan(s, n).value * 10 + (c as int - '0' as int))
  {
    if s == "" {
      assert (s + [c])[1..] == "";
    } else {
      assert (s + [c])[1..] == s[1..] + [c];
      ScanAppend(s[1..], c, n * 10 + (s[0] as int - '0' as int));
    }
  }

  lemma {:induction false} ScanDigits(n: nat)
    requires n <= MAX_UINT64
    ensures Scan(Digits(n), 0) == Some(n)
  {
    var c := ((n % 10) + '0' as int) as char;
    if n < 10 {
      assert [c][1..] == "";
    } else {
      ScanDigits(n / 10);
      ScanAppend(Digits(n / 10), c, 0);
    }
  }

  /** Every 64-bit number, negative ones too, survives its decimal text. */
  lemma AtoiItoa(n: int)
    requires MIN_INT64 <= n <= MAX_INT64
    ensures Atoi(Itoa(n)) == n && Exact(Itoa(n))
  {
    ScanDigits(if n < 0 then -n else n);
    if n < 0 {
      assert Itoa(n)[1..] == Digits(-n);
    }
  }

  /** The text of a number is decimal: one digit after the other, the least significant last. */
  lemma TextIsDecimal(n: nat, d: nat)
    requires d < 10
    ensures Itoa(d) == ["0123456789"[d]]
    ensures n > 0 ==> Itoa(10 * n + d) == Itoa(n) + Itoa(d)
    ensures forall i: int | i < 0 :: Itoa(i) == "-" + Itoa(0 - i)
  {
    assert (10 * n + d) / 10 == n && (10 * n + d) % 10 == d;
  }

  /** Other texts: a plus sign is allowed, a number beyond 64 bits is cut to the nearest one, and
      what starts with no digit is zero. */
  lemma AtoiOfOthers(n: nat, s: string)
    requires n <= MAX_UINT64
    ensures Atoi("+" + Digits(n)) == Atoi(Digits(n)) == if n > MAX_INT64 then MAX_INT64 else n
    ensures n > MAX_INT64 ==> Atoi("-" + Digits(n)) == MIN_INT64
    ensures Atoi("") == Atoi("-") == Atoi("+") == 0
    ensures s != "" && !IsDigit(s[0]) ==> Atoi("-" + s) == 0 && (s[0] != '-' && s[0] != '+' ==> Atoi(s) == 0)
  {
    ScanDigits(n);
    assert ("+" + Digits(n))[1..] == Digits(n) && ("-" + Digits(n))[1..] == Digits(n) && ("-" + s)[1..] == s;
  }

  // ---------- entries ----------

  /** A field value: Redis hands back strings, other writers may leave Go numbers. */
  datatype Value = Str(s: string) | Int(n: int) | Int64(n: int) | Float(x: real) | Other

  /** The field names any reader looks at. */
  datatype Field =
    | JobId | JobType | Type | StatusField | QueueName | Attempt | MaxRetry | Priority
    | CreatedAt | ScheduledAt | IdempotencyKey | PayloadField

  type Fields = map<Field, Value>

  datatype Error = MissingJobId | InvalidJobId | MissingJobType | MissingTaskType | MissingPayload | InvalidPayload

  datatype Result<+T> = Ok(value: T) | Err(error: Error)

  type Json = string  // a JSON object, by its canonical text

  datatype Payload = Object(json: Json) | Text(text: string)

  /** The parts of a job its stream entry can carry. */
  datatype Job = Job(
    id: Uuid,
    kind: string,
    status: string,
    queue: string,
    attempts: Int16,
    maxRetry: Int16,
    priority: Int16,
    key: Option<string>,
    createdAt: Time,
    scheduledAt: Option<Time>,
    payloadRef: Option<string>,
    payload: Option<Payload>)

  datatype Task = Task(kind: string, payload: Json, attempt: int)

  /** Text forms that libraries define: UUIDs, UTC timestamps and JSON. */
  datatype Codec = Codec(
    printId: Uuid -> string,
    parseId: string -> Option<Uuid>,
    printTime: Time -> string,
    parseTime: string -> Option<Time>,
    marshal: Payload -> Option<string>,
    unmarshal: string -> Option<Json>)

  // Timestamps print with a four-digit year: years 0 to 9999, in ns from 1970 (UTC).
  const YEAR_0 := -62_167_219_200 * SECOND
  const YEAR_10000 := 253_402_300_800 * SECOND
  const ZERO_TIME := -62_135_596_800 * SECOND

  predicate Printable(t: Time) {
    YEAR_0 <= t < YEAR_10000
  }

  /** Parsing undoes printing, and nothing parses the empty text. */
  ghost predicate Faithful(c: Codec) {
    && c.parseId("") == None && c.parseTime("") == None
    && (forall id: Uuid :: c.parseId(c.printId(id)) == Some(id))
    && forall t | Printable(t) :: c.parseTime(c.printTime(t)) == Some(t)
  }

  function Lookup(m: Fields, f: Field): Option<string> {
    if f in m && m[f].Str? then Some(m[f].s) else None
  }

  function NonEmpty(s: Option<string>): Option<string> {
    if s == Some("") then None else s
  }

  function ParseNum(m: Fields, f: Field): int {
    if f !in m then 0
    else
      match m[f]
      case Str(s) => Atoi(s)
      case Int(n) => n
      case Int64(n) => n
      case Float(x) => if x >= 0.0 then x.Floor else -(-x).Floor
      case Other => 0
  }

  /** A number field of any kind: text by its digits, a float cut toward zero, else zero. */
  lemma NumbersAreRead(m: Fields, f: Field)
    ensures f in m && m[f].Str? ==> ParseNum(m, f) == Atoi(m[f].s)
    ensures f in m && (m[f].Int? || m[f].Int64?) ==> ParseNum(m, f) == m[f].n
    ensures f in m && m[f].Float? ==>
              var n, x := ParseNum(m, f), m[f].x;
              if x >= 0.0 then n as real <= x < n as real + 1.0 else n as real - 1.0 < x <= n as real
    ensures f !in m || m[f].Other? ==> ParseNum(m, f) == 0
  {
  }

  // ---------- job references ----------

  /** The payload text on the wire: the stored reference, else the marshalled payload. */
  function PayloadText(c: Codec, j: Job): Option<string> {
    if NonEmpty(j.payloadRef).Some? then j.payloadRef
    else if j.payload.Some? then c.marshal(j.payload.value)
    else None
  }

  function ScheduledText(c: Codec, j: Job): Option<string> {
    if j.scheduledAt.Some? then Some(c.printTime(j.scheduledAt.value)) else None
  }

  function Put(m: Fields, f: Field, s: Option<string>): Fields {
    if s.Some? then m[f := Str(s.value)] else m
  }

  function Required(c: Codec, j: Job): Fields {
    map[JobId := Str(c.printId(j.id)),
        JobType := Str(j.kind),
        StatusField := Str(j.status),
        QueueName := Str(j.queue),
        Attempt := Str(Itoa(j.attempts)),
        MaxRetry := Str(Itoa(j.maxRetry)),
        Priority := Str(Itoa(j.priority)),
        CreatedAt := Str(c.printTime(j.createdAt))]
  }

  function JobFields(c: Codec, j: Job): Fields {
    Put(Put(Put(Required(c, j), IdempotencyKey, j.key), ScheduledAt, ScheduledText(c, j)),
        PayloadField, PayloadText(c, j))
  }

  method ToJobFields(c: Codec, j: Job) returns (m: Fields)
    ensures m == JobFields(c, j)
  {
    m := map[JobId := Str(c.printId(j.id)),
             JobType := Str(j.kind),
             StatusField := Str(j.status),
             QueueName := Str(j.queue),
             Attempt := Str(Itoa(j.attempts)),
             MaxRetry := Str(Itoa(j.maxRetry)),
             Priority := Str(Itoa(j.priority)),
             CreatedAt := Str(c.printTime(j.createdAt))];
    if j.key.Some? {
      m := m[IdempotencyKey := Str(j.key.value)];
    }
    if j.scheduledAt.Some? {
      m := m[ScheduledAt := Str(c.printTime(j.scheduledAt.value))];
    }
    if j.payloadRef.Some? && j.payloadRef.value != "" {
      m := m[PayloadField := Str(j.payloadRef.value)];
    } else if j.payload.Some? {
      var b := c.marshal(j.payload.value);
      if b.Some? {
        m := m[PayloadField := Str(b.value)];
      }
    }
  }

  function KindOf(m: Fields): string {
    if NonEmpty(Lookup(m, JobType)).Some? then Lookup(m, JobType).value
    else if Lookup(m, Type).Some? then Lookup(m, Type).value
    else ""
  }

  function Decoded(c: Codec, text: Option<string>): Option<Payload> {
    if text.None? then None
    else if c.unmarshal(text.value).Some? then Some(Object(c.unmarshal(text.value).value))
    else Some(Text(text.value))
  }

  function ParseTime(c: Codec, text: Option<string>): Option<Time> {
    if text.None? then None else c.parseTime(text.value)
  }

  function GetOr<T>(o: Option<T>, otherwise: T): T {
    if o.Some? then o.value else otherwise
  }

  /** Everything but the identity is best effort. */
  function Details(c: Codec, m: Fields, id: Uuid, kind: string): Job {
    var text := NonEmpty(Lookup(m, PayloadField));
    Job(id, kind,
        GetOr(Lookup(m, StatusField), ""),
        GetOr(Lookup(m, QueueName), ""),
        ToInt16(ParseNum(m, Attempt)),
        ToInt16(ParseNum(m, MaxRetry)),
        ToInt16(ParseNum(m, Priority)),
        NonEmpty(Lookup(m, IdempotencyKey)),
        GetOr(ParseTime(c, Lookup(m, CreatedAt)), ZERO_TIME),
        ParseTime(c, NonEmpty(Lookup(m, ScheduledAt))),
        text,
        Decoded(c, text))
  }

  /** Only a missing or malformed identity is an error. */
  function ParseJob(c: Codec, m: Fields): Result<Job> {
    var id := NonEmpty(Lookup(m, JobId));
    if id.None? then Err(MissingJobId)
    else if c.parseId(id.value).None? then Err(InvalidJobId)
    else if KindOf(m) == "" then Err(MissingJobType)
    else Ok(Details(c, m, c.parseId(id.value).value, KindOf(m)))
  }

  method JobFromFields(c: Codec, m: Fields) returns (r: Result<Job>)
    ensures r == ParseJob(c, m)
  {
    var rawId := Lookup(m, JobId);
    if rawId.None? || rawId.value == "" {
      return Err(MissingJobId);
    }
    var id := c.parseId(rawId.value);
    if id.None? {
      return Err(InvalidJobId);
    }
    var rawType := Lookup(m, JobType);
    if rawType.None? || rawType.value == "" {
      rawType := Lookup(m, Type);
      if rawType.None? || rawType.value == "" {
        return Err(MissingJobType);
      }
    }
    var status, queue := "", "";
    var s := Lookup(m, StatusField);
    if s.Some? {
      status := s.value;
    }
    s := Lookup(m, QueueName);
    if s.Some? {
      queue := s.value;
    }
    assert status == GetOr(Lookup(m, StatusField), "") && queue == GetOr(s, "");
    var key: Option<string> := None;
    s := Lookup(m, IdempotencyKey);
    if s.Some? && s.value != "" {
      key := s;
    }
    assert key == NonEmpty(s);
    var createdAt := ZERO_TIME;
    s := Lookup(m, CreatedAt);
    if s.Some? {
      var t := c.parseTime(s.value);
      if t.Some? {
        createdAt := t.value;
      }
    }
    assert createdAt == GetOr(ParseTime(c, s), ZERO_TIME);
    var scheduledAt: Option<Time> := None;
    s := Lookup(m, ScheduledAt);
    if s.Some? && s.value != "" {
      scheduledAt := c.parseTime(s.value);
    }
    assert scheduledAt == ParseTime(c, NonEmpty(s));
    var payloadRef: Option<string>, payload: Option<Payload> := None, None;
    s := Lookup(m, PayloadField);
    if s.Some? && s.value != "" {
      payloadRef := s;
      var json := c.unmarshal(s.value);
      payload := if json.Some? then Some(Object(json.value)) else Some(Text(s.value));
    }
    assert payloadRef == NonEmpty(s) && payload == Decoded(c, payloadRef);
    return Ok(Job(id.value, rawType.value, status, queue,
                  ToInt16(ParseNum(m, Attempt)), ToInt16(ParseNum(m, MaxRetry)), ToInt16(ParseNum(m, Priority)),
                  key, createdAt, scheduledAt, payloadRef, payload));
  }

  /** What a reader gets of a job: everything, except that an empty key or payload
      reference reads as none, and the payload is whatever its text decodes to. */
  function Received(c: Codec, j: Job): Job {
    var text := NonEmpty(PayloadText(c, j));
    j.(key := NonEmpty(j.key), payloadRef := text, payload := Decoded(c, text))
  }

  lemma ReadBack(m: Fields, f: Field, n: Int16)
    requires f in m && m[f] == Str(Itoa(n))
    ensures ToInt16(ParseNum(m, f)) == n
  {
    AtoiItoa(n);
  }

  lemma RequiredText(c: Codec, j: Job)
    ensures var m := Required(c, j);
            && Lookup(m, JobId) == Some(c.printId(j.id)) && Lookup(m, JobType) == Some(j.kind)
            && Lookup(m, StatusField) == Some(j.status) && Lookup(m, QueueName) == Some(j.queue)
            && Lookup(m, CreatedAt) == Some(c.printTime(j.createdAt)) && Lookup(m, Type) == None
  {
  }

  lemma PutKeeps(m: Fields, f: Field, s: Option<string>, g: Field)
    ensures g != f ==> Lookup(Put(m, f, s), g) == Lookup(m, g) && ParseNum(Put(m, f, s), g) == ParseNum(m, g)
    ensures f !in m ==> Lookup(Put(m, f, s), f) == s
  {
  }

  predicate CarriesNumbers(m: Fields, j: Job) {
    && ToInt16(ParseNum(m, Attempt)) == j.attempts
    && ToInt16(ParseNum(m, MaxRetry)) == j.maxRetry
    && ToInt16(ParseNum(m, Priority)) == j.priority
  }

  predicate CarriesIdentity(c: Codec, m: Fields, j: Job) {
    && Lookup(m, JobId) == Some(c.printId(j.id))
    && Lookup(m, JobType) == Some(j.kind) && Lookup(m, Type) == None
    && Lookup(m, StatusField) == Some(j.status) && Lookup(m, QueueName) == Some(j.queue)
    && Lookup(m, CreatedAt) == Some(c.printTime(j.createdAt))
  }

  predicate CarriesOptions(c: Codec, m: Fields, j: Job) {
    && Lookup(m, IdempotencyKey) == j.key
    && Lookup(m, ScheduledAt) == ScheduledText(c, j)
    && Lookup(m, PayloadField) == PayloadText(c, j)
  }

  /** An entry on which every lookup a reader makes finds job j. */
  predicate Carries(c: Codec, m: Fields, j: Job) {
    CarriesIdentity(c, m, j) && CarriesNumbers(m, j) && CarriesOptions(c, m, j)
  }

  lemma PutsKeep(m: Fields, key: Option<string>, scheduled: Option<string>, payload: Option<string>, g: Field)
    requires IdempotencyKey !in m && ScheduledAt !in m && PayloadField !in m
    ensures var w := Put(Put(Put(m, IdempotencyKey, key), ScheduledAt, scheduled), PayloadField, payload);
            match g
            case IdempotencyKey => Lookup(w, g) == key
            case ScheduledAt => Lookup(w, g) == scheduled
            case PayloadField => Lookup(w, g) == payload
            case _ => Lookup(w, g) == Lookup(m, g) && ParseNum(w, g) == ParseNum(m, g)
  {
    var m1 := Put(m, IdempotencyKey, key);
    PutKeeps(m, IdempotencyKey, key, g);
    PutKeeps(m1, ScheduledAt, scheduled, g);
    PutKeeps(Put(m1, ScheduledAt, scheduled), PayloadField, payload, g);
  }

  lemma WrittenAs(c: Codec, j: Job, g: Field)
    ensures match g
            case IdempotencyKey => Lookup(JobFields(c, j), g) == j.key
            case ScheduledAt => Lookup(JobFields(c, j), g) == ScheduledText(c, j)
            case PayloadField => Lookup(JobFields(c, j), g) == PayloadText(c, j)
            case _ =>
              && Lookup(JobFields(c, j), g) == Lookup(Required(c, j), g)
              && ParseNum(JobFields(c, j), g) == ParseNum(Required(c, j), g)
  {
    PutsKeep(Required(c, j), j.key, ScheduledText(c, j), PayloadText(c, j), g);
  }

  lemma JobFieldsCarryNumbers(c: Codec, j: Job)
    ensures CarriesNumbers(JobFields(c, j), j)
  {
    var m := Required(c, j);
    ReadBack(m, Attempt, j.attempts);
    ReadBack(m, MaxRetry, j.maxRetry);
    ReadBack(m, Priority, j.priority);
    WrittenAs(c, j, Attempt);
    WrittenAs(c, j, MaxRetry);
    WrittenAs(c, j, Priority);
  }

  lemma JobFieldsCarryIdentity(c: Codec, j: Job)
    ensures CarriesIdentity(c, JobFields(c, j), j)
  {
    RequiredText(c, j);
    WrittenAs(c, j, JobId);
    WrittenAs(c, j, JobType);
    WrittenAs(c, j, Type);
    WrittenAs(c, j, StatusField);
    WrittenAs(c, j, QueueName);
    WrittenAs(c, j, CreatedAt);
  }

  lemma JobFieldsCarryOptions(c: Codec, j: Job)
    ensures CarriesOptions(c, JobFields(c, j), j)
  {
    WrittenAs(c, j, IdempotencyKey);
    WrittenAs(c, j, ScheduledAt);
    WrittenAs(c, j, PayloadField);
  }

  lemma CounterText(c: Codec, j: Job)
    ensures var m := Required(c, j);
            Lookup(m, Attempt) == Some(Itoa(j.attempts)) && Lookup(m, MaxRetry) == Some(Itoa(j.maxRetry)) &&
            Lookup(m, Priority) == Some(Itoa(j.priority))
  {
  }

  lemma CounterFields(c: Codec, j: Job)
    ensures var m := JobFields(c, j);
            Lookup(m, Attempt) == Some(Itoa(j.attempts)) && Lookup(m, MaxRetry) == Some(Itoa(j.maxRetry)) &&
            Lookup(m, Priority) == Some(Itoa(j.priority))
  {
    CounterText(c, j);
    WrittenAs(c, j, Attempt);
    WrittenAs(c, j, MaxRetry);
    WrittenAs(c, j, Priority);
  }

  /** What is written under which name: text throughout, optional columns only when set. */
  lemma FieldsOf(c: Codec, j: Job)
    ensures var m := JobFields(c, j);
            && Lookup(m, JobId) == Some(c.printId(j.id)) && Lookup(m, JobType) == Some(j.kind)
            && Lookup(m, StatusField) == Some(j.status) && Lookup(m, QueueName) == Some(j.queue)
            && Lookup(m, Attempt) == Some(Itoa(j.attempts)) && Lookup(m, MaxRetry) == Some(Itoa(j.maxRetry))
            && Lookup(m, Priority) == Some(Itoa(j.priority)) && Lookup(m, CreatedAt) == Some(c.printTime(j.createdAt))
            && Lookup(m, IdempotencyKey) == j.key && Lookup(m, Type) == None
            && Lookup(m, ScheduledAt) == (if j.scheduledAt.Some? then Some(c.printTime(j.scheduledAt.value)) else None)
            && (j.payloadRef.Some? && j.payloadRef.value != "" ==> Lookup(m, PayloadField) == j.payloadRef)
  {
    JobFieldsCarryIdentity(c, j);
    CounterFields(c, j);
    JobFieldsCarryOptions(c, j);
  }

  lemma ReadsWhatIsCarried(c: Codec, m: Fields, j: Job)
    requires Faithful(c) && Printable(j.createdAt) && (j.scheduledAt.Some? ==> Printable(j.scheduledAt.value))
    requires Carries(c, m, j)
    ensures ParseJob(c, m) == if j.kind == "" then Err(MissingJobType) else Ok(Received(c, j))
  {
    assert c.parseId(c.printId(j.id)) == Some(j.id);
    assert ParseTime(c, NonEmpty(Lookup(m, ScheduledAt))) == j.scheduledAt;
  }

  /** Redis stores a number as its decimal text. */
  function Stored(m: Fields): Fields {
    map f | f in m :: if m[f].Int? || m[f].Int64? then Str(Itoa(m[f].n)) else m[f]
  }

  /** Redis changes nothing in a job reference. */
  lemma ReferencesAreAllText(c: Codec, j: Job)
    ensures Stored(JobFields(c, j)) == JobFields(c, j)
  {
    assert forall f | f in JobFields(c, j) :: JobFields(c, j)[f].Str?;
  }

  /** Reading what was written gives the job back, through Redis or not, negative counters
      included; a job without a type is the only one its own reader refuses. */
  lemma RoundTrip(c: Codec, j: Job)
    requires Faithful(c) && Printable(j.createdAt) && (j.scheduledAt.Some? ==> Printable(j.scheduledAt.value))
    ensures var received := if j.kind == "" then Err(MissingJobType) else Ok(Received(c, j));
            ParseJob(c, Stored(JobFields(c, j))) == received == ParseJob(c, JobFields(c, j))
  {
    JobFieldsCarryIdentity(c, j);
    JobFieldsCarryNumbers(c, j);
    JobFieldsCarryOptions(c, j);
    ReadsWhatIsCarried(c, JobFields(c, j), j);
    ReferencesAreAllText(c, j);
  }

  /** What a reader of j's entry gets, column by column: identity, counters and times are j's. */
  lemma ReadsTheSameJob(c: Codec, j: Job)
    requires Faithful(c) && Printable(j.createdAt) && (j.scheduledAt.Some? ==> Printable(j.scheduledAt.value))
    requires j.kind != ""
    ensures var read := ParseJob(c, Stored(JobFields(c, j)));
            && read == ParseJob(c, JobFields(c, j)) && read.Ok?
            && var r := read.value;
            && r.id == j.id && r.kind == j.kind && r.status == j.status && r.queue == j.queue
            && r.attempts == j.attempts && r.maxRetry == j.maxRetry && r.priority == j.priority
            && r.createdAt == j.createdAt && r.scheduledAt == j.scheduledAt
            && (j.key != Some("") ==> r.key == j.key)
            && (j.key == Some("") ==> r.key == None)
  {
    RoundTrip(c, j);
  }

  /** The work itself arrives: a stored payload reference as it is, else the marshalled payload;
      and the reader's payload is the JSON object that text is, or the text when it is none. */
  lemma ReadsThePayload(c: Codec, j: Job)
    requires Faithful(c) && Printable(j.createdAt) && (j.scheduledAt.Some? ==> Printable(j.scheduledAt.value))
    requires j.kind != ""
    ensures ParseJob(c, Stored(JobFields(c, j))).Ok?
    ensures var r, kept := ParseJob(c, Stored(JobFields(c, j))).value, j.payloadRef.Some? && j.payloadRef.value != "";
            && (kept ==> r.payloadRef == j.payloadRef)
            && (!kept && j.payload.Some? && c.marshal(j.payload.value) !in {None, Some("")} ==>
                  r.payloadRef == c.marshal(j.payload.value))
            && (!kept && (j.payload == None || c.marshal(j.payload.value) in {None, Some("")}) ==> r.payloadRef == None)
            && (r.payloadRef == None <==> r.payload == None)
            && (r.payloadRef.Some? ==>
                  forall x :: r.payload == Some(Object(x)) <==> c.unmarshal(r.payloadRef.value) == Some(x))
            && (r.payloadRef.Some? && c.unmarshal(r.payloadRef.value) == None ==>
                  r.payload == Some(Text(r.payloadRef.value)))
  {
    RoundTrip(c, j);
  }

  /** A job with a stored payload whose decoded form it carries comes back unchanged. */
  lemma StoredJobsAreUnchanged(c: Codec, j: Job)
    requires Faithful(c) && Printable(j.createdAt) && (j.scheduledAt.Some? ==> Printable(j.scheduledAt.value))
    requires j.kind != "" && j.key != Some("") && j.payloadRef.Some? && j.payloadRef.value != ""
    requires match c.unmarshal(j.payloadRef.value)
             case Some(x) => j.payload == Some(Object(x))
             case None => j.payload == Some(Text(j.payloadRef.value))
    ensures ParseJob(c, Stored(JobFields(c, j))) == Ok(j)
  {
    ReadsTheSameJob(c, j);
    ReadsThePayload(c, j);
    var x := c.unmarshal(j.payloadRef.value);
    if x.Some? { assert ParseJob(c, Stored(JobFields(c, j))).value.payload == Some(Object(x.value)); }
  }

  predicate HasText(m: Fields, f: Field, s: string) {
    f in m && m[f] == Str(s)
  }

  /** Any entry at all: it is a job exactly when it has a job id that parses and a nonempty type
      under one of the two names, the first one winning; what else it lacks reads as zero. */
  lemma IdentityDecides(c: Codec, m: Fields)
    requires c.parseId("") == None
    ensures ParseJob(c, m).Ok? <==>
            && (exists s :: HasText(m, JobId, s) && c.parseId(s).Some?)
            && (exists k :: k != "" && (HasText(m, JobType, k) || HasText(m, Type, k)))
    ensures ParseJob(c, m).Ok? ==>
              var r := ParseJob(c, m).value;
              && (forall s :: HasText(m, JobId, s) ==> c.parseId(s) == Some(r.id))
              && (forall k :: HasText(m, JobType, k) && k != "" ==> r.kind == k)
              && ((JobType !in m || m[JobType] == Str("")) ==> HasText(m, Type, r.kind))
              && (StatusField !in m ==> r.status == "") && (QueueName !in m ==> r.queue == "")
              && (Attempt !in m ==> r.attempts == 0) && (MaxRetry !in m ==> r.maxRetry == 0)
              && (Priority !in m ==> r.priority == 0) && (IdempotencyKey !in m ==> r.key == None)
              && (CreatedAt !in m ==> r.createdAt == -62_135_596_800_000_000_000)
              && (ScheduledAt !in m ==> r.scheduledAt == None)
              && (PayloadField !in m ==> r.payloadRef == None && r.payload == None)
  {
    if JobId in m && m[JobId].Str? { assert HasText(m, JobId, m[JobId].s); }
    if JobType in m && m[JobType].Str? { assert HasText(m, JobType, m[JobType].s); }
    if Type in m && m[Type].Str? { assert HasText(m, Type, m[Type].s); }
    if ParseJob(c, m).Ok? { assert HasText(m, JobType, KindOf(m)) || HasText(m, Type, KindOf(m)); }
  }

  // ---------- legacy tasks ----------

  /** None when the payload cannot be marshalled. */
  function ToFields(c: Codec, t: Task): Option<Fields> {
    var text := c.marshal(Object(t.payload));
    if text.None? then None
    else Some(map[Type := Str(t.kind), PayloadField := Str(text.value), Attempt := Int(t.attempt)])
  }

  /** Unlike a job reference's reader, this one does not know Go's plain int. */
  function FromFields(c: Codec, m: Fields): Result<Task> {
    if Lookup(m, Type).None? then Err(MissingTaskType)
    else if Lookup(m, PayloadField).None? then Err(MissingPayload)
    else
      var payload := c.unmarshal(Lookup(m, PayloadField).value);
      if payload.None? then Err(InvalidPayload)
      else
        var attempt := if Attempt in m && m[Attempt].Int? then 0 else ParseNum(m, Attempt);
        Ok(Task(Lookup(m, Type).value, payload.value, attempt))
  }

  /** Which entries read as a task: a type and a payload as text, and the payload JSON. */
  lemma TasksReadExactly(c: Codec, m: Fields)
    ensures var typed := Type in m && m[Type].Str?;
            var loaded := PayloadField in m && m[PayloadField].Str?;
            FromFields(c, m) ==
            if !typed then Err(MissingTaskType)
            else if !loaded then Err(MissingPayload)
            else if c.unmarshal(m[PayloadField].s) == None then Err(InvalidPayload)
            else Ok(Task(m[Type].s, c.unmarshal(m[PayloadField].s).value,
                         if Attempt in m && !m[Attempt].Int? then ParseNum(m, Attempt) else 0))
  {
  }

  /** A task whose payload is JSON comes back from Redis as it was; read without passing
      through Redis it loses its attempt. */
  lemma TaskRoundTrip(c: Codec, t: Task)
    requires c.marshal(Object(t.payload)).Some?
    requires c.unmarshal(c.marshal(Object(t.payload)).value) == Some(t.payload)
    requires MIN_INT64 <= t.attempt <= MAX_INT64
    ensures FromFields(c, Stored(ToFields(c, t).value)) == Ok(t)
    ensures FromFields(c, ToFields(c, t).value) == Ok(t.(attempt := 0))
  {
    AtoiItoa(t.attempt);
    var m := Stored(ToFields(c, t).value);
    assert m[Attempt] == Str(Itoa(t.attempt));
    assert Lookup(m, Type) == Some(t.kind) && Lookup(m, PayloadField) == c.marshal(Object(t.payload));
  }

  /** Neither reader ever takes the other writer's entry for its own. */
  lemma FormatsAreDisjoint(c: Codec, t: Task, j: Job)
    ensures ToFields(c, t).Some? ==>
              && ParseJob(c, ToFields(c, t).value) == Err(MissingJobId)
              && ParseJob(c, Stored(ToFields(c, t).value)) == Err(MissingJobId)
    ensures FromFields(c, JobFields(c, j)) == Err(MissingTaskType)
    ensures FromFields(c, Stored(JobFields(c, j))) == Err(MissingTaskType)
  {
    assert Type !in JobFields(c, j) && Type !in Stored(JobFields(c, j));
    if ToFields(c, t).Some? {
      assert JobId !in ToFields(c, t).value && JobId !in Stored(ToFields(c, t).value);
    }
  }
}
