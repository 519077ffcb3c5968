/** Which stream and consumer group a queue name leads to. */
module Queue {
  import opened Lifecycle

  datatype Route = Route(stream: string, group: string) | UnknownQueue

  predicate IsSpace(c: char) {
    || '\t' <= c <= '\r' || c == ' ' || c == '\U{85}' || c == '\U{A0}' || c == '\U{1680}'
    || '\U{2000}' <= c <= '\U{200A}' || c == '\U{2028}' || c == '\U{2029}' || c == '\U{202F}'
    || c == '\U{205F}' || c == '\U{3000}'
  }

  function TrimLeft(s: string): string {
    if s != "" && IsSpace(s[0]) then TrimLeft(s[1..]) else s
  }

  function TrimRight(s: string): string {
    if s != "" && IsSpace(s[|s| - 1]) then TrimRight(s[..|s| - 1]) else s
  }

  /** Lower case, as far as any queue name can tell: capital I with a dot also becomes i. */
  function Lower(c: char): char {
    if 'A' <= c <= 'Z' then ((c as int) + 32) as char else if c == '\U{130}' then 'i' else c
  }

  function ToLower(s: string): string {
    seq(|s|, i requires 0 <= i < |s| => Lower(s[i]))
  }

  function Normal(s: string): string {
    ToLower(TrimRight(TrimLeft(s)))
  }

  predicate HasSuffix(s: string, x: string) {
    |x| <= |s| && s[|s| - |x|..] == x
  }

  predicate HasPrefix(s: string, x: string) {
    |x| <= |s| && s[..|x|] == x
  }

  function Cut(s: string, x: string): string
    requires HasSuffix(s, x)
  {
    s[..|s| - |x|]
  }

  function RouteOf(name: string, high: bool): Route {
    if name == "email" then
      if high then Route("stream:queue:email:high", "email-workers-high")
      else Route("stream:queue:email:low", "email-workers-low")
    else if name == "file" || name == "file_processing" then
      if high then Route("stream:queue:file_processing:high", "file_processing-workers-high")
      else Route("stream:queue:file_processing:low", "file_processing-workers-low")
    else if name == "exec" || name == "exec_processing" then
      if high then Route("stream:queue:exec_processing:high", "exec-workers-workers-high")
      else Route("stream:queue:exec_processing:low", "exec-workers-workers-low")
    else UnknownQueue
  }

  function StreamFor(queue: string, priority: int): Route {
    var name := Normal(queue);
    if HasSuffix(name, "-high") then RouteOf(Cut(name, "-high"), true)
    else if HasSuffix(name, "-low") then RouteOf(Cut(name, "-low"), false)
    else RouteOf(name, priority > 0)
  }

  predicate Routable(r: Row) {
    StreamFor(r.queue, r.priority) != UnknownQueue
  }

  /** The stream is the pool's long name with ":high" or ":low"; each stream has one group. */
  lemma EmailStream(high: bool)
    ensures RouteOf("email", high) ==
            Route("stream:queue:" + "email" + (if high then ":high" else ":low"),
                  "email-workers" + if high then "-high" else "-low")
  {
    assert "stream:queue:" + "email" + ":high" == "stream:queue:email:high";
    assert "stream:queue:" + "email" + ":low" == "stream:queue:email:low";
    assert "email-workers" + "-high" == "email-workers-high" && "email-workers" + "-low" == "email-workers-low";
  }

  lemma FileStream(name: string, high: bool)
    requires name == "file" || name == "file_processing"
    ensures RouteOf(name, high) ==
            Route("stream:queue:" + "file_processing" + (if high then ":high" else ":low"),
                  "file_processing-workers" + if high then "-high" else "-low")
  {
    assert "stream:queue:" + "file_processing" + ":high" == "stream:queue:file_processing:high";
    assert "stream:queue:" + "file_processing" + ":low" == "stream:queue:file_processing:low";
    assert "file_processing-workers" + "-high" == "file_processing-workers-high";
    assert "file_processing-workers" + "-low" == "file_processing-workers-low";
  }

  lemma ExecStream(name: string, high: bool)
    requires name == "exec" || name == "exec_processing"
    ensures RouteOf(name, high) ==
            Route("stream:queue:" + "exec_processing" + (if high then ":high" else ":low"),
                  "exec-workers-workers" + if high then "-high" else "-low")
  {
    assert "stream:queue:" + "exec_processing" + ":high" == "stream:queue:exec_processing:high";
    assert "stream:queue:" + "exec_processing" + ":low" == "stream:queue:exec_processing:low";
    assert "exec-workers-workers" + "-high" == "exec-workers-workers-high";
    assert "exec-workers-workers" + "-low" == "exec-workers-workers-low";
  }

  // ---------- what trimming and lower-casing do ----------

  predicate AllSpace(s: string) {
    forall i | 0 <= i < |s| :: IsSpace(s[i])
  }

  predicate Tight(s: string) {
    s != "" ==> !IsSpace(s[0]) && !IsSpace(s[|s| - 1])
  }

  lemma {:induction false} TrimLeftSpaces(a: string, s: string)
    requires AllSpace(a)
    ensures TrimLeft(a + s) == TrimLeft(s)
  {
    if a == "" {
      assert a + s == s;
    } else {
      assert (a + s)[1..] == a[1..] + s;
      TrimLeftSpaces(a[1..], s);
    }
  }

  lemma {:induction false} TrimRightSpaces(s: string, b: string)
    requires AllSpace(b)
    ensures TrimRight(s + b) == TrimRight(s)
  {
    if b == "" {
      assert s + b == s;
    } else {
      assert (s + b)[..|s + b| - 1] == s + b[..|b| - 1];
      TrimRightSpaces(s, b[..|b| - 1]);
    }
  }

  lemma TightStays(s: string)
    requires Tight(s)
    ensures TrimLeft(s) == s && TrimRight(s) == s
  {
  }

  lemma TrimLeftTight(s: string, b: string)
    requires Tight(s) && s != ""
    ensures TrimLeft(s + b) == s + b
  {
  }

  lemma {:induction false} TrimLeftAll(b: string)
    requires AllSpace(b)
    ensures TrimLeft(b) == ""
  {
    if b != "" { TrimLeftAll(b[1..]); }
  }

  /** Trimming takes the white space around a text and nothing else. */
  lemma TrimsExactly(a: string, s: string, b: string)
    requires AllSpace(a) && AllSpace(b) && Tight(s)
    ensures TrimRight(TrimLeft(a + s + b)) == s
  {
    assert a + s + b == a + (s + b);
    TrimLeftSpaces(a, s + b);
    if s == "" {
      assert s + b == b;
      TrimLeftAll(b);
    } else {
      TrimLeftTight(s, b);
      TrimRightSpaces(s, b);
      TightStays(s);
    }
  }

  /** Same text up to the case of ASCII letters. */
  predicate SameLetters(s: string, x: string) {
    |s| == |x| && forall i | 0 <= i < |s| ::
      s[i] == x[i] || ('a' <= x[i] <= 'z' && s[i] as int == x[i] as int - 32)
  }

  predicate Plain(x: string) {
    forall i | 0 <= i < |x| :: x[i] == '-' || x[i] == '_' || 'a' <= x[i] <= 'z'
  }

  /** White space around a queue name and the case of its letters do not matter. */
  lemma NormalForm(a: string, s: string, b: string, x: string)
    requires AllSpace(a) && AllSpace(b) && SameLetters(s, x) && Plain(x)
    ensures Normal(a + s + b) == x
  {
    assert Tight(s) by {
      forall i | 0 <= i < |s| ensures !IsSpace(s[i]) {}
    }
    TrimsExactly(a, s, b);
  }

  predicate IsPool(name: string) {
    name == "email" || name == "file" || name == "file_processing" || name == "exec" || name == "exec_processing"
  }

  lemma CutAppend(s: string, x: string)
    ensures HasSuffix(s + x, x) && Cut(s + x, x) == s
    ensures HasSuffix(s, x) ==> s == Cut(s, x) + x
  {
    assert (s + x)[|s|..] == x && (s + x)[..|s|] == s;
  }

  lemma SuffixEndsAlike(s: string, x: string)
    requires x != ""
    ensures HasSuffix(s, x) ==> s[|s| - 1] == x[|x| - 1]
  {
    if HasSuffix(s, x) { assert s[|s| - |x|..][|x| - 1] == s[|s| - 1]; }
  }

  lemma PoolHasNoSuffix(name: string)
    requires IsPool(name)
    ensures !HasSuffix(name, "-high") && !HasSuffix(name, "-low")
  {
    SuffixEndsAlike(name, "-high");
    SuffixEndsAlike(name, "-low");
  }

  lemma PoolRoutes(queue: string, priority: int, pool: string)
    requires IsPool(pool)
    ensures Normal(queue) == pool + "-high" ==> StreamFor(queue, priority) == RouteOf(pool, true)
    ensures Normal(queue) == pool + "-low" ==> StreamFor(queue, priority) == RouteOf(pool, false)
    ensures Normal(queue) == pool ==> StreamFor(queue, priority) == RouteOf(pool, priority > 0)
  {
    CutAppend(pool, "-high");
    CutAppend(pool, "-low");
    SuffixEndsAlike(pool + "-low", "-high");
    PoolHasNoSuffix(pool);
  }

  /** The long name a pool's streams carry. */
  function LongName(pool: string): string {
    if pool == "email" then "email"
    else if pool == "file" || pool == "file_processing" then "file_processing"
    else "exec_processing"
  }

  lemma PoolStream(pool: string, high: bool)
    requires IsPool(pool)
    ensures RouteOf(pool, high).Route?
    ensures RouteOf(pool, high).stream == "stream:queue:" + LongName(pool) + if high then ":high" else ":low"
  {
    if pool == "email" {
      EmailStream(high);
    } else if pool == "file" || pool == "file_processing" {
      FileStream(pool, high);
    } else {
      ExecStream(pool, high);
    }
  }

  /** Any spelling of a pool's name, in any case and with white space around, leads to the stream
      the name says: "-high" and "-low" decide, and without them a positive priority is high. */
  lemma NamesLeadToStreams(a: string, s: string, b: string, pool: string, suffix: string, priority: int)
    requires AllSpace(a) && AllSpace(b) && suffix in {"-high", "-low", ""}
    requires pool in {"email", "file", "file_processing", "exec", "exec_processing"}
    requires SameLetters(s, pool + suffix)
    ensures var route, high := StreamFor(a + s + b, priority), if suffix == "" then priority > 0 else suffix == "-high";
            route.Route? && route.stream == "stream:queue:" + LongName(pool) + if high then ":high" else ":low"
  {
    assert Plain(pool) && Plain("-high") && Plain("-low");
    NormalForm(a, s, b, pool + suffix);
    assert pool + "" == pool;
    PoolRoutes(a + s + b, priority, pool);
    PoolStream(pool, true);
    PoolStream(pool, false);
  }

  /** A queue name is routable exactly when, trimmed and lower-cased, it is a known pool
      name with "-high", "-low" or nothing after it. */
  lemma RoutableExactly(queue: string, priority: int)
    ensures StreamFor(queue, priority) != UnknownQueue <==>
            exists p :: IsPool(p) && (Normal(queue) == p + "-high" || Normal(queue) == p + "-low" || Normal(queue) == p)
  {
    var name := Normal(queue);
    if StreamFor(queue, priority) != UnknownQueue {
      var x := if HasSuffix(name, "-high") then "-high" else "-low";
      CutAppend(name, x);
      assert IsPool(if HasSuffix(name, x) then Cut(name, x) else name);
    }
    forall p | IsPool(p) && (name == p + "-high" || name == p + "-low" || name == p)
      ensures StreamFor(queue, priority) != UnknownQueue
    {
      PoolRoutes(queue, priority, p);
    }
  }
}
