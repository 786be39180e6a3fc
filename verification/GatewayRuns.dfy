/** Requests in flight: lookup, handler and store are separate steps, and any number of
    requests interleave. What the idempotency cache serves, and when handlers run. */
module GatewayRuns {
  import opened Wrappers
  import opened Idempotency

  /** A request with an idempotency key, on a connection. */
  datatype Request = Request(conn: string, key: string)

  function CacheKey(r: Request): string {
    r.conn + ":" + r.key
  }

  predicate NoColon(conn: string) {
    ':' !in conn
  }

  lemma FirstColon(r: Request)
    requires NoColon(r.conn)
    ensures CacheKey(r)[|r.conn|] == ':' && forall i :: 0 <= i < |r.conn| ==> CacheKey(r)[i] != ':'
  {
    assert forall i :: 0 <= i < |r.conn| ==> CacheKey(r)[i] == r.conn[i] && r.conn[i] in r.conn;
  }

  /** With no colon in connection ids, the cache key determines connection and key. */
  lemma CacheKeyInjective(a: Request, b: Request)
    requires NoColon(a.conn) && NoColon(b.conn)
    ensures CacheKey(a) == CacheKey(b) <==> a == b
  {
    if CacheKey(a) == CacheKey(b) {
      FirstColon(a);
      FirstColon(b);
      var n, k := |a.conn|, CacheKey(a);
      assert n == |b.conn|;
      assert a.conn == k[..n] == b.conn;
      assert a.key == k[n + 1..] == b.key;
    }
  }

  /** Two connections can share a cache entry exactly when the id of one, with a colon
      behind it, begins the id of the other. */
  lemma CollisionExactly(a: string, b: string)
    requires a != b
    ensures (exists x, y :: x != "" && y != "" && CacheKey(Request(a, x)) == CacheKey(Request(b, y)))
            <==> a + ":" <= b || b + ":" <= a
  {
    if a + ":" <= b {
      SharedCacheKey(a, b[|a| + 1..], "k");
      assert b == a + ":" + b[|a| + 1..];
      assert CacheKey(Request(a, b[|a| + 1..] + ":" + "k")) == CacheKey(Request(b, "k"));
    } else if b + ":" <= a {
      SharedCacheKey(b, a[|b| + 1..], "k");
      assert a == b + ":" + a[|b| + 1..];
      assert CacheKey(Request(a, "k")) == CacheKey(Request(b, a[|b| + 1..] + ":" + "k"));
    }
    forall x, y | CacheKey(Request(a, x)) == CacheKey(Request(b, y)) ensures a + ":" <= b || b + ":" <= a {
      CollidingPrefix(a, x, b, y);
    }
  }

  lemma CollidingPrefix(a: string, x: string, b: string, y: string)
    requires a != b && a + ":" + x == b + ":" + y
    ensures a + ":" <= b || b + ":" <= a
  {
    var all := a + ":" + x;
    assert all[..|a|] == a && all[|a|] == ':' && all[..|b|] == b && all[|b|] == ':';
    if |a| < |b| {
      assert all[..|b|][..|a| + 1] == a + ":";
    } else if |b| < |a| {
      assert all[..|a|][..|b| + 1] == b + ":";
    }
  }

  lemma SharedCacheKey(a: string, b: string, c: string)
    ensures CacheKey(Request(a + ":" + b, c)) == CacheKey(Request(a, b + ":" + c))
  {
    assert a + ":" + b + ":" + c == a + ":" + (b + ":" + c);
  }

  /** What happened, for the record; only `Saved` is visible to the cache. */
  datatype Event =
    | Started(r: Request, time: int)
    | Produced(r: Request, response: Payload)
    | Saved(r: Request, response: Payload, time: int)
    | Served(r: Request, response: Payload, time: int)

  datatype Phase = Running(r: Request) | Returned(r: Request, response: Payload)

  datatype State = State(clock: int, cache: map<string, Entry>, flight: map<nat, Phase>, history: seq<Event>)

  const INITIAL := State(0, map[], map[], [])

  datatype Step =
    | Lookup(id: nat, r: Request, elapsed: nat)
    | Return(id: nat, response: Payload)
    | Raise(id: nat)
    | Store(id: nat, elapsed: nat)
    | Cleanup(elapsed: nat)

  /** A step that is not enabled changes nothing. */
  function Next(s: State, step: Step, ttl: int): State {
    match step
    case Lookup(id, r, elapsed) =>
      if id in s.flight then s
      else
        var now := s.clock + elapsed;
        var cached := CacheGet(s.cache, CacheKey(r), now, ttl);
        var cache := AfterGet(s.cache, CacheKey(r), now, ttl);
        if cached.Some? then State(now, cache, s.flight, s.history + [Served(r, cached, now)])
        else State(now, cache, s.flight[id := Running(r)], s.history + [Started(r, now)])
    case Return(id, response) =>
      if id in s.flight && s.flight[id].Running? then
        var r := s.flight[id].r;
        s.(flight := s.flight[id := Returned(r, response)], history := s.history + [Produced(r, response)])
      else s
    case Raise(id) =>
      if id in s.flight && s.flight[id].Running? then s.(flight := s.flight - {id}) else s
    case Store(id, elapsed) =>
      if id in s.flight && s.flight[id].Returned? then
        var now, r, response := s.clock + elapsed, s.flight[id].r, s.flight[id].response;
        State(now, s.cache[CacheKey(r) := Entry(now, response)], s.flight - {id},
              s.history + [Saved(r, response, now)])
      else s
    case Cleanup(elapsed) =>
      var now := s.clock + elapsed;
      s.(clock := now, cache := s.cache - Expired(s.cache, now, ttl))
  }

  function Run(steps: seq<Step>, ttl: int): State {
    if steps == [] then INITIAL else Next(Run(steps[..|steps| - 1], ttl), steps[|steps| - 1], ttl)
  }

  // ----- the invariant

  /** The entries that were saved, as the cache's log. */
  function LogOf(history: seq<Event>): seq<Stored> {
    if history == [] then []
    else
      var e := history[|history| - 1];
      LogOf(history[..|history| - 1]) + if e.Saved? then [Stored(CacheKey(e.r), Entry(e.time, e.response))] else []
  }

  lemma LogNext(history: seq<Event>, e: Event)
    ensures LogOf(history + [e]) ==
            if e.Saved? then LogOf(history) + [Stored(CacheKey(e.r), Entry(e.time, e.response))] else LogOf(history)
  {
    assert (history + [e])[..|history|] == history;
    assert LogOf(history) + [] == LogOf(history);
  }

  /** The position of the last save under a cache key; -1 if there is none. */
  function LastSave(history: seq<Event>, key: string): (k: int)
    ensures -1 <= k < |history|
    ensures k >= 0 ==> history[k].Saved? && CacheKey(history[k].r) == key
    ensures forall i :: k < i < |history| && history[i].Saved? ==> CacheKey(history[i].r) != key
  {
    if history == [] then -1
    else
      var n := |history| - 1;
      if history[n].Saved? && CacheKey(history[n].r) == key then n else LastSave(history[..n], key)
  }

  /** The log remembers the last save. */
  lemma {:induction false} LatestIsLastSave(history: seq<Event>, key: string)
    ensures var k := LastSave(history, key);
            Latest(LogOf(history), key) ==
            if k < 0 then None else Some(Entry(history[k].time, history[k].response))
  {
    hide CacheKey;
    if history != [] {
      var init, e := history[..|history| - 1], history[|history| - 1];
      assert history == init + [e];
      LatestIsLastSave(init, key);
      LogNext(init, e);
      if e.Saved? {
        LatestNext(LogOf(init), Stored(CacheKey(e.r), Entry(e.time, e.response)), key);
      }
    }
  }

  lemma LatestNext(log: seq<Stored>, last: Stored, key: string)
    ensures Latest(log + [last], key) == if last.key == key then Some(last.entry) else Latest(log, key)
  {
    assert (log + [last])[..|log|] == log;
  }

  /** No save under the key, or the last one is too old, or its response is empty. */
  predicate Misses(history: seq<Event>, key: string, now: int, ttl: int) {
    var k := LastSave(history, key);
    k < 0 || now - history[k].time >= ttl || history[k].response.None?
  }

  predicate Happened(history: seq<Event>, e: Event) {
    exists i :: 0 <= i < |history| && history[i] == e
  }

  function TimeOf(e: Event): int {
    match e
    case Started(_, t) => t
    case Produced(_, _) => 0
    case Saved(_, _, t) => t
    case Served(_, _, t) => t
  }

  /** What an event says about the events before it: a handler was started because the last
      save did not serve; a response was served because it did; what was saved had been
      produced for the same request. */
  predicate Justified(before: seq<Event>, e: Event, ttl: int) {
    match e
    case Started(r, now) => Misses(before, CacheKey(r), now, ttl)
    case Served(r, response, now) =>
      !Misses(before, CacheKey(r), now, ttl) && before[LastSave(before, CacheKey(r))].response == response
    case Saved(r, response, _) => Happened(before, Produced(r, response))
    case Produced(_, _) => true
  }

  ghost predicate AllJustified(history: seq<Event>, ttl: int) {
    forall i :: 0 <= i < |history| ==> Justified(history[..i], history[i], ttl)
  }

  /** Time never goes backwards between lookups and saves. */
  ghost predicate InTime(history: seq<Event>, clock: int) {
    && (forall i :: 0 <= i < |history| && !history[i].Produced? ==> TimeOf(history[i]) <= clock)
    && (forall i, j :: 0 <= i < j < |history| && !history[i].Produced? && !history[j].Produced? ==>
                         TimeOf(history[i]) <= TimeOf(history[j]))
  }

  ghost predicate FlightProduced(s: State) {
    forall id :: id in s.flight && s.flight[id].Returned? ==>
                   Happened(s.history, Produced(s.flight[id].r, s.flight[id].response))
  }

  ghost predicate Good(s: State, ttl: int) {
    && Agrees(s.cache, LogOf(s.history), s.clock, ttl)
    && AllJustified(s.history, ttl) && InTime(s.history, s.clock) && FlightProduced(s)
  }

  lemma HappenedStill(history: seq<Event>, more: Event, e: Event)
    requires Happened(history, e)
    ensures Happened(history + [more], e)
  {
    var i :| 0 <= i < |history| && history[i] == e;
    assert (history + [more])[i] == e;
  }

  lemma JustifiedNext(history: seq<Event>, e: Event, ttl: int)
    requires AllJustified(history, ttl) && Justified(history, e, ttl)
    ensures AllJustified(history + [e], ttl)
  {
    hide Justified;
    var h := history + [e];
    forall i | 0 <= i < |h| ensures Justified(h[..i], h[i], ttl) {
      assert h[..i] == if i < |history| then history[..i] else history;
    }
  }

  lemma InTimeNext(history: seq<Event>, clock: int, e: Event, now: int)
    requires InTime(history, clock) && clock <= now && (e.Produced? || TimeOf(e) == now)
    ensures InTime(history + [e], now)
  {
    var h := history + [e];
    assert forall i :: 0 <= i < |history| ==> h[i] == history[i];
  }

  /** Recording an event that is itself justified. */
  lemma RecordKeepsGood(s: State, e: Event, next: State, ttl: int)
    requires Good(s, ttl) && s.clock <= next.clock && next.history == s.history + [e]
    requires Justified(s.history, e, ttl) && (e.Produced? || TimeOf(e) == next.clock)
    requires Agrees(next.cache, LogOf(next.history), next.clock, ttl)
    requires forall id :: id in next.flight && next.flight[id].Returned? ==>
                            (id in s.flight && next.flight[id] == s.flight[id])
                            || Happened(next.history, Produced(next.flight[id].r, next.flight[id].response))
    ensures Good(next, ttl)
  {
    hide Agrees, LogOf, Justified, Happened, AllJustified, InTime;
    JustifiedNext(s.history, e, ttl);
    InTimeNext(s.history, s.clock, e, next.clock);
    forall id | id in next.flight && next.flight[id].Returned?
      ensures Happened(next.history, Produced(next.flight[id].r, next.flight[id].response))
    {
      if id in s.flight && next.flight[id] == s.flight[id] {
        HappenedStill(s.history, e, Produced(s.flight[id].r, s.flight[id].response));
      }
    }
  }

  /** What a lookup finds is decided by the last save. */
  lemma LookupFinds(s: State, key: string, now: int, ttl: int)
    requires Agrees(s.cache, LogOf(s.history), s.clock, ttl) && s.clock <= now
    ensures CacheGet(s.cache, key, now, ttl) ==
            if Misses(s.history, key, now, ttl) then None else s.history[LastSave(s.history, key)].response
  {
    hide LogOf, LastSave;
    AgreesLater(s.cache, LogOf(s.history), s.clock, now, ttl);
    LatestIsLastSave(s.history, key);
  }

  lemma LookupKeepsGood(s: State, id: nat, r: Request, elapsed: nat, ttl: int)
    requires Good(s, ttl)
    ensures Good(Next(s, Lookup(id, r, elapsed), ttl), ttl)
  {
    hide Agrees, LogOf, CacheGet, AfterGet, CacheKey, Happened, AllJustified, InTime, LastSave;
    if id !in s.flight {
      var now := s.clock + elapsed;
      var cached := CacheGet(s.cache, CacheKey(r), now, ttl);
      var e := if cached.Some? then Served(r, cached, now) else Started(r, now);
      AgreesLater(s.cache, LogOf(s.history), s.clock, now, ttl);
      LookupFinds(s, CacheKey(r), now, ttl);
      LogNext(s.history, e);
      RecordKeepsGood(s, e, Next(s, Lookup(id, r, elapsed), ttl), ttl);
    }
  }

  lemma ReturnKeepsGood(s: State, id: nat, response: Payload, ttl: int)
    requires Good(s, ttl)
    ensures Good(Next(s, Return(id, response), ttl), ttl)
  {
    hide Agrees, LogOf, AllJustified, InTime;
    if id in s.flight && s.flight[id].Running? {
      var e := Produced(s.flight[id].r, response);
      LogNext(s.history, e);
      assert (s.history + [e])[|s.history|] == e;
      RecordKeepsGood(s, e, Next(s, Return(id, response), ttl), ttl);
    }
  }

  lemma StoreKeepsGood(s: State, id: nat, elapsed: nat, ttl: int)
    requires Good(s, ttl)
    ensures Good(Next(s, Store(id, elapsed), ttl), ttl)
  {
    hide Agrees, LogOf, CacheKey, Happened, AllJustified, InTime;
    if id in s.flight && s.flight[id].Returned? {
      var now, r, response := s.clock + elapsed, s.flight[id].r, s.flight[id].response;
      var e := Saved(r, response, now);
      AgreesLater(s.cache, LogOf(s.history), s.clock, now, ttl);
      AgreesSet(s.cache, LogOf(s.history), now, CacheKey(r), Entry(now, response), ttl);
      LogNext(s.history, e);
      RecordKeepsGood(s, e, Next(s, Store(id, elapsed), ttl), ttl);
    }
  }

  lemma CleanupKeepsGood(s: State, elapsed: nat, ttl: int)
    requires Good(s, ttl)
    ensures Good(Next(s, Cleanup(elapsed), ttl), ttl)
  {
    hide Agrees, LogOf, AllJustified, Expired;
    AgreesLater(s.cache, LogOf(s.history), s.clock, s.clock + elapsed, ttl);
  }

  lemma {:induction false} RunGood(steps: seq<Step>, ttl: int)
    ensures Good(Run(steps, ttl), ttl)
  {
    if steps != [] {
      hide Good, Next;
      var init, step := steps[..|steps| - 1], steps[|steps| - 1];
      RunGood(init, ttl);
      var s := Run(init, ttl);
      match step
      case Lookup(id, r, elapsed) => LookupKeepsGood(s, id, r, elapsed, ttl);
      case Return(id, response) => ReturnKeepsGood(s, id, response, ttl);
      case Raise(id) => RaiseKeepsGood(s, id, ttl);
      case Store(id, elapsed) => StoreKeepsGood(s, id, elapsed, ttl);
      case Cleanup(elapsed) => CleanupKeepsGood(s, elapsed, ttl);
    }
  }

  lemma RaiseKeepsGood(s: State, id: nat, ttl: int)
    requires Good(s, ttl)
    ensures Good(Next(s, Raise(id), ttl), ttl)
  {
    hide Agrees, LogOf, AllJustified, InTime, Happened;
  }

  // ----- what the runs guarantee

  /** In every interleaving, a lookup starts a handler if and only if there is no save under
      its cache key, or the last one is at least a time-to-live old, or its response is
      empty; otherwise it is served that save's response. */
  lemma LookupExactly(steps: seq<Step>, ttl: int, i: nat)
    requires i < |Run(steps, ttl).history|
            && (Run(steps, ttl).history[i].Started? || Run(steps, ttl).history[i].Served?)
    ensures var h := Run(steps, ttl).history;
            var key := CacheKey(h[i].r);
            && (h[i].Started? <==> Misses(h[..i], key, h[i].time, ttl))
            && (h[i].Served? ==> h[i].response == h[LastSave(h[..i], key)].response)
  {
    RunGood(steps, ttl);
    var h := Run(steps, ttl).history;
    assert Justified(h[..i], h[i], ttl);
  }

  /** In every interleaving, a response served from the cache was saved within the
      time-to-live, under the same cache key, by a request it had been produced for. */
  lemma ServedWasSaved(steps: seq<Step>, ttl: int, i: nat) returns (j: nat, k: nat)
    requires i < |Run(steps, ttl).history| && Run(steps, ttl).history[i].Served?
    ensures var h := Run(steps, ttl).history;
            && j < k < i
            && h[k].Saved? && CacheKey(h[k].r) == CacheKey(h[i].r) && h[k].response == h[i].response
            && h[j] == Produced(h[k].r, h[i].response)
            && h[i].time - h[k].time < ttl
  {
    RunGood(steps, ttl);
    var h := Run(steps, ttl).history;
    assert Justified(h[..i], h[i], ttl);
    k := LastSave(h[..i], CacheKey(h[i].r));
    assert Justified(h[..k], h[k], ttl);
    j :| 0 <= j < k && h[..k][j] == Produced(h[k].r, h[i].response);
  }

  ghost predicate ColonFree(steps: seq<Step>) {
    forall i :: 0 <= i < |steps| && steps[i].Lookup? ==> NoColon(steps[i].r.conn)
  }

  lemma {:induction false} HistoryColonFree(steps: seq<Step>, ttl: int)
    requires ColonFree(steps)
    ensures forall i :: 0 <= i < |Run(steps, ttl).history| ==> NoColon(Run(steps, ttl).history[i].r.conn)
    ensures forall id :: id in Run(steps, ttl).flight ==> NoColon(Run(steps, ttl).flight[id].r.conn)
  {
    if steps != [] {
      hide NoColon, CacheGet, AfterGet, CacheKey, Expired;
      var n := |steps| - 1;
      HistoryColonFree(steps[..n], ttl);
      assert steps[n].Lookup? ==> NoColon(steps[n].r.conn);
    }
  }

  /** With no colon in the connection ids, it was produced for the same connection and key. */
  lemma ServedWasProduced(steps: seq<Step>, ttl: int, i: nat) returns (j: nat, k: nat)
    requires ColonFree(steps)
    requires i < |Run(steps, ttl).history| && Run(steps, ttl).history[i].Served?
    ensures var h := Run(steps, ttl).history;
            && j < k < i
            && h[j] == Produced(h[i].r, h[i].response)
            && h[k].Saved? && h[k].r == h[i].r && h[k].response == h[i].response
            && h[i].time - h[k].time < ttl
  {
    hide Run, CacheKey;
    j, k := ServedWasSaved(steps, ttl, i);
    HistoryColonFree(steps, ttl);
    CacheKeyInjective(Run(steps, ttl).history[k].r, Run(steps, ttl).history[i].r);
  }

  /** In every interleaving, once a response has been saved, no handler starts under the same
      cache key within the time-to-live, provided nothing empty is saved there from then on
      until that lookup. */
  lemma HandlerNotRunAgain(steps: seq<Step>, ttl: int, i: nat, j: nat)
    requires var h := Run(steps, ttl).history;
             && i < j < |h| && h[i].Saved? && h[j].Started? && CacheKey(h[j].r) == CacheKey(h[i].r)
             && forall k :: i <= k < j && h[k].Saved? && CacheKey(h[k].r) == CacheKey(h[i].r) ==> h[k].response.Some?
    ensures var h := Run(steps, ttl).history; h[j].time - h[i].time >= ttl
  {
    hide CacheKey, Run;
    LookupExactly(steps, ttl, j);
    var h := Run(steps, ttl).history;
    var k := LastSave(h[..j], CacheKey(h[j].r));
    assert h[..j][i] == h[i] && k >= i;
    assert h[..j][k] == h[k];
    RunGood(steps, ttl);
    InTimeOrders(h, Run(steps, ttl).clock, i, k);
  }

  lemma InTimeOrders(history: seq<Event>, clock: int, i: nat, k: nat)
    requires InTime(history, clock) && i <= k < |history| && history[i].Saved? && history[k].Saved?
    ensures history[i].time <= history[k].time
  {
    assert TimeOf(history[i]) <= TimeOf(history[k]) || i == k;
  }

  // ----- runs that show the limits

  lemma RunNext(steps: seq<Step>, step: Step, ttl: int)
    ensures Run(steps + [step], ttl) == Next(Run(steps, ttl), step, ttl)
  {
    assert (steps + [step])[..|steps|] == steps;
  }

  lemma RunNothing(ttl: int)
    ensures Run([], ttl) == INITIAL
  {
  }

  /** One request looked up, run and saved. */
  lemma RunThree(r: Request, response: Payload, ttl: int)
    ensures var s := Run([Lookup(0, r, 0), Return(0, response), Store(0, 0)], ttl);
            && s.history == [Started(r, 0), Produced(r, response), Saved(r, response, 0)]
            && s.cache == map[CacheKey(r) := Entry(0, response)] && s.flight == map[] && s.clock == 0
  {
    hide Run, CacheKey;
    var a, b, c := Lookup(0, r, 0), Return(0, response), Store(0, 0);
    assert [] + [a] == [a] && [a] + [b] == [a, b] && [a, b] + [c] == [a, b, c];
    RunNothing(ttl);
    RunNext([], a, ttl);
    RunNext([a], b, ttl);
    RunNext([a, b], c, ttl);
    var s1, s2 := Run([a], ttl), Run([a, b], ttl);
    assert s1 == State(0, map[], map[0 := Running(r)], [Started(r, 0)]);
    assert s2.flight == map[0 := Returned(r, response)] && s2.history == [Started(r, 0), Produced(r, response)];
  }

  /** A request that overlaps another with the same key does run the handler again. */
  lemma OverlapRunsTwice(r: Request, ttl: int)
    ensures var h := Run([Lookup(0, r, 0), Lookup(1, r, 0)], ttl).history;
            h == [Started(r, 0), Started(r, 0)]
  {
    hide Run, CacheKey;
    var a, b := Lookup(0, r, 0), Lookup(1, r, 0);
    assert [] + [a] == [a] && [a] + [b] == [a, b];
    RunNothing(ttl);
    RunNext([], a, ttl);
    RunNext([a], b, ttl);
  }

  /** An empty response is saved and still looked up as a miss: the handler runs again at
      once. */
  lemma EmptyResponseRunsAgain(r: Request, ttl: int)
    ensures var h := Run([Lookup(0, r, 0), Return(0, None), Store(0, 0), Lookup(0, r, 0)], ttl).history;
            h == [Started(r, 0), Produced(r, None), Saved(r, None, 0), Started(r, 0)]
  {
    hide Run, CacheKey;
    var three, d := [Lookup(0, r, 0), Return(0, None), Store(0, 0)], Lookup(0, r, 0);
    RunThree(r, None, ttl);
    RunNext(three, d, ttl);
    assert three + [d] == [Lookup(0, r, 0), Return(0, None), Store(0, 0), d];
  }

  /** With a colon in its id, a connection is served what was produced for another one. */
  lemma ColonServesAnother(a: string, b: string, key: string, response: string, ttl: int)
    requires ttl > 0
    ensures var mine, other := Request(a, b + ":" + key), Request(a + ":" + b, key);
            var steps := [Lookup(0, mine, 0), Return(0, Some(response)), Store(0, 0), Lookup(1, other, 0)];
            Run(steps, ttl).history ==
            [Started(mine, 0), Produced(mine, Some(response)), Saved(mine, Some(response), 0),
              Served(other, Some(response), 0)]
  {
    hide Run, CacheKey;
    var mine, other := Request(a, b + ":" + key), Request(a + ":" + b, key);
    var three, d := [Lookup(0, mine, 0), Return(0, Some(response)), Store(0, 0)], Lookup(1, other, 0);
    RunThree(mine, Some(response), ttl);
    RunNext(three, d, ttl);
    SharedCacheKey(a, b, key);
    assert three + [d] == [Lookup(0, mine, 0), Return(0, Some(response)), Store(0, 0), d];
  }
}
