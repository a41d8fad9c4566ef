/**
 The edge gateway's fixed-window rate limiter: one stored bucket per key, shared
 by requests with different limits, with a time-to-live of two windows. Reads and
 writes of the store are taken as atomic and the clock as never running backwards.
 */
module RateLimiter {
  import opened Common

  const WINDOW: nat := 60
  const DEFAULT_LIMIT: nat := 100
  const TITAN_LIMIT: nat := 5

  datatype Bucket = Bucket(window: nat, count: nat)
  datatype Entry = Entry(bucket: Bucket, expires: nat)
  type Store = map<string, Entry>

  /** A request at second `now`. `evicted` tells whether the store has dropped the
      key's entry by then, which it may do from the entry's expiry on. */
  datatype Request = Request(key: string, limit: nat, now: nat, evicted: bool)

  datatype Decision = Decision(allowed: bool, remaining: nat, reset: nat)

  function WindowStart(now: nat): nat {
    now - now % WINDOW
  }

  // ---- Keys --------------------------------------------------------------------

  /** Who is asking: a token's subject, if it has one, the machine-to-machine bridge, or anybody
      else; the latter two are told apart by the connecting address, if there is one. */
  datatype Caller = User(sub: Option<string>) | Swarm(ip: Option<string>) | Other(ip: Option<string>)

  function RlKey(c: Caller): string {
    match c
    case User(sub) => "user:" + if sub.Some? then sub.value else "undefined"
    case Swarm(ip) => "swarm:" + if ip.Some? && ip.value != "" then ip.value else "unknown"
    case Other(ip) => "ip:" + if ip.Some? then ip.value else "null"
  }

  function Limit(titan: bool): nat {
    if titan then TITAN_LIMIT else DEFAULT_LIMIT
  }

  /** The texts are the same, or the program reads both as `word`. */
  predicate SameText(a: Option<string>, b: Option<string>, word: string, emptyIsNone: bool) {
    || a == b
    || ((a == None || a == Some(word) || (emptyIsNone && a == Some("")))
        && (b == None || b == Some(word) || (emptyIsNone && b == Some(""))))
  }

  /** Two callers share a bucket exactly if they are of the same kind and of the same subject
      or address, where a missing one reads as a fixed word. */
  lemma KeysSeparate(a: Caller, b: Caller)
    ensures RlKey(a) == RlKey(b) <==>
      match (a, b)
      case (User(x), User(y)) => SameText(x, y, "undefined", false)
      case (Swarm(x), Swarm(y)) => SameText(x, y, "unknown", true)
      case (Other(x), Other(y)) => SameText(x, y, "null", false)
      case _ => false
  {
    var x, y := RlKey(a), RlKey(b);
    assert a.User? ==> x[0] == 'u' && x[5..] == if a.sub.Some? then a.sub.value else "undefined";
    assert b.User? ==> y[0] == 'u' && y[5..] == if b.sub.Some? then b.sub.value else "undefined";
    assert a.Swarm? ==> x[0] == 's' && x[6..] == if a.ip.Some? && a.ip.value != "" then a.ip.value else "unknown";
    assert b.Swarm? ==> y[0] == 's' && y[6..] == if b.ip.Some? && b.ip.value != "" then b.ip.value else "unknown";
    assert a.Other? ==> x[0] == 'i' && x[3..] == if a.ip.Some? then a.ip.value else "null";
    assert b.Other? ==> y[0] == 'i' && y[3..] == if b.ip.Some? then b.ip.value else "null";
  }

  // ---- The stored bucket -----------------------------------------------------------

  function Read(store: Store, r: Request): Option<Bucket> {
    if r.key !in store || (r.evicted && r.now >= store[r.key].expires) then None
    else Some(store[r.key].bucket)
  }

  /** The bucket after the request: reset if its window has passed, then counted. */
  function NextBucket(store: Store, r: Request): Bucket {
    var start, b := WindowStart(r.now), Read(store, r);
    if b.Some? && b.value.window == start then Bucket(start, b.value.count + 1) else Bucket(start, 1)
  }

  function Put(store: Store, r: Request): Store {
    store[r.key := Entry(NextBucket(store, r), r.now + WINDOW * 2)]
  }

  function Decide(store: Store, r: Request): Decision {
    var n := NextBucket(store, r).count;
    Decision(n <= r.limit, Max(0, r.limit - n), WindowStart(r.now) + WINDOW)
  }

  class Limiter {
    /** False when no store is bound to the worker. */
    const bound: bool
    var kv: Store

    constructor (bound: bool)
      ensures this.bound == bound && kv == map[]
    {
      this.bound, kv := bound, map[];
    }

    method CheckRateLimit(r: Request) returns (d: Decision)
      modifies this
      ensures !bound ==> kv == old(kv) && d == Decision(true, r.limit, 0)
      ensures bound ==> kv == Put(old(kv), r) && d == Decide(old(kv), r) && kv[r.key].expires == r.now + 120
    {
      if !bound {
        return Decision(true, r.limit, 0);
      }
      var windowStart := r.now - r.now % WINDOW;
      var bucket := Bucket(windowStart, 0);
      if r.key in kv && !(r.evicted && r.now >= kv[r.key].expires) {
        bucket := kv[r.key].bucket;
      }
      if bucket.window != windowStart {
        bucket := Bucket(windowStart, 0);
      }
      bucket := bucket.(count := bucket.count + 1);
      d := Decision(bucket.count <= r.limit, if r.limit >= bucket.count then r.limit - bucket.count else 0,
                    windowStart + WINDOW);
      kv := kv[r.key := Entry(bucket, r.now + WINDOW * 2)];
    }
  }

  // ---- Reference: counting over the whole history of requests ------------------------

  /** Requests of the history on this key in the minute starting at `window`. */
  function Seen(trace: seq<Request>, key: string, window: nat): nat {
    if trace == [] then 0
    else
      var r := trace[|trace| - 1];
      Seen(trace[..|trace| - 1], key, window) + if r.key == key && window <= r.now < window + 60 then 1 else 0
  }

  /** The decision on the last request, from nothing but the requests before it. */
  function Reference(trace: seq<Request>): Decision
    requires trace != []
  {
    var r := trace[|trace| - 1];
    var minute := r.now / 60 * 60;
    var n := Seen(trace[..|trace| - 1], r.key, minute) + 1;
    Decision(n <= r.limit, if n <= r.limit then r.limit - n else 0, minute + 60)
  }

  ghost predicate ClockOk(trace: seq<Request>) {
    forall i, j :: 0 <= i < j < |trace| ==> trace[i].now <= trace[j].now
  }

  function StoreAfter(trace: seq<Request>): Store {
    if trace == [] then map[] else Put(StoreAfter(trace[..|trace| - 1]), trace[|trace| - 1])
  }

  function StoredCount(store: Store, key: string, window: nat): nat {
    if key in store && store[key].bucket.window == window then store[key].bucket.count else 0
  }

  /** The store knows the counts of every window that is not over, holds none for a
      later one, and nothing in it can expire before its window is over. */
  ghost predicate Represents(store: Store, trace: seq<Request>) {
    && (forall key, window :: window % 60 == 0 && (trace != [] ==> WindowStart(trace[|trace| - 1].now) <= window) ==>
         StoredCount(store, key, window) == Seen(trace, key, window))
    && (forall key :: key in store ==>
         && store[key].expires >= store[key].bucket.window + 120
         && trace != [] && store[key].bucket.window <= WindowStart(trace[|trace| - 1].now))
  }

  lemma WindowMonotone(a: nat, b: nat)
    requires a <= b
    ensures WindowStart(a) <= WindowStart(b) <= b < WindowStart(b) + 60
    ensures WindowStart(b) % 60 == 0 && WindowStart(b) == b / 60 * 60
  {
  }

  lemma NextCount(store: Store, trace: seq<Request>, r: Request)
    requires Represents(store, trace)
    requires trace != [] ==> trace[|trace| - 1].now <= r.now
    ensures NextBucket(store, r) == Bucket(WindowStart(r.now), Seen(trace, r.key, WindowStart(r.now)) + 1)
  {
    hide WindowStart;
    var start := WindowStart(r.now);
    WindowMonotone(r.now, r.now);
    if trace != [] {
      WindowMonotone(trace[|trace| - 1].now, r.now);
    }
    assert StoredCount(store, r.key, start) == Seen(trace, r.key, start);
  }

  lemma PutRepresents(store: Store, trace: seq<Request>, r: Request)
    requires Represents(store, trace)
    requires trace != [] ==> trace[|trace| - 1].now <= r.now
    ensures Represents(Put(store, r), trace + [r])
  {
    var start, store', trace' := WindowStart(r.now), Put(store, r), trace + [r];
    NextCount(store, trace, r);
    assert trace'[..|trace|] == trace;
    WindowMonotone(r.now, r.now);
    if trace != [] {
      WindowMonotone(trace[|trace| - 1].now, r.now);
    }
    forall key, window | start <= window && window % 60 == 0
      ensures StoredCount(store', key, window) == Seen(trace', key, window) {
      assert StoredCount(store, key, window) == Seen(trace, key, window);
    }
  }

  lemma {:induction false} StoreRepresents(trace: seq<Request>)
    requires ClockOk(trace)
    ensures Represents(StoreAfter(trace), trace)
  {
    if trace != [] {
      var front, r := trace[..|trace| - 1], trace[|trace| - 1];
      StoreRepresents(front);
      PutRepresents(StoreAfter(front), front, r);
      assert trace == front + [r];
    }
  }

  /** Every decision the stored bucket gives is the one counting the whole history
      gives: the j-th request of a window is admitted if and only if j is at most
      that request's own limit. */
  lemma DecisionIsReference(trace: seq<Request>)
    requires trace != [] && ClockOk(trace)
    ensures Decide(StoreAfter(trace[..|trace| - 1]), trace[|trace| - 1]) == Reference(trace)
  {
    var front := trace[..|trace| - 1];
    StoreRepresents(front);
    NextCount(StoreAfter(front), front, trace[|trace| - 1]);
  }

  // ---- What follows from it -----------------------------------------------------------

  ghost predicate SameButEviction(a: seq<Request>, b: seq<Request>) {
    |a| == |b| && forall i :: 0 <= i < |a| ==> a[i].(evicted := true) == b[i].(evicted := true)
  }

  lemma {:induction false} SeenIgnoresEviction(a: seq<Request>, b: seq<Request>, key: string, window: nat)
    requires SameButEviction(a, b)
    ensures Seen(a, key, window) == Seen(b, key, window)
  {
    if a != [] {
      var n := |a| - 1;
      assert a[n].(evicted := true) == b[n].(evicted := true);
      SeenIgnoresEviction(a[..n], b[..n], key, window);
    }
  }

  /** Dropping entries at any time from their expiry on never changes a decision. */
  lemma EvictionIrrelevant(a: seq<Request>, b: seq<Request>)
    requires a != [] && ClockOk(a) && SameButEviction(a, b)
    ensures Decide(StoreAfter(a[..|a| - 1]), a[|a| - 1]) == Decide(StoreAfter(b[..|b| - 1]), b[|b| - 1])
  {
    forall i, j | 0 <= i < j < |b| ensures b[i].now <= b[j].now {
      assert a[i].(evicted := true) == b[i].(evicted := true) && a[j].(evicted := true) == b[j].(evicted := true);
    }
    DecisionIsReference(a);
    DecisionIsReference(b);
    var n := |a| - 1;
    assert a[n].(evicted := true) == b[n].(evicted := true);
    SeenIgnoresEviction(a[..n], b[..n], a[n].key, WindowStart(a[n].now));
  }

  /** Requests of the history on this key, with a limit of at most `limit`, that
      were admitted at a time in `[from, to)`. */
  function Admitted(trace: seq<Request>, key: string, limit: nat, from: nat, to: nat): nat {
    if trace == [] then 0
    else
      var r := trace[|trace| - 1];
      Admitted(trace[..|trace| - 1], key, limit, from, to)
      + if r.key == key && r.limit <= limit && from <= r.now < to && Reference(trace).allowed then 1 else 0
  }

  lemma {:induction false} WindowAdmits(trace: seq<Request>, key: string, limit: nat, window: nat)
    requires window % 60 == 0
    ensures Admitted(trace, key, limit, window, window + 60) <= Min(limit, Seen(trace, key, window))
  {
    if trace != [] {
      hide Reference;
      var front, r := trace[..|trace| - 1], trace[|trace| - 1];
      WindowAdmits(front, key, limit, window);
      if window <= r.now < window + 60 {
        AllowedInMinute(trace, window);
      }
    }
  }

  lemma AllowedInMinute(trace: seq<Request>, window: nat)
    requires trace != [] && window % 60 == 0 && window <= trace[|trace| - 1].now < window + 60
    ensures var r := trace[|trace| - 1];
            Reference(trace).allowed <==> Seen(trace[..|trace| - 1], r.key, window) < r.limit
  {
    hide Seen;
    assert trace[|trace| - 1].now / 60 * 60 == window;
  }

  lemma {:induction false} TwoWindowsCover(trace: seq<Request>, key: string, limit: nat, from: nat, to: nat,
                                           window: nat)
    requires window <= from && to <= window + 120
    ensures Admitted(trace, key, limit, from, to)
         <= Admitted(trace, key, limit, window, window + 60) + Admitted(trace, key, limit, window + 60, window + 120)
  {
    if trace != [] {
      TwoWindowsCover(trace[..|trace| - 1], key, limit, from, to, window);
    }
  }

  /** Any minute, wherever it starts, admits at most twice the limit. */
  lemma IntervalAdmits(trace: seq<Request>, key: string, limit: nat, from: nat, to: nat)
    requires to <= from + 60
    ensures Admitted(trace, key, limit, from, to) <= 2 * limit
  {
    var window := from / 60 * 60;
    TwoWindowsCover(trace, key, limit, from, to, window);
    WindowAdmits(trace, key, limit, window);
    WindowAdmits(trace, key, limit, window + 60);
  }

  /** In the gateway's numbers: at most ten TITAN requests and two hundred others a minute. */
  lemma MinuteAdmits(trace: seq<Request>, key: string, from: nat)
    ensures Admitted(trace, key, Limit(true), from, from + 60) <= 10
    ensures Admitted(trace, key, Limit(false), from, from + 60) <= 200
  {
    IntervalAdmits(trace, key, Limit(true), from, from + 60);
    IntervalAdmits(trace, key, Limit(false), from, from + 60);
  }

  /** `a` requests in the last second of a window, then `b` in the first of the next. */
  function Burst(key: string, limit: nat, a: nat, b: nat): seq<Request> {
    if b > 0 then Burst(key, limit, a, b - 1) + [Request(key, limit, WINDOW, false)]
    else if a > 0 then Burst(key, limit, a - 1, 0) + [Request(key, limit, WINDOW - 1, false)]
    else []
  }

  /** A burst so far: its counts in the two windows, what it got, and its clock. */
  ghost predicate BurstOk(t: seq<Request>, key: string, limit: nat, a: nat, b: nat) {
    && Seen(t, key, 0) == a && Seen(t, key, WINDOW) == b
    && Admitted(t, key, limit, WINDOW - 1, WINDOW + 1) == a + b
    && ClockOk(t) && (forall i :: 0 <= i < |t| ==> t[i].now <= if b > 0 then WINDOW else WINDOW - 1)
  }

  lemma BurstPush(t: seq<Request>, key: string, limit: nat, a: nat, b: nat, later: bool)
    requires BurstOk(t, key, limit, a, b)
    requires if later then b < limit else b == 0 && a < limit
    ensures BurstOk(t + [Request(key, limit, if later then WINDOW else WINDOW - 1, false)], key, limit,
                    if later then a else a + 1, if later then b + 1 else b)
  {
    var r := Request(key, limit, if later then WINDOW else WINDOW - 1, false);
    assert (t + [r])[..|t|] == t;
    assert WindowStart(WINDOW) == WINDOW && WindowStart(WINDOW - 1) == 0;
  }

  lemma {:induction false} BurstAdmits(key: string, limit: nat, a: nat, b: nat)
    requires a <= limit && b <= limit
    ensures BurstOk(Burst(key, limit, a, b), key, limit, a, b)
    decreases a + b
  {
    if b > 0 {
      BurstAdmits(key, limit, a, b - 1);
      BurstPush(Burst(key, limit, a, b - 1), key, limit, a, b - 1, true);
    } else if a > 0 {
      BurstAdmits(key, limit, a - 1, 0);
      BurstPush(Burst(key, limit, a - 1, 0), key, limit, a - 1, 0, false);
    }
  }

  /** The bound is sharp: two seconds can admit twice the limit. */
  lemma TwiceLimitReached(key: string, limit: nat)
    ensures ClockOk(Burst(key, limit, limit, limit))
    ensures Admitted(Burst(key, limit, limit, limit), key, limit, 59, 61) == 2 * limit
  {
    BurstAdmits(key, limit, limit, limit);
  }

  /** One counter for both limits: once a key has been used five times in a minute, its
      TITAN requests are refused while ordinary ones still pass, up to the hundredth. */
  lemma TitanStarved(trace: seq<Request>, r: Request)
    requires ClockOk(trace + [r])
    requires 5 <= Seen(trace, r.key, r.now / 60 * 60) < 100
    ensures !Decide(StoreAfter(trace), r.(limit := Limit(true))).allowed
    ensures Decide(StoreAfter(trace), r.(limit := Limit(false))).allowed
  {
    var all := trace + [r];
    assert forall i :: 0 <= i < |trace| ==> all[i] == trace[i];
    StoreRepresents(trace);
    assert trace != [] ==> all[|trace| - 1].now <= all[|trace|].now;
    NextCount(StoreAfter(trace), trace, r.(limit := Limit(true)));
    NextCount(StoreAfter(trace), trace, r.(limit := Limit(false)));
  }
}
