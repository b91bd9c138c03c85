/** Token-bucket limiter of internal/middleware/ratelimit.go: the buckets, the limiter that owns them,
    and what the periodic deletion of idle buckets does and does not change. Times are seconds. */
module RateLimiter {

  const CLEAN_EVERY: real := 300.0
  const IDLE_LIMIT: real := 600.0

  /** The limits after the constructor's defaults. */
  datatype Config = Config(perMinute: int, burst: int) {
    predicate Valid() { perMinute > 0 && burst > 0 }
    function Rate(): real { perMinute as real / 60.0 }
    function Max(): real { burst as real }
  }

  function Normalize(perMinute: int, burst: int): (cfg: Config)
    ensures cfg.Valid()
    ensures perMinute > 0 ==> cfg.perMinute == perMinute
    ensures perMinute <= 0 ==> cfg.perMinute == 20
    ensures burst > 0 ==> cfg.burst == burst
    ensures burst <= 0 ==> cfg.burst == 5
  {
    Config(if perMinute <= 0 then 20 else perMinute, if burst <= 0 then 5 else burst)
  }

  /** One bucket's changing part. */
  datatype Level = Level(tokens: real, lastTime: real)

  /** One request and the five readings of the clock made while it is served. */
  datatype Request = Request(key: string, check: real, cutoff: real, cleaned: real, create: real, spend: real) {
    predicate OrderedFrom(from: real) {
      from <= check <= cutoff <= cleaned <= create <= spend
    }
  }

  datatype State = State(buckets: map<string, Level>, lastClean: real)

  function Min(a: real, b: real): real { if a > b then b else a }

  function Times(n: nat, x: real): real {
    if n == 0 then 0.0 else x + Times(n - 1, x)
  }

  /** elapsed * rate, written as a repeated sum so that reasoning about it stays linear: see EarnedIsProduct. */
  function Earned(cfg: Config, elapsed: real): real
    requires cfg.Valid()
  {
    Times(cfg.perMinute, elapsed) / 60.0
  }

  lemma {:induction false} TimesIsProduct(n: nat, x: real)
    ensures Times(n, x) == n as real * x
  {
    if n == 0 {
    } else {
      TimesIsProduct(n - 1, x);
      assert n as real * x == x + (n - 1) as real * x;
    }
  }

  lemma EarnedIsProduct(cfg: Config, elapsed: real)
    requires cfg.Valid()
    ensures Earned(cfg, elapsed) == elapsed * cfg.Rate()
  {
    TimesIsProduct(cfg.perMinute, elapsed);
  }

  function Refill(cfg: Config, l: Level, now: real): real
    requires cfg.Valid()
  {
    Min(l.tokens + Earned(cfg, now - l.lastTime), cfg.Max())
  }

  function Spend(cfg: Config, l: Level, now: real): (Level, bool)
    requires cfg.Valid()
  {
    var t := Refill(cfg, l, now);
    if t < 1.0 then (Level(t, now), false) else (Level(t - 1.0, now), true)
  }

  predicate Stale(l: Level, r: Request) { l.lastTime < r.cutoff - IDLE_LIMIT }

  function Sweep(s: State, r: Request): State {
    if r.check - s.lastClean > CLEAN_EVERY
    then State(map k | k in s.buckets && !Stale(s.buckets[k], r) :: s.buckets[k], r.cleaned)
    else s
  }

  function Serve(cfg: Config, s: State, r: Request): (State, bool)
    requires cfg.Valid()
  {
    var l := if r.key in s.buckets then s.buckets[r.key] else Level(cfg.Max(), r.create);
    var (l', ok) := Spend(cfg, l, r.spend);
    (s.(buckets := s.buckets[r.key := l']), ok)
  }

  /** One request; `sweeping` distinguishes the limiter from the one that never deletes a bucket. */
  function Step(cfg: Config, sweeping: bool, s: State, r: Request): (State, bool)
    requires cfg.Valid()
  {
    Serve(cfg, if sweeping then Sweep(s, r) else s, r)
  }

  class Bucket {
    var tokens: real
    var max: real
    var rate: real
    var lastTime: real

    constructor (cfg: Config, now: real)
      ensures Fits(cfg) && View() == Level(cfg.Max(), now)
    {
      tokens, max, rate, lastTime := cfg.Max(), cfg.Max(), cfg.Rate(), now;
    }

    ghost predicate Fits(cfg: Config)
      reads this
    {
      max == cfg.Max() && rate == cfg.Rate()
    }

    ghost function View(): Level
      reads this
    {
      Level(tokens, lastTime)
    }

    method Allow(ghost cfg: Config, now: real) returns (ok: bool)
      requires cfg.Valid() && Fits(cfg)
      modifies this
      ensures Fits(cfg)
      ensures (View(), ok) == Spend(cfg, old(View()), now)
    {
      var elapsed := now - lastTime;
      EarnedIsProduct(cfg, elapsed);
      lastTime := now;
      tokens := tokens + elapsed * rate;
      if tokens > max {
        tokens := max;
      }
      if tokens < 1.0 {
        return false;
      }
      tokens := tokens - 1.0;
      return true;
    }
  }

  class Limiter {
    var buckets: map<string, Bucket>
    var cfg: Config
    var lastClean: real

    constructor (perMinute: int, burst: int, now: real)
      ensures Valid() && fresh(buckets.Values)
      ensures cfg == Normalize(perMinute, burst) && View() == State(map[], now)
    {
      buckets, cfg, lastClean := map[], Normalize(perMinute, burst), now;
    }

    ghost predicate Valid()
      reads this, buckets.Values
    {
      && cfg.Valid()
      && (forall k <- buckets :: buckets[k].Fits(cfg))
      && (forall j, k | j in buckets && k in buckets && j != k :: buckets[j] != buckets[k])
    }

    ghost function View(): State
      reads this, buckets.Values
    {
      State(map k | k in buckets :: buckets[k].View(), lastClean)
    }

    method Allow(r: Request) returns (ok: bool)
      requires Valid()
      modifies this, buckets.Values
      ensures Valid() && cfg == old(cfg) && fresh(buckets.Values - old(buckets.Values))
      ensures (View(), ok) == Step(cfg, true, old(View()), r)
    {
      Clean(r);
      ok := Admit(r);
    }

    /** The periodic cleanup. */
    method Clean(r: Request)
      requires Valid()
      modifies this`buckets, this`lastClean
      ensures Valid() && buckets.Values <= old(buckets.Values)
      ensures View() == Sweep(old(View()), r)
    {
      if r.check - lastClean > CLEAN_EVERY {
        DeleteStale(r);
        lastClean := r.cleaned;
      }
    }

    /** Looks the caller's bucket up, adding a full one when there is none. */
    method BucketFor(r: Request) returns (b: Bucket)
      requires Valid()
      modifies this`buckets
      ensures Valid() && buckets == old(buckets)[r.key := b]
      ensures r.key in old(buckets) ==> b == old(buckets)[r.key]
      ensures r.key !in old(buckets) ==> fresh(b) && b.View() == Level(cfg.Max(), r.create)
    {
      if r.key !in buckets {
        b := new Bucket(cfg, r.create);
        buckets := buckets[r.key := b];
      } else {
        b := buckets[r.key];
      }
    }

    method Admit(r: Request) returns (ok: bool)
      requires Valid()
      modifies this`buckets, buckets.Values
      ensures Valid() && fresh(buckets.Values - old(buckets.Values))
      ensures (View(), ok) == Serve(cfg, old(View()), r)
    {
      var b := BucketFor(r);
      assert View() == old(View()).(buckets := old(View()).buckets[r.key := b.View()]);
      ok := Charge(r.key, b, r.spend);
      assert View().buckets == Serve(cfg, old(View()), r).0.buckets;
    }

    method Charge(key: string, b: Bucket, now: real) returns (ok: bool)
      requires Valid() && key in buckets && buckets[key] == b
      modifies b
      ensures Valid()
      ensures var (l, paid) := Spend(cfg, old(b.View()), now);
              ok == paid && View() == State(old(View()).buckets[key := l], lastClean)
    {
      ok := b.Allow(cfg, now);
      assert forall k <- buckets | k != key :: buckets[k].View() == old(buckets[k].View());
    }

    method DeleteStale(r: Request)
      requires Valid()
      modifies this`buckets
      ensures Valid() && buckets.Values <= old(buckets.Values)
      ensures buckets == map k | k in old(buckets) && !Stale(old(buckets)[k].View(), r) :: old(buckets)[k]
    {
      var all := buckets;
      var rest := buckets.Keys;
      while rest != {}
        invariant rest <= all.Keys && buckets.Keys <= all.Keys
        invariant buckets == map k | k in all && (k in rest || !Stale(all[k].View(), r)) :: all[k]
      {
        var k :| k in rest;
        if all[k].lastTime < r.cutoff - IDLE_LIMIT {
          buckets := buckets - {k};
        }
        rest := rest - {k};
      }
    }
  }

  // ------------------------------------------------------------------ runs

  predicate Ordered(trace: seq<Request>, from: real) {
    trace != [] ==> trace[0].OrderedFrom(from) && Ordered(trace[1..], trace[0].spend)
  }

  function Decisions(cfg: Config, sweeping: bool, s: State, trace: seq<Request>): (ds: seq<bool>)
    requires cfg.Valid()
    ensures |ds| == |trace|
    decreases trace
  {
    if trace == [] then []
    else
      var (s', ok) := Step(cfg, sweeping, s, trace[0]);
      [ok] + Decisions(cfg, sweeping, s', trace[1..])
  }

  function Final(cfg: Config, sweeping: bool, s: State, trace: seq<Request>): State
    requires cfg.Valid()
    decreases trace
  {
    if trace == [] then s else Final(cfg, sweeping, Step(cfg, sweeping, s, trace[0]).0, trace[1..])
  }

  function Start(from: real): State { State(map[], from) }

  /** How many requests of `key` were allowed between the two times, both included. */
  function Count(trace: seq<Request>, ds: seq<bool>, key: string, begin: real, end: real): nat
    requires |ds| == |trace|
  {
    if trace == [] then 0
    else
      (if trace[0].key == key && ds[0] && begin <= trace[0].spend <= end then 1 else 0)
      + Count(trace[1..], ds[1..], key, begin, end)
  }

  function Only(trace: seq<Request>, key: string): seq<Request> {
    if trace == [] then [] else (if trace[0].key == key then [trace[0]] else []) + Only(trace[1..], key)
  }

  function DecisionsOf(trace: seq<Request>, ds: seq<bool>, key: string): seq<bool>
    requires |ds| == |trace|
  {
    if trace == [] then []
    else (if trace[0].key == key then [ds[0]] else []) + DecisionsOf(trace[1..], ds[1..], key)
  }

  /** An idle bucket is full again by the time it may be deleted. */
  predicate IdleRefills(cfg: Config) { 10 * cfg.perMinute >= cfg.burst }

  ghost predicate CleanupUnobservable(cfg: Config, from: real)
    requires cfg.Valid()
  {
    forall trace | Ordered(trace, from) ::
      Decisions(cfg, true, Start(from), trace) == Decisions(cfg, false, Start(from), trace)
  }

  /** burst + rate * T */
  function Allowance(cfg: Config, elapsed: real): real
    requires cfg.Valid()
  {
    cfg.Max() + elapsed * cfg.Rate()
  }

  lemma AllowanceIsEarned(cfg: Config, elapsed: real)
    requires cfg.Valid()
    ensures Allowance(cfg, elapsed) == cfg.Max() + Earned(cfg, elapsed)
  {
    EarnedIsProduct(cfg, elapsed);
  }

  ghost predicate WindowBounded(cfg: Config, sweeping: bool, from: real)
    requires cfg.Valid()
  {
    forall trace, key, begin, end | Ordered(trace, from) && begin <= end ::
      Count(trace, Decisions(cfg, sweeping, Start(from), trace), key, begin, end) as real
      <= Allowance(cfg, end - begin)
  }

  ghost predicate KeysIsolated(cfg: Config, from: real)
    requires cfg.Valid()
  {
    forall trace, key | Ordered(trace, from) ::
      DecisionsOf(trace, Decisions(cfg, true, Start(from), trace), key)
      == Decisions(cfg, true, Start(from), Only(trace, key))
  }

  /** What a request deletes: when more than five minutes have passed since the last cleanup, exactly the buckets last
      used more than ten minutes before, its own too; and then the cleanup interval starts again. */
  lemma SweepDeletesIff(s: State, r: Request, key: string)
    ensures var after := Sweep(s, r);
            && (key in after.buckets <==>
                  key in s.buckets && !(r.check - s.lastClean > 300.0 && s.buckets[key].lastTime < r.cutoff - 600.0))
            && (key in after.buckets ==> after.buckets[key] == s.buckets[key])
            && after.lastClean == if r.check - s.lastClean > 300.0 then r.cleaned else s.lastClean
  {
  }

  // ------------------------------------------------------------------ refill arithmetic

  lemma EarnedAdds(cfg: Config, a: real, b: real)
    requires cfg.Valid()
    ensures Earned(cfg, a + b) == Earned(cfg, a) + Earned(cfg, b)
  {
    EarnedIsProduct(cfg, a + b);
    EarnedIsProduct(cfg, a);
    EarnedIsProduct(cfg, b);
  }

  lemma EarnedNothing(cfg: Config)
    requires cfg.Valid()
    ensures Earned(cfg, 0.0) == 0.0
  {
    EarnedIsProduct(cfg, 0.0);
  }

  lemma EarnedMonotone(cfg: Config, a: real, b: real)
    requires cfg.Valid() && a <= b
    ensures Earned(cfg, a) <= Earned(cfg, b)
  {
    EarnedAdds(cfg, a, b - a);
    EarnedIsProduct(cfg, b - a);
  }

  /** Tokens grow by what the elapsed time earns, and never shrink while waiting. */
  lemma RefillOverTime(cfg: Config, l: Level, t0: real, t1: real)
    requires cfg.Valid() && t0 <= t1
    ensures Refill(cfg, l, t0) <= Refill(cfg, l, t1) <= Refill(cfg, l, t0) + Earned(cfg, t1 - t0)
  {
    EarnedAdds(cfg, t0 - l.lastTime, t1 - t0);
    assert t1 - l.lastTime == (t0 - l.lastTime) + (t1 - t0);
    EarnedMonotone(cfg, 0.0, t1 - t0);
    EarnedNothing(cfg);
  }

  lemma IdleBucketIsFull(cfg: Config, l: Level, cutoff: real, now: real)
    requires cfg.Valid() && IdleRefills(cfg)
    requires l.tokens >= 0.0 && l.lastTime < cutoff - IDLE_LIMIT && cutoff <= now
    ensures Refill(cfg, l, now) == cfg.Max()
  {
    EarnedMonotone(cfg, IDLE_LIMIT, now - l.lastTime);
    EarnedIsProduct(cfg, IDLE_LIMIT);
  }

  /** Levels stay within [0, burst] and are never stamped in the future. */
  predicate Sane(cfg: Config, s: State, now: real) {
    forall k <- s.buckets :: 0.0 <= s.buckets[k].tokens <= cfg.Max() && s.buckets[k].lastTime <= now
  }

  lemma SpendSane(cfg: Config, l: Level, now: real)
    requires cfg.Valid() && 0.0 <= l.tokens <= cfg.Max() && l.lastTime <= now
    ensures var (l', ok) := Spend(cfg, l, now); 0.0 <= l'.tokens <= cfg.Max() && l'.lastTime == now
  {
    RefillOverTime(cfg, l, l.lastTime, now);
    EarnedNothing(cfg);
  }

  lemma StepSane(cfg: Config, sweeping: bool, s: State, r: Request, from: real)
    requires cfg.Valid() && Sane(cfg, s, from) && r.OrderedFrom(from)
    ensures Sane(cfg, Step(cfg, sweeping, s, r).0, r.spend)
  {
    var w := if sweeping then Sweep(s, r) else s;
    var l := if r.key in w.buckets then w.buckets[r.key] else Level(cfg.Max(), r.create);
    SpendSane(cfg, l, r.spend);
  }

  // ------------------------------------------------------------------ cleanup is unobservable

  /** The sweeping limiter has forgotten only buckets that are full at every later time. */
  ghost predicate Forgot(cfg: Config, clean: State, never: State, now: real)
    requires cfg.Valid()
  {
    && Sane(cfg, clean, now) && Sane(cfg, never, now)
    && clean.buckets.Keys <= never.buckets.Keys
    && (forall k <- clean.buckets :: clean.buckets[k] == never.buckets[k])
    && (forall k <- never.buckets | k !in clean.buckets :: Refill(cfg, never.buckets[k], now) == cfg.Max())
  }

  lemma ForgotStep(cfg: Config, clean: State, never: State, r: Request, from: real)
    requires cfg.Valid() && IdleRefills(cfg) && Forgot(cfg, clean, never, from) && r.OrderedFrom(from)
    ensures var (c, okC) := Step(cfg, true, clean, r);
            var (n, okN) := Step(cfg, false, never, r);
            okC == okN && Forgot(cfg, c, n, r.spend)
  {
    StepSane(cfg, true, clean, r, from);
    StepSane(cfg, false, never, r, from);
    var w := Sweep(clean, r);
    forall k | k in never.buckets && k !in w.buckets
      ensures Refill(cfg, never.buckets[k], r.spend) == cfg.Max()
    {
      RefillOverTime(cfg, never.buckets[k], from, r.spend);
      if k in clean.buckets {
        IdleBucketIsFull(cfg, never.buckets[k], r.cutoff, r.spend);
      }
    }
    if r.key !in w.buckets {
      FreshBucketIsFull(cfg, r.create, r.spend);
    }
  }

  lemma FreshBucketIsFull(cfg: Config, create: real, spend: real)
    requires cfg.Valid() && create <= spend
    ensures Refill(cfg, Level(cfg.Max(), create), spend) == cfg.Max()
  {
    EarnedMonotone(cfg, 0.0, spend - create);
    EarnedNothing(cfg);
  }

  lemma {:induction false} ForgotRun(cfg: Config, clean: State, never: State, trace: seq<Request>, from: real)
    requires cfg.Valid() && IdleRefills(cfg) && Forgot(cfg, clean, never, from) && Ordered(trace, from)
    ensures Decisions(cfg, true, clean, trace) == Decisions(cfg, false, never, trace)
    decreases trace
  {
    if trace == [] {
    } else {
      var r := trace[0];
      ForgotStep(cfg, clean, never, r, from);
      ForgotRun(cfg, Step(cfg, true, clean, r).0, Step(cfg, false, never, r).0, trace[1..], r.spend);
    }
  }

  // ------------------------------------------------------------------ the window bound

  /** What `key` could spend at time `now`. */
  function Available(cfg: Config, s: State, key: string, now: real): real
    requires cfg.Valid()
  {
    if key in s.buckets then Refill(cfg, s.buckets[key], now) else cfg.Max()
  }

  /** A served request pays for itself out of what was available before and what was earned since. */
  lemma ServePays(cfg: Config, s: State, r: Request, key: string, from: real)
    requires cfg.Valid() && Sane(cfg, s, from) && r.OrderedFrom(from)
    ensures var (s', ok) := Serve(cfg, s, r);
            Available(cfg, s', key, r.spend) + (if r.key == key && ok then 1.0 else 0.0)
            <= Available(cfg, s, key, from) + Earned(cfg, r.spend - from)
  {
    EarnedMonotone(cfg, 0.0, r.spend - from);
    EarnedNothing(cfg);
    if key in s.buckets {
      RefillOverTime(cfg, s.buckets[key], from, r.spend);
    } else {
      FreshBucketIsFull(cfg, r.create, r.spend);
    }
  }

  lemma AvailableInRange(cfg: Config, s: State, key: string, now: real)
    requires cfg.Valid() && Sane(cfg, s, now)
    ensures 0.0 <= Available(cfg, s, key, now) <= cfg.Max()
  {
    if key in s.buckets {
      RefillOverTime(cfg, s.buckets[key], s.buckets[key].lastTime, now);
      EarnedNothing(cfg);
    }
  }

  lemma {:induction false} NothingAfterTheWindow(trace: seq<Request>, ds: seq<bool>, key: string, begin: real,
                                                 end: real, from: real)
    requires |ds| == |trace| && Ordered(trace, from) && end < from
    ensures Count(trace, ds, key, begin, end) == 0
  {
    if trace == [] {
    } else {
      NothingAfterTheWindow(trace[1..], ds[1..], key, begin, end, trace[0].spend);
    }
  }

  lemma {:induction false} SpendingInWindow(cfg: Config, s: State, trace: seq<Request>, key: string, begin: real,
                                            end: real, from: real)
    requires cfg.Valid() && Sane(cfg, s, from) && Ordered(trace, from) && from <= end
    ensures Count(trace, Decisions(cfg, false, s, trace), key, begin, end) as real
            <= Available(cfg, s, key, from) + Earned(cfg, end - from)
    decreases trace
  {
    EarnedNothing(cfg);
    EarnedMonotone(cfg, 0.0, end - from);
    AvailableInRange(cfg, s, key, from);
    var ds := Decisions(cfg, false, s, trace);
    if trace == [] {
    } else {
      var r := trace[0];
      var (s', ok) := Step(cfg, false, s, r);
      assert ds[1..] == Decisions(cfg, false, s', trace[1..]);
      if end < r.spend {
        NothingAfterTheWindow(trace[1..], ds[1..], key, begin, end, r.spend);
      } else {
        StepSane(cfg, false, s, r, from);
        SpendingInWindow(cfg, s', trace[1..], key, begin, end, r.spend);
        ServePays(cfg, s, r, key, from);
        EarnedAdds(cfg, r.spend - from, end - r.spend);
        assert end - from == (r.spend - from) + (end - r.spend);
      }
    }
  }

  lemma {:induction false} NeverDeletingIsBounded(cfg: Config, s: State, trace: seq<Request>, key: string,
                                                  begin: real, end: real, from: real)
    requires cfg.Valid() && Sane(cfg, s, from) && Ordered(trace, from) && begin <= end
    ensures Count(trace, Decisions(cfg, false, s, trace), key, begin, end) as real
            <= cfg.Max() + Earned(cfg, end - begin)
    decreases trace
  {
    EarnedNothing(cfg);
    EarnedMonotone(cfg, 0.0, end - begin);
    var ds := Decisions(cfg, false, s, trace);
    if trace == [] {
    } else {
      var r := trace[0];
      var (s', ok) := Step(cfg, false, s, r);
      assert ds[1..] == Decisions(cfg, false, s', trace[1..]);
      StepSane(cfg, false, s, r, from);
      if r.spend < begin {
        NeverDeletingIsBounded(cfg, s', trace[1..], key, begin, end, r.spend);
      } else if end < r.spend {
        NothingAfterTheWindow(trace[1..], ds[1..], key, begin, end, r.spend);
      } else {
        SpendingInWindow(cfg, s', trace[1..], key, begin, end, r.spend);
        ServePays(cfg, s, r, key, from);
        SpendFromFull(cfg, s, r, key, from);
        EarnedMonotone(cfg, end - r.spend, end - begin);
      }
    }
  }

  lemma SpendFromFull(cfg: Config, s: State, r: Request, key: string, from: real)
    requires cfg.Valid() && Sane(cfg, s, from) && r.OrderedFrom(from)
    ensures var (s', ok) := Serve(cfg, s, r);
            Available(cfg, s', key, r.spend) + (if r.key == key && ok then 1.0 else 0.0) <= cfg.Max()
  {
    EarnedNothing(cfg);
  }

  // ------------------------------------------------------------------ requests that are far apart

  lemma OneTokenTime(cfg: Config)
    requires cfg.Valid()
    ensures Earned(cfg, 60.0 / cfg.perMinute as real) == 1.0
  {
    EarnedIsProduct(cfg, 60.0 / cfg.perMinute as real);
  }

  /** A request that comes no sooner than one token's time after every earlier one of its key is allowed. */
  lemma {:induction false} SpacedRequestsAreAllowed(cfg: Config, sweeping: bool, s: State, trace: seq<Request>,
                                                    from: real, j: nat)
    requires cfg.Valid() && Sane(cfg, s, from) && Ordered(trace, from) && j < |trace|
    requires forall i | 0 <= i < j :: trace[i].key == trace[j].key ==>
                                      trace[j].spend - trace[i].spend >= 60.0 / cfg.perMinute as real
    requires trace[j].key in s.buckets ==>
               trace[j].spend - s.buckets[trace[j].key].lastTime >= 60.0 / cfg.perMinute as real
    ensures Decisions(cfg, sweeping, s, trace)[j]
    decreases trace
  {
    var r := trace[0];
    if j == 0 {
      var w := if sweeping then Sweep(s, r) else s;
      if r.key in w.buckets {
        var l := w.buckets[r.key];
        OneTokenTime(cfg);
        EarnedMonotone(cfg, 60.0 / cfg.perMinute as real, r.spend - l.lastTime);
      } else {
        FreshBucketIsFull(cfg, r.create, r.spend);
      }
    } else {
      StepSane(cfg, sweeping, s, r, from);
      var s' := Step(cfg, sweeping, s, r).0;
      SpacedRequestsAreAllowed(cfg, sweeping, s', trace[1..], r.spend, j - 1);
      assert Decisions(cfg, sweeping, s, trace)[1..] == Decisions(cfg, sweeping, s', trace[1..]);
    }
  }

  // ------------------------------------------------------------------ keys do not see one another

  ghost predicate SameForKey(a: State, b: State, key: string) {
    (key in a.buckets <==> key in b.buckets) && (key in a.buckets ==> a.buckets[key] == b.buckets[key])
  }

  lemma {:induction false} NeverDeletingIsolates(cfg: Config, a: State, b: State, trace: seq<Request>, key: string)
    requires cfg.Valid() && SameForKey(a, b, key)
    ensures DecisionsOf(trace, Decisions(cfg, false, a, trace), key) == Decisions(cfg, false, b, Only(trace, key))
    decreases trace
  {
    if trace == [] {
    } else {
      var r := trace[0];
      var (a', ok) := Step(cfg, false, a, r);
      assert Decisions(cfg, false, a, trace)[1..] == Decisions(cfg, false, a', trace[1..]);
      if r.key == key {
        var b' := Step(cfg, false, b, r).0;
        NeverDeletingIsolates(cfg, a', b', trace[1..], key);
        assert Only(trace, key)[1..] == Only(trace[1..], key);
      } else {
        NeverDeletingIsolates(cfg, a', b, trace[1..], key);
        assert Only(trace, key) == Only(trace[1..], key);
      }
    }
  }

  lemma {:induction false} OnlyOrdered(trace: seq<Request>, key: string, from: real, later: real)
    requires from <= later && Ordered(trace, later)
    ensures Ordered(Only(trace, key), from)
    decreases trace
  {
    if trace == [] {
    } else {
      var r := trace[0];
      if r.key == key {
        OnlyOrdered(trace[1..], key, r.spend, r.spend);
        assert Only(trace, key)[1..] == Only(trace[1..], key);
      } else {
        OnlyOrdered(trace[1..], key, from, r.spend);
        assert Only(trace, key) == Only(trace[1..], key);
      }
    }
  }

  // ------------------------------------------------------------------ what goes wrong when burst > 10 * perMinute

  /** `n` requests of one key at one instant. */
  function Volley(key: string, n: nat, t: real): (trace: seq<Request>)
    ensures |trace| == n
    ensures forall i | 0 <= i < n :: trace[i] == Request(key, t, t, t, t, t)
  {
    if n == 0 then [] else [Request(key, t, t, t, t, t)] + Volley(key, n - 1, t)
  }

  lemma {:induction false} VolleyOrdered(key: string, n: nat, t: real, rest: seq<Request>, from: real)
    requires from <= t && Ordered(rest, t)
    ensures Ordered(Volley(key, n, t) + rest, from)
    decreases n
  {
    if n == 0 {
      OrderedEarlier(rest, from, t);
      assert Volley(key, n, t) + rest == rest;
    } else {
      VolleyOrdered(key, n - 1, t, rest, t);
      assert (Volley(key, n, t) + rest)[1..] == Volley(key, n - 1, t) + rest;
    }
  }

  lemma OrderedEarlier(trace: seq<Request>, from: real, later: real)
    requires from <= later && Ordered(trace, later)
    ensures Ordered(trace, from)
  {
  }

  lemma VolleyStep(cfg: Config, s: State, key: string, t: real)
    requires cfg.Valid()
    ensures var x := Available(cfg, s, key, t);
            var (s', ok) := Serve(cfg, s, Request(key, t, t, t, t, t));
            && ok == (x >= 1.0)
            && Available(cfg, s', key, t) == (if ok then x - 1.0 else x)
            && s'.buckets[key] == Level(if ok then x - 1.0 else x, t)
  {
    EarnedNothing(cfg);
  }

  /** `n` decisions of which the first `k` are positive. */
  function Pattern(n: nat, k: nat): (ds: seq<bool>)
    ensures |ds| == n
    ensures forall i | 0 <= i < n :: ds[i] == (i < k)
  {
    seq(n, i => i < k)
  }

  function WithLevel(s: State, key: string, tokens: real, t: real): State {
    s.(buckets := s.buckets[key := Level(tokens, t)])
  }

  lemma VolleyHead(cfg: Config, sweeping: bool, s: State, key: string, n: nat, t: real, rest: seq<Request>)
    requires cfg.Valid() && (sweeping ==> t - s.lastClean <= CLEAN_EVERY) && n > 0
    ensures var x := Available(cfg, s, key, t);
            var left := if x >= 1.0 then x - 1.0 else x;
            && Available(cfg, WithLevel(s, key, left, t), key, t) == left
            && Decisions(cfg, sweeping, s, Volley(key, n, t) + rest)
               == [x >= 1.0] + Decisions(cfg, sweeping, WithLevel(s, key, left, t), Volley(key, n - 1, t) + rest)
  {
    var trace := Volley(key, n, t) + rest;
    VolleyStep(cfg, s, key, t);
    assert trace[1..] == Volley(key, n - 1, t) + rest;
    var (s', ok) := Step(cfg, sweeping, s, trace[0]);
    assert s' == WithLevel(s, key, s'.buckets[key].tokens, t);
  }

  /** Out of a volley exactly the whole tokens available pass. */
  lemma {:induction false} VolleyPattern(cfg: Config, sweeping: bool, s: State, key: string, n: nat, t: real, x: real,
                                         k: nat)
    requires cfg.Valid() && (sweeping ==> t - s.lastClean <= CLEAN_EVERY)
    requires x == Available(cfg, s, key, t) && k as real <= x < k as real + 1.0
    ensures Decisions(cfg, sweeping, s, Volley(key, n, t)) == Pattern(n, k)
    decreases n
  {
    if n == 0 {
    } else {
      var k' := if k > 0 then k - 1 else 0;
      var left := if k > 0 then x - 1.0 else x;
      AvailableNow(cfg, s, key, left, t);
      VolleyPattern(cfg, sweeping, WithLevel(s, key, left, t), key, n - 1, t, left, k');
      VolleyHead(cfg, sweeping, s, key, n, t, []);
      assert Volley(key, n, t) + [] == Volley(key, n, t);
      assert Volley(key, n - 1, t) + [] == Volley(key, n - 1, t);
      PatternHead(n, k, k');
    }
  }

  /** A volley that finds enough tokens takes them all and changes nothing else. */
  lemma {:induction false} VolleyDrains(cfg: Config, sweeping: bool, s: State, key: string, n: nat, t: real, x: real)
    requires cfg.Valid() && (sweeping ==> t - s.lastClean <= CLEAN_EVERY) && n > 0
    requires x == Available(cfg, s, key, t) && n as real <= x
    ensures Final(cfg, sweeping, s, Volley(key, n, t)) == WithLevel(s, key, x - n as real, t)
    decreases n
  {
    var r := Request(key, t, t, t, t, t);
    var s' := WithLevel(s, key, x - 1.0, t);
    assert Step(cfg, sweeping, s, r).0 == s' by {
      VolleyStep(cfg, s, key, t);
    }
    assert Volley(key, n, t)[1..] == Volley(key, n - 1, t);
    if n > 1 {
      AvailableNow(cfg, s, key, x - 1.0, t);
      VolleyDrains(cfg, sweeping, s', key, n - 1, t, x - 1.0);
    }
  }

  lemma {:induction false} DecisionsConcat(cfg: Config, sweeping: bool, s: State, a: seq<Request>, b: seq<Request>)
    requires cfg.Valid()
    ensures Decisions(cfg, sweeping, s, a + b)
            == Decisions(cfg, sweeping, s, a) + Decisions(cfg, sweeping, Final(cfg, sweeping, s, a), b)
    decreases a
  {
    if a == [] {
      assert a + b == b;
    } else {
      var (s', ok) := Step(cfg, sweeping, s, a[0]);
      assert (a + b)[1..] == a[1..] + b;
      DecisionsConcat(cfg, sweeping, s', a[1..], b);
    }
  }

  lemma AvailableNow(cfg: Config, s: State, key: string, x: real, t: real)
    requires cfg.Valid()
    ensures Available(cfg, WithLevel(s, key, x, t), key, t) == Min(x, cfg.Max())
  {
    EarnedNothing(cfg);
  }

  lemma PatternHead(n: nat, k: nat, k': nat)
    requires n > 0 && k' == if k > 0 then k - 1 else 0
    ensures Pattern(n, k) == [k > 0] + Pattern(n - 1, k')
  {
  }

  const A := "ip:a"
  const B := "ip:b"

  /** Just over ten minutes: enough for a deletion, not for another whole token. */
  ghost predicate JustLate(cfg: Config, late: real)
    requires cfg.Valid()
  {
    && IDLE_LIMIT < late < IDLE_LIMIT + 60.0
    && (10 * cfg.perMinute) as real <= Earned(cfg, late) < (10 * cfg.perMinute) as real + 1.0
  }

  lemma SomeMomentIsJustLate(cfg: Config) returns (late: real)
    requires cfg.Valid()
    ensures JustLate(cfg, late)
  {
    var p := cfg.perMinute as real;
    late := IDLE_LIMIT + 30.0 / p;
    assert 30.0 / p <= 30.0;
    EarnedIsProduct(cfg, IDLE_LIMIT);
    EarnedIsProduct(cfg, 30.0 / p);
    EarnedAdds(cfg, IDLE_LIMIT, 30.0 / p);
  }

  /** Client A drains its bucket, waits just over ten minutes, and drains again what it finds. */
  function Relapse(cfg: Config, from: real, late: real): seq<Request>
    requires cfg.Valid()
  {
    Volley(A, cfg.burst, from) + Volley(A, cfg.burst, from + late)
  }

  /** The same with one request of client B in between, when a cleanup is due but A's bucket is not yet stale. */
  function RelapseSeenByB(cfg: Config, from: real, late: real): seq<Request>
    requires cfg.Valid()
  {
    Volley(A, cfg.burst, from) + (Volley(B, 1, from + late - CLEAN_EVERY) + Volley(A, cfg.burst, from + late))
  }

  /** The second volley when A's bucket was kept: 10 * perMinute whole tokens have come back. */
  lemma SecondVolleyKept(cfg: Config, sweeping: bool, s: State, from: real, late: real)
    requires cfg.Valid() && !IdleRefills(cfg) && JustLate(cfg, late)
    requires A in s.buckets && s.buckets[A] == Level(0.0, from)
    requires sweeping ==> late - CLEAN_EVERY <= s.lastClean - from
    ensures Decisions(cfg, sweeping, s, Volley(A, cfg.burst, from + late)) == Pattern(cfg.burst, 10 * cfg.perMinute)
  {
    var v := Volley(A, cfg.burst, from + late);
    VolleyPattern(cfg, sweeping, s, A, cfg.burst, from + late, Earned(cfg, late), 10 * cfg.perMinute);
  }

  /** The second volley when A's bucket is swept away as it begins: a fresh bucket lets all of it through. */
  lemma SecondVolleySwept(cfg: Config, s: State, from: real, late: real)
    requires cfg.Valid() && IDLE_LIMIT < late
    requires A in s.buckets && s.buckets[A] == Level(0.0, from) && s.lastClean == from
    ensures Decisions(cfg, true, s, Volley(A, cfg.burst, from + late)) == Pattern(cfg.burst, cfg.burst)
  {
    var t := from + late;
    var v := Volley(A, cfg.burst, t);
    var w := Sweep(s, v[0]);
    assert A !in w.buckets && w.lastClean == t;
    VolleyPattern(cfg, true, w, A, cfg.burst, t, cfg.Max(), cfg.burst);
    assert Step(cfg, true, s, v[0]) == Step(cfg, true, w, v[0]);
    assert Decisions(cfg, true, s, v) == Decisions(cfg, true, w, v);
  }

  function Drained(from: real): State { State(map[A := Level(0.0, from)], from) }

  /** The first volley passes and leaves A's bucket empty. */
  lemma FirstVolley(cfg: Config, sweeping: bool, from: real, rest: seq<Request>)
    requires cfg.Valid()
    ensures Decisions(cfg, sweeping, Start(from), Volley(A, cfg.burst, from) + rest)
            == Pattern(cfg.burst, cfg.burst) + Decisions(cfg, sweeping, Drained(from), rest)
  {
    VolleyPattern(cfg, sweeping, Start(from), A, cfg.burst, from, cfg.Max(), cfg.burst);
    VolleyDrains(cfg, sweeping, Start(from), A, cfg.burst, from, cfg.Max());
    DecisionsConcat(cfg, sweeping, Start(from), Volley(A, cfg.burst, from), rest);
    assert Start(from).buckets[A := Level(0.0, from)] == Drained(from).buckets;
  }

  lemma RelapseOrdered(cfg: Config, from: real, late: real)
    requires cfg.Valid() && IDLE_LIMIT < late
    ensures Ordered(Relapse(cfg, from, late), from)
  {
    var second := Volley(A, cfg.burst, from + late);
    VolleyOrdered(A, cfg.burst, from + late, [], from);
    assert second + [] == second;
    VolleyOrdered(A, cfg.burst, from, second, from);
  }

  lemma RelapseSwept(cfg: Config, from: real, late: real)
    requires cfg.Valid() && IDLE_LIMIT < late
    ensures Decisions(cfg, true, Start(from), Relapse(cfg, from, late)) == Pattern(2 * cfg.burst, 2 * cfg.burst)
  {
    FirstVolley(cfg, true, from, Volley(A, cfg.burst, from + late));
    SecondVolleySwept(cfg, Drained(from), from, late);
    assert Pattern(cfg.burst, cfg.burst) + Pattern(cfg.burst, cfg.burst) == Pattern(2 * cfg.burst, 2 * cfg.burst);
  }

  lemma RelapseKept(cfg: Config, from: real, late: real)
    requires cfg.Valid() && !IdleRefills(cfg) && JustLate(cfg, late)
    ensures Decisions(cfg, false, Start(from), Relapse(cfg, from, late))
            == Pattern(cfg.burst, cfg.burst) + Pattern(cfg.burst, 10 * cfg.perMinute)
  {
    FirstVolley(cfg, false, from, Volley(A, cfg.burst, from + late));
    SecondVolleyKept(cfg, false, Drained(from), from, late);
  }

  lemma RelapseSeenByBOrdered(cfg: Config, from: real, late: real)
    requires cfg.Valid() && IDLE_LIMIT < late
    ensures Ordered(RelapseSeenByB(cfg, from, late), from)
  {
    var second := Volley(A, cfg.burst, from + late);
    VolleyOrdered(A, cfg.burst, from + late, [], from + late - CLEAN_EVERY);
    assert second + [] == second;
    VolleyOrdered(B, 1, from + late - CLEAN_EVERY, second, from);
    VolleyOrdered(A, cfg.burst, from, Volley(B, 1, from + late - CLEAN_EVERY) + second, from);
  }

  lemma BKeepsTheBucket(cfg: Config, from: real, late: real)
    requires cfg.Valid() && IDLE_LIMIT < late < IDLE_LIMIT + 60.0
    ensures var s := Step(cfg, true, Drained(from), Volley(B, 1, from + late - CLEAN_EVERY)[0]).0;
            A in s.buckets && s.buckets[A] == Level(0.0, from) && s.lastClean == from + late - CLEAN_EVERY
  {
    var r := Volley(B, 1, from + late - CLEAN_EVERY)[0];
    assert A != B;
    assert A in Sweep(Drained(from), r).buckets;
  }

  lemma RelapseSeenByBDecisions(cfg: Config, from: real, late: real)
    requires cfg.Valid() && !IdleRefills(cfg) && JustLate(cfg, late)
    ensures exists ok :: Decisions(cfg, true, Start(from), RelapseSeenByB(cfg, from, late))
                         == Pattern(cfg.burst, cfg.burst) + ([ok] + Pattern(cfg.burst, 10 * cfg.perMinute))
  {
    var second := Volley(A, cfg.burst, from + late);
    var rest := Volley(B, 1, from + late - CLEAN_EVERY) + second;
    FirstVolley(cfg, true, from, rest);
    var (s, ok) := Step(cfg, true, Drained(from), rest[0]);
    BKeepsTheBucket(cfg, from, late);
    assert rest[1..] == second;
    SecondVolleyKept(cfg, true, s, from, late);
    assert Decisions(cfg, true, Drained(from), rest) == [ok] + Pattern(cfg.burst, 10 * cfg.perMinute);
  }

  lemma {:induction false} CountVolley(key: string, n: nat, t: real, rest: seq<Request>, ds: seq<bool>, begin: real,
                                       end: real)
    requires |ds| == n + |rest| && begin <= t <= end && forall i | 0 <= i < n :: ds[i]
    ensures Count(Volley(key, n, t) + rest, ds, key, begin, end) == n + Count(rest, ds[n..], key, begin, end)
    decreases n
  {
    var trace := Volley(key, n, t) + rest;
    if n == 0 {
      assert trace == rest;
    } else {
      assert trace[1..] == Volley(key, n - 1, t) + rest;
      CountVolley(key, n - 1, t, rest, ds[1..], begin, end);
      assert ds[1..][n - 1..] == ds[n..];
    }
  }

  /** DecisionsOf lists the decisions of `key` at increasing positions: the volley's come first. */
  lemma {:induction false} DecisionsOfVolley(key: string, n: nat, t: real, rest: seq<Request>, ds: seq<bool>)
    requires |ds| == n + |rest|
    ensures DecisionsOf(Volley(key, n, t) + rest, ds, key) == ds[..n] + DecisionsOf(rest, ds[n..], key)
    decreases n
  {
    var trace := Volley(key, n, t) + rest;
    if n == 0 {
      assert trace == rest;
    } else {
      assert trace[1..] == Volley(key, n - 1, t) + rest;
      DecisionsOfVolley(key, n - 1, t, rest, ds[1..]);
      assert ds[1..][n - 1..] == ds[n..];
      assert [ds[0]] + ds[1..][..n - 1] == ds[..n];
    }
  }

  lemma {:induction false} OnlyVolley(key: string, n: nat, t: real, rest: seq<Request>)
    ensures Only(Volley(key, n, t) + rest, key) == Volley(key, n, t) + Only(rest, key)
    decreases n
  {
    var trace := Volley(key, n, t) + rest;
    if n == 0 {
      assert trace == rest;
    } else {
      assert trace[1..] == Volley(key, n - 1, t) + rest;
      OnlyVolley(key, n - 1, t, rest);
    }
  }

  // ------------------------------------------------------------------ main results

  /** Deleting idle buckets changes no decision on any trace exactly when ten minutes refill the burst. */
  lemma CleanupUnobservableIff(cfg: Config, from: real)
    requires cfg.Valid()
    ensures CleanupUnobservable(cfg, from) <==> IdleRefills(cfg)
  {
    if IdleRefills(cfg) {
      forall trace | Ordered(trace, from)
        ensures Decisions(cfg, true, Start(from), trace) == Decisions(cfg, false, Start(from), trace)
      {
        ForgotRun(cfg, Start(from), Start(from), trace, from);
      }
    } else {
      var late := SomeMomentIsJustLate(cfg);
      RelapseOrdered(cfg, from, late);
      RelapseSwept(cfg, from, late);
      RelapseKept(cfg, from, late);
      var i := cfg.burst + 10 * cfg.perMinute;
      assert Pattern(2 * cfg.burst, 2 * cfg.burst)[i]
          != (Pattern(cfg.burst, cfg.burst) + Pattern(cfg.burst, 10 * cfg.perMinute))[i];
    }
  }

  /** burst + rate * T bounds what one key is allowed in any window of length T, exactly under the same condition. */
  lemma WindowBoundedIff(cfg: Config, from: real)
    requires cfg.Valid()
    ensures WindowBounded(cfg, true, from) <==> IdleRefills(cfg)
    ensures WindowBounded(cfg, false, from)
  {
    forall trace, key, begin, end | Ordered(trace, from) && begin <= end
      ensures Count(trace, Decisions(cfg, false, Start(from), trace), key, begin, end) as real
              <= Allowance(cfg, end - begin)
    {
      NeverDeletingBound(cfg, trace, key, begin, end, from);
    }
    if IdleRefills(cfg) {
      CleanupUnobservableIff(cfg, from);
    } else {
      RelapseBreaksTheBound(cfg, from);
    }
  }

  lemma NeverDeletingBound(cfg: Config, trace: seq<Request>, key: string, begin: real, end: real, from: real)
    requires cfg.Valid() && Ordered(trace, from) && begin <= end
    ensures Count(trace, Decisions(cfg, false, Start(from), trace), key, begin, end) as real
            <= Allowance(cfg, end - begin)
  {
    NeverDeletingIsBounded(cfg, Start(from), trace, key, begin, end, from);
    AllowanceIsEarned(cfg, end - begin);
  }

  lemma RelapseCount(cfg: Config, from: real, late: real, ds: seq<bool>)
    requires cfg.Valid() && IDLE_LIMIT < late && |ds| == 2 * cfg.burst && forall i | 0 <= i < |ds| :: ds[i]
    ensures Count(Relapse(cfg, from, late), ds, A, from, from + late) == 2 * cfg.burst
  {
    var end := from + late;
    var second := Volley(A, cfg.burst, end);
    CountVolley(A, cfg.burst, from, second, ds, from, end);
    assert second + [] == second;
    CountVolley(A, cfg.burst, end, [], ds[cfg.burst..], from, end);
  }

  lemma RelapseBreaksTheBound(cfg: Config, from: real)
    requires cfg.Valid() && !IdleRefills(cfg)
    ensures !WindowBounded(cfg, true, from)
  {
    var late := SomeMomentIsJustLate(cfg);
    var trace := Relapse(cfg, from, late);
    var ds := Decisions(cfg, true, Start(from), trace);
    var end := from + late;
    RelapseOrdered(cfg, from, late);
    RelapseSwept(cfg, from, late);
    RelapseCount(cfg, from, late, ds);
    AllowanceIsEarned(cfg, end - from);
    assert end - from == late;
    assert Count(trace, ds, A, from, end) as real > Allowance(cfg, end - from);
  }

  /** A key's decisions depend on its own requests alone, exactly under the same condition. */
  lemma KeysIsolatedIff(cfg: Config, from: real)
    requires cfg.Valid()
    ensures KeysIsolated(cfg, from) <==> IdleRefills(cfg)
  {
    if IdleRefills(cfg) {
      CleanupUnobservableIff(cfg, from);
      forall trace, key | Ordered(trace, from)
        ensures DecisionsOf(trace, Decisions(cfg, true, Start(from), trace), key)
                == Decisions(cfg, true, Start(from), Only(trace, key))
      {
        OnlyOrdered(trace, key, from, from);
        NeverDeletingIsolates(cfg, Start(from), Start(from), trace, key);
      }
    } else {
      RelapseIsSeen(cfg, from);
    }
  }

  lemma OnlyRelapse(cfg: Config, from: real, late: real)
    requires cfg.Valid()
    ensures Only(RelapseSeenByB(cfg, from, late), A) == Relapse(cfg, from, late)
  {
    var second := Volley(A, cfg.burst, from + late);
    var rest := Volley(B, 1, from + late - CLEAN_EVERY) + second;
    assert rest[1..] == second && second + [] == second;
    OnlyVolley(A, cfg.burst, from, rest);
    OnlyVolley(A, cfg.burst, from + late, []);
  }

  lemma TailSeenByA(cfg: Config, from: real, late: real, ok: bool, last: seq<bool>)
    requires cfg.Valid() && |last| == cfg.burst
    ensures var rest := Volley(B, 1, from + late - CLEAN_EVERY) + Volley(A, cfg.burst, from + late);
            |rest| == cfg.burst + 1 && DecisionsOf(rest, [ok] + last, A) == last
  {
    var second := Volley(A, cfg.burst, from + late);
    var rest := Volley(B, 1, from + late - CLEAN_EVERY) + second;
    assert rest[1..] == second && second + [] == second;
    DecisionsOfVolley(A, cfg.burst, from + late, [], last);
    assert ([ok] + last)[1..] == last;
  }

  /** What A sees of the trace in which B takes part. */
  lemma RelapseSeenByA(cfg: Config, from: real, late: real, first: seq<bool>, ok: bool, last: seq<bool>)
    requires cfg.Valid() && |first| == |last| == cfg.burst
    ensures |RelapseSeenByB(cfg, from, late)| == 2 * cfg.burst + 1
    ensures DecisionsOf(RelapseSeenByB(cfg, from, late), first + ([ok] + last), A) == first + last
  {
    var rest := Volley(B, 1, from + late - CLEAN_EVERY) + Volley(A, cfg.burst, from + late);
    var ds := first + ([ok] + last);
    TailSeenByA(cfg, from, late, ok, last);
    assert ds[..cfg.burst] == first && ds[cfg.burst..] == [ok] + last;
    DecisionsOfVolley(A, cfg.burst, from, rest, ds);
  }

  lemma RelapseIsSeen(cfg: Config, from: real)
    requires cfg.Valid() && !IdleRefills(cfg)
    ensures !KeysIsolated(cfg, from)
  {
    var late := SomeMomentIsJustLate(cfg);
    var trace := RelapseSeenByB(cfg, from, late);
    RelapseSeenByBOrdered(cfg, from, late);
    RelapseSeenByBDecisions(cfg, from, late);
    var ds := Decisions(cfg, true, Start(from), trace);
    var ok :| ds == Pattern(cfg.burst, cfg.burst) + ([ok] + Pattern(cfg.burst, 10 * cfg.perMinute));
    RelapseSeenByA(cfg, from, late, Pattern(cfg.burst, cfg.burst), ok, Pattern(cfg.burst, 10 * cfg.perMinute));
    OnlyRelapse(cfg, from, late);
    RelapseSwept(cfg, from, late);
    var i := cfg.burst + 10 * cfg.perMinute;
    assert !DecisionsOf(trace, ds, A)[i];
    assert Pattern(2 * cfg.burst, 2 * cfg.burst)[i];
  }
}
