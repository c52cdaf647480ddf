/** The per-IP token bucket limiter and the process-wide bucket, over real time. */
module RateLimiter {

  /** `whitelist` gives the elevated rate of the addresses some rule matches. */
  datatype Config = Config(rate: int, window: real, maxBuckets: int, whitelist: map<string, int>)

  ghost predicate Proper(c: Config) {
    c.rate >= 1 && c.window > 0.0 && forall ip :: ip in c.whitelist ==> c.whitelist[ip] >= 1
  }

  function RateOf(c: Config, ip: string): int {
    if ip in c.whitelist then c.whitelist[ip] else c.rate
  }

  datatype Bucket = Bucket(tokens: real, lastFill: real, rate: int)

  type Table = map<string, Bucket>

  datatype Decision = Admitted | DeniedIp | DeniedTable

  function Refill(rate: int, elapsed: real, window: real): real
    requires window > 0.0
  {
    rate as real * (elapsed / window)
  }

  function Cap(x: real, limit: real): real {
    if x > limit then limit else x
  }

  /** What the bucket holds after topping up at `now`. */
  function Level(b: Bucket, now: real, window: real): real
    requires window > 0.0
  {
    Cap(b.tokens + Refill(b.rate, now - b.lastFill, window), b.rate as real)
  }

  function Evict(t: Table, now: real, window: real): Table {
    map ip | ip in t && !(t[ip].lastFill < now - 2.0 * window) :: t[ip]
  }

  function Take(b: Bucket, now: real, window: real): (Decision, Bucket)
    requires window > 0.0
  {
    var level := Level(b, now, window);
    if level < 1.0 then (DeniedIp, b.(tokens := level, lastFill := now))
    else (Admitted, b.(tokens := level - 1.0, lastFill := now))
  }

  function Fresh(rate: int, now: real): Bucket {
    Bucket(rate as real - 1.0, now, rate)
  }

  predicate Crowded(c: Config, t: Table) {
    c.maxBuckets > 0 && |t| >= c.maxBuckets
  }

  /** The decision on one request and the table it leaves. */
  function Allow(c: Config, t: Table, ip: string, now: real): (Decision, Table)
    requires c.window > 0.0
  {
    if ip in t then
      var (d, b) := Take(t[ip], now, c.window);
      (d, t[ip := b])
    else if ip !in c.whitelist && Crowded(c, t) then
      var t' := Evict(t, now, c.window);
      if Crowded(c, t') then (DeniedTable, t') else (Admitted, t'[ip := Fresh(c.rate, now)])
    else (Admitted, t[ip := Fresh(RateOf(c, ip), now)])
  }

  // --- runs ----------------------------------------------------------------------------------

  datatype Event = Request(ip: string, now: real) | Cleanup(now: real)

  function After(c: Config, t: Table, e: Event): Table
    requires c.window > 0.0
  {
    match e
    case Request(ip, now) => Allow(c, t, ip, now).1
    case Cleanup(now) => Evict(t, now, c.window)
  }

  ghost predicate Ordered(evs: seq<Event>, from: real, to: real)
    decreases |evs|
  {
    from <= to && (evs == [] || (from <= evs[0].now && Ordered(evs[1..], evs[0].now, to)))
  }

  function Run(c: Config, t: Table, evs: seq<Event>): Table
    requires c.window > 0.0
    decreases |evs|
  {
    if evs == [] then t else Run(c, After(c, t, evs[0]), evs[1..])
  }

  function Admits(c: Config, t: Table, e: Event, ip: string): nat
    requires c.window > 0.0
  {
    if e.Request? && e.ip == ip && Allow(c, t, ip, e.now).0 == Admitted then 1 else 0
  }

  /** How many requests of `ip` a run admits. */
  function Count(c: Config, t: Table, evs: seq<Event>, ip: string): nat
    requires c.window > 0.0
    decreases |evs|
  {
    if evs == [] then 0 else Admits(c, t, evs[0], ip) + Count(c, After(c, t, evs[0]), evs[1..], ip)
  }

  // --- arithmetic ----------------------------------------------------------------------------

  lemma RefillAdds(rate: int, a: real, b: real, window: real)
    requires window > 0.0
    ensures Refill(rate, a + b, window) == Refill(rate, a, window) + Refill(rate, b, window)
  {
    assert (a + b) / window == a / window + b / window;
  }

  lemma RefillIs(rate: int, elapsed: real, window: real)
    requires window > 0.0
    ensures Refill(rate, elapsed, window) == rate as real * elapsed / window
  {
  }

  lemma RefillGrows(rate: int, a: real, window: real)
    requires window > 0.0 && rate >= 0 && a >= 0.0
    ensures Refill(rate, a, window) >= 0.0
  {
    assert a / window >= 0.0;
  }

  lemma RefillFills(rate: int, a: real, window: real)
    requires window > 0.0 && rate >= 1 && a >= 2.0 * window
    ensures Refill(rate, a, window) >= rate as real
  {
    assert a / window >= 2.0;
  }

  // --- the table invariant ---------------------------------------------------------------------

  ghost predicate BucketOk(c: Config, b: Bucket, ip: string, now: real) {
    b.rate == RateOf(c, ip) && 0.0 <= b.tokens <= b.rate as real && b.lastFill <= now
  }

  ghost predicate TableOk(c: Config, t: Table, now: real) {
    forall ip :: ip in t ==> BucketOk(c, t[ip], ip, now)
  }

  lemma TakeOk(c: Config, b: Bucket, ip: string, from: real, now: real)
    requires Proper(c) && BucketOk(c, b, ip, from) && from <= now
    ensures BucketOk(c, Take(b, now, c.window).1, ip, now)
  {
    RefillGrows(b.rate, now - b.lastFill, c.window);
  }

  lemma AfterOk(c: Config, t: Table, e: Event, from: real)
    requires Proper(c) && TableOk(c, t, from) && from <= e.now
    ensures TableOk(c, After(c, t, e), e.now)
  {
    if e.Request? && e.ip in t { TakeOk(c, t[e.ip], e.ip, from, e.now); }
  }

  lemma {:induction false} RunOk(c: Config, t: Table, evs: seq<Event>, from: real, to: real)
    requires Proper(c) && TableOk(c, t, from) && Ordered(evs, from, to)
    ensures TableOk(c, Run(c, t, evs), to)
    decreases |evs|
  {
    if evs != [] {
      AfterOk(c, t, evs[0], from);
      RunOk(c, After(c, t, evs[0]), evs[1..], evs[0].now, to);
    }
  }

  // --- the admission bound -----------------------------------------------------------------------

  /** What an address could spend at `now`; an address without a bucket would get a full one. */
  function Avail(c: Config, t: Table, ip: string, now: real): real
    requires c.window > 0.0
  {
    if ip in t then Level(t[ip], now, c.window) else RateOf(c, ip) as real
  }

  lemma AvailRange(c: Config, t: Table, ip: string, now: real)
    requires Proper(c) && TableOk(c, t, now)
    ensures 0.0 <= Avail(c, t, ip, now) <= RateOf(c, ip) as real
  {
    if ip in t { RefillGrows(t[ip].rate, now - t[ip].lastFill, c.window); }
  }

  /** Waiting adds at most the refill of the time waited. */
  lemma AvailWaits(c: Config, t: Table, ip: string, from: real, now: real)
    requires Proper(c) && TableOk(c, t, from) && from <= now
    ensures Avail(c, t, ip, now) <= Avail(c, t, ip, from) + Refill(RateOf(c, ip), now - from, c.window)
  {
    RefillGrows(RateOf(c, ip), now - from, c.window);
    if ip in t {
      RefillAdds(t[ip].rate, from - t[ip].lastFill, now - from, c.window);
      assert (from - t[ip].lastFill) + (now - from) == now - t[ip].lastFill;
    }
  }

  /** Dropping an idle bucket gives its address nothing it did not already have. */
  lemma EvictAvail(c: Config, t: Table, ip: string, now: real)
    requires Proper(c) && TableOk(c, t, now)
    ensures Avail(c, Evict(t, now, c.window), ip, now) == Avail(c, t, ip, now)
  {
    if ip in t && t[ip].lastFill < now - 2.0 * c.window {
      RefillFills(t[ip].rate, now - t[ip].lastFill, c.window);
    }
  }

  lemma TakeLevel(c: Config, b: Bucket, now: real)
    requires c.window > 0.0
    ensures var (d, b') := Take(b, now, c.window);
            Level(b', now, c.window) + (if d == Admitted then 1.0 else 0.0) == Level(b, now, c.window)
  {
    assert Refill(b.rate, 0.0, c.window) == 0.0;
  }

  /** An admission costs one token; nothing else an event does raises what an address has. */
  lemma EventAvail(c: Config, t: Table, e: Event, ip: string)
    requires Proper(c) && TableOk(c, t, e.now)
    ensures Avail(c, After(c, t, e), ip, e.now) + Admits(c, t, e, ip) as real == Avail(c, t, ip, e.now)
  {
    EvictAvail(c, t, ip, e.now);
    assert Refill(RateOf(c, ip), 0.0, c.window) == 0.0;
    if e.Request? && e.ip in t { TakeLevel(c, t[e.ip], e.now); }
  }

  lemma StepAvail(c: Config, t: Table, e: Event, ip: string, from: real)
    requires Proper(c) && TableOk(c, t, from) && from <= e.now
    ensures TableOk(c, After(c, t, e), e.now)
    ensures Admits(c, t, e, ip) as real + Avail(c, After(c, t, e), ip, e.now)
            <= Avail(c, t, ip, from) + Refill(RateOf(c, ip), e.now - from, c.window)
  {
    assert TableOk(c, t, e.now);
    AvailWaits(c, t, ip, from, e.now);
    EventAvail(c, t, e, ip);
    AfterOk(c, t, e, from);
  }

  lemma {:induction false} RunAvail(c: Config, t: Table, evs: seq<Event>, ip: string, from: real, to: real)
    requires Proper(c) && TableOk(c, t, from) && Ordered(evs, from, to)
    ensures Count(c, t, evs, ip) as real + Avail(c, Run(c, t, evs), ip, to)
            <= Avail(c, t, ip, from) + Refill(RateOf(c, ip), to - from, c.window)
    decreases |evs|
  {
    if evs == [] {
      AvailWaits(c, t, ip, from, to);
    } else {
      var at := evs[0].now;
      StepAvail(c, t, evs[0], ip, from);
      RunAvail(c, After(c, t, evs[0]), evs[1..], ip, at, to);
      RefillAdds(RateOf(c, ip), at - from, to - at, c.window);
      assert (at - from) + (to - at) == to - from;
    }
  }

  lemma AdmissionRefill(c: Config, before: seq<Event>, during: seq<Event>, ip: string, start: real, from: real, to: real)
    requires Proper(c) && Ordered(before, start, from) && Ordered(during, from, to)
    ensures Count(c, Run(c, map[], before), during, ip) as real
            <= RateOf(c, ip) as real + Refill(RateOf(c, ip), to - from, c.window)
  {
    RunOk(c, map[], before, start, from);
    var t := Run(c, map[], before);
    RunAvail(c, t, during, ip, from, to);
    AvailRange(c, t, ip, from);
    RunOk(c, t, during, from, to);
    AvailRange(c, Run(c, t, during), ip, to);
  }

  lemma WrittenOut(c: Config, count: nat, ip: string, from: real, to: real)
    requires c.window > 0.0 && count as real <= RateOf(c, ip) as real + Refill(RateOf(c, ip), to - from, c.window)
    ensures count as real <= RateOf(c, ip) as real + RateOf(c, ip) as real * (to - from) / c.window
  {
    RefillIs(RateOf(c, ip), to - from, c.window);
  }

  /** Over any interval of any run one address is admitted at most its rate plus its rate
      per window times the length of the interval, whatever is evicted and rebuilt. */
  lemma AdmissionBound(c: Config, before: seq<Event>, during: seq<Event>, ip: string, start: real, from: real, to: real)
    requires Proper(c) && Ordered(before, start, from) && Ordered(during, from, to)
    ensures Count(c, Run(c, map[], before), during, ip) as real
            <= RateOf(c, ip) as real + RateOf(c, ip) as real * (to - from) / c.window
  {
    AdmissionRefill(c, before, during, ip, start, from, to);
    WrittenOut(c, Count(c, Run(c, map[], before), during, ip), ip, from, to);
  }

  // --- eviction is unobservable --------------------------------------------------------------------

  /** A limiter with no cap that keeps every bucket forever. */
  function AllowForever(c: Config, t: Table, ip: string, now: real): (Decision, Table)
    requires c.window > 0.0
  {
    if ip in t then
      var (d, b) := Take(t[ip], now, c.window);
      (d, t[ip := b])
    else (Admitted, t[ip := Fresh(RateOf(c, ip), now)])
  }

  /** The decisions on the requests of a run, in order. */
  function Decisions(c: Config, t: Table, evs: seq<Event>): seq<Decision>
    requires c.window > 0.0
    decreases |evs|
  {
    if evs == [] then []
    else
      (if evs[0].Request? then [Allow(c, t, evs[0].ip, evs[0].now).0] else [])
      + Decisions(c, After(c, t, evs[0]), evs[1..])
  }

  function DecisionsForever(c: Config, t: Table, evs: seq<Event>): seq<Decision>
    requires c.window > 0.0
    decreases |evs|
  {
    if evs == [] then []
    else if evs[0].Cleanup? then DecisionsForever(c, t, evs[1..])
    else
      var (d, t') := AllowForever(c, t, evs[0].ip, evs[0].now);
      [d] + DecisionsForever(c, t', evs[1..])
  }

  /** The buckets the real limiter has are the eternal one's; the ones it lacks are idle. */
  ghost predicate Shadows(c: Config, t: Table, u: Table, now: real) {
    && (forall ip :: ip in t ==> ip in u && t[ip] == u[ip])
    && (forall ip :: ip in u && ip !in t ==> u[ip].lastFill < now - 2.0 * c.window)
  }

  lemma EvictShadows(c: Config, t: Table, u: Table, from: real, now: real)
    requires Shadows(c, t, u, from) && from <= now
    ensures Shadows(c, Evict(t, now, c.window), u, now)
  {
  }

  /** A bucket idle for two windows decides and ends like a new one. */
  lemma IdleIsFresh(c: Config, b: Bucket, ip: string, now: real)
    requires Proper(c) && BucketOk(c, b, ip, now) && b.lastFill < now - 2.0 * c.window
    ensures Take(b, now, c.window) == (Admitted, Fresh(RateOf(c, ip), now))
  {
    RefillFills(b.rate, now - b.lastFill, c.window);
  }

  lemma ForeverOk(c: Config, u: Table, ip: string, from: real, now: real)
    requires Proper(c) && TableOk(c, u, from) && from <= now
    ensures TableOk(c, AllowForever(c, u, ip, now).1, now)
  {
    if ip in u { TakeOk(c, u[ip], ip, from, now); }
  }

  lemma RequestShadows(c: Config, t: Table, u: Table, ip: string, from: real, now: real)
    requires Proper(c) && TableOk(c, u, from) && Shadows(c, t, u, from) && from <= now
    requires Allow(c, t, ip, now).0 != DeniedTable
    ensures Allow(c, t, ip, now).0 == AllowForever(c, u, ip, now).0
    ensures Shadows(c, Allow(c, t, ip, now).1, AllowForever(c, u, ip, now).1, now)
    ensures TableOk(c, AllowForever(c, u, ip, now).1, now)
  {
    EvictShadows(c, t, u, from, now);
    ForeverOk(c, u, ip, from, now);
    if ip in u && ip !in t { IdleIsFresh(c, u[ip], ip, now); }
  }

  /** As long as the table never overflows, dropping idle buckets changes no decision. */
  lemma {:induction false} EvictionUnobservable(c: Config, t: Table, u: Table, evs: seq<Event>, from: real, to: real)
    requires Proper(c) && TableOk(c, u, from) && Shadows(c, t, u, from) && Ordered(evs, from, to)
    requires DeniedTable !in Decisions(c, t, evs)
    ensures Decisions(c, t, evs) == DecisionsForever(c, u, evs)
    decreases |evs|
  {
    if evs != [] {
      var e := evs[0];
      if e.Request? {
        assert Decisions(c, t, evs)[0] == Allow(c, t, e.ip, e.now).0;
        RequestShadows(c, t, u, e.ip, from, e.now);
        EvictionUnobservable(c, After(c, t, e), AllowForever(c, u, e.ip, e.now).1, evs[1..], e.now, to);
      } else {
        EvictShadows(c, t, u, from, e.now);
        EvictionUnobservable(c, After(c, t, e), u, evs[1..], e.now, to);
      }
    }
  }

  // --- the size of the table -----------------------------------------------------------------------

  ghost function Ordinary(c: Config, t: Table): set<string> {
    set ip | ip in t && ip !in c.whitelist
  }

  lemma OrdinaryBounded(c: Config, t: Table)
    ensures |Ordinary(c, t)| <= |t|
  {
    SubsetSize(Ordinary(c, t), t.Keys);
  }

  lemma {:induction false} SubsetSize(a: set<string>, b: set<string>)
    requires a <= b
    ensures |a| <= |b|
    decreases |a|
  {
    if a != {} {
      var x :| x in a;
      SubsetSize(a - {x}, b - {x});
    }
  }

  lemma OrdinaryKept(c: Config, t: Table, ip: string, b: Bucket)
    requires ip in t || ip in c.whitelist
    ensures Ordinary(c, t[ip := b]) == Ordinary(c, t)
  {
  }

  lemma OrdinaryGrows(c: Config, t: Table, ip: string, b: Bucket)
    requires ip !in t && ip !in c.whitelist
    ensures |Ordinary(c, t[ip := b])| == |Ordinary(c, t)| + 1
  {
    assert Ordinary(c, t[ip := b]) == Ordinary(c, t) + {ip};
  }

  lemma EvictBounded(c: Config, t: Table, now: real)
    ensures |Ordinary(c, Evict(t, now, c.window))| <= |Ordinary(c, t)|
  {
    SubsetSize(Ordinary(c, Evict(t, now, c.window)), Ordinary(c, t));
  }

  lemma AfterBounded(c: Config, t: Table, e: Event)
    requires c.window > 0.0 && c.maxBuckets > 0 && |Ordinary(c, t)| <= c.maxBuckets
    ensures |Ordinary(c, After(c, t, e))| <= c.maxBuckets
  {
    EvictBounded(c, t, e.now);
    if e.Request? {
      if e.ip in t {
        OrdinaryKept(c, t, e.ip, Take(t[e.ip], e.now, c.window).1);
      } else if e.ip in c.whitelist {
        OrdinaryKept(c, t, e.ip, Fresh(RateOf(c, e.ip), e.now));
      } else {
        var kept := if Crowded(c, t) then Evict(t, e.now, c.window) else t;
        OrdinaryBounded(c, kept);
        if !Crowded(c, kept) { OrdinaryGrows(c, kept, e.ip, Fresh(c.rate, e.now)); }
      }
    }
  }

  /** Addresses outside the whitelist never hold more than maxBuckets buckets. */
  lemma {:induction false} RunBounded(c: Config, t: Table, evs: seq<Event>)
    requires c.window > 0.0 && c.maxBuckets > 0 && |Ordinary(c, t)| <= c.maxBuckets
    ensures |Ordinary(c, Run(c, t, evs))| <= c.maxBuckets
    decreases |evs|
  {
    if evs != [] {
      AfterBounded(c, t, evs[0]);
      RunBounded(c, After(c, t, evs[0]), evs[1..]);
    }
  }

  // --- the process-wide bucket -----------------------------------------------------------------------

  datatype Global = Global(tokens: real, rate: real, lastFill: real)

  function Earned(rate: real, elapsed: real): real {
    elapsed * rate
  }

  lemma EarnedAdds(rate: real, a: real, b: real)
    ensures Earned(rate, a + b) == Earned(rate, a) + Earned(rate, b)
    ensures rate >= 0.0 && a >= 0.0 ==> Earned(rate, a) >= 0.0
  {
  }

  function GlobalLevel(g: Global, now: real): real {
    Cap(g.tokens + Earned(g.rate, now - g.lastFill), g.rate)
  }

  function GlobalAllow(g: Global, now: real): (bool, Global) {
    var level := GlobalLevel(g, now);
    if level < 1.0 then (false, g.(tokens := level, lastFill := now))
    else (true, g.(tokens := level - 1.0, lastFill := now))
  }

  ghost predicate GlobalOk(g: Global, now: real) {
    0.0 <= g.tokens <= g.rate && g.lastFill <= now
  }

  ghost predicate Rising(times: seq<real>, from: real, to: real)
    decreases |times|
  {
    from <= to && (times == [] || (from <= times[0] && Rising(times[1..], times[0], to)))
  }

  function GlobalRun(g: Global, times: seq<real>): Global
    decreases |times|
  {
    if times == [] then g else GlobalRun(GlobalAllow(g, times[0]).1, times[1..])
  }

  function GlobalCount(g: Global, times: seq<real>): nat
    decreases |times|
  {
    if times == [] then 0
    else (if GlobalAllow(g, times[0]).0 then 1 else 0) + GlobalCount(GlobalAllow(g, times[0]).1, times[1..])
  }

  /** Waiting adds at most what is earned meanwhile. */
  lemma GlobalWaits(g: Global, from: real, now: real)
    requires GlobalOk(g, from) && from <= now
    ensures 0.0 <= GlobalLevel(g, now) <= GlobalLevel(g, from) + Earned(g.rate, now - from)
  {
    EarnedAdds(g.rate, from - g.lastFill, now - from);
    EarnedAdds(g.rate, now - from, 0.0);
    assert (from - g.lastFill) + (now - from) == now - g.lastFill;
  }

  lemma GlobalStep(g: Global, from: real, now: real)
    requires GlobalOk(g, from) && from <= now
    ensures var (ok, g') := GlobalAllow(g, now);
            && GlobalOk(g', now) && g'.rate == g.rate
            && GlobalLevel(g', now) + (if ok then 1.0 else 0.0) == GlobalLevel(g, now)
  {
    GlobalWaits(g, from, now);
    assert Earned(g.rate, 0.0) == 0.0;
  }

  lemma {:induction false} GlobalRunLevel(g: Global, times: seq<real>, from: real, to: real)
    requires GlobalOk(g, from) && Rising(times, from, to)
    ensures GlobalCount(g, times) as real <= GlobalLevel(g, from) + Earned(g.rate, to - from)
    ensures GlobalOk(GlobalRun(g, times), to) && GlobalRun(g, times).rate == g.rate
    decreases |times|
  {
    if times == [] {
      GlobalWaits(g, from, to);
    } else {
      var at := times[0];
      GlobalWaits(g, from, at);
      GlobalStep(g, from, at);
      GlobalRunLevel(GlobalAllow(g, at).1, times[1..], at, to);
      EarnedAdds(g.rate, at - from, to - at);
      assert (at - from) + (to - at) == to - from;
    }
  }

  /** The process-wide bucket obeys the same bound with its own rate. */
  lemma GlobalBound(rate: real, before: seq<real>, during: seq<real>, start: real, from: real, to: real)
    requires rate >= 0.0 && Rising(before, start, from) && Rising(during, from, to)
    ensures GlobalCount(GlobalRun(Global(rate, rate, start), before), during) as real <= rate + rate * (to - from)
  {
    var g := Global(rate, rate, start);
    assert start <= from;
    GlobalRunLevel(g, before, start, from);
    GlobalRunLevel(GlobalRun(g, before), during, from, to);
  }

  // --- the objects -------------------------------------------------------------------------------------

  class Limiter {
    const config: Config
    var buckets: Table

    /** Accepted whitelist rules have positive rates, and buckets keep the rate they were created with. */
    ghost predicate Valid() reads this {
      && config.window > 0.0
      && (forall ip :: ip in config.whitelist ==> config.whitelist[ip] >= 1)
      && (forall ip :: ip in buckets ==> buckets[ip].rate == RateOf(config, ip))
    }

    constructor (c: Config)
      requires c.window > 0.0 && forall ip :: ip in c.whitelist ==> c.whitelist[ip] >= 1
      ensures Valid() && config == c && buckets == map[]
    {
      config, buckets := c, map[];
    }

    /** Deletes the buckets idle for more than two windows. */
    method Sweep(now: real)
      requires Valid()
      modifies this
      ensures Valid()
      ensures buckets == Evict(old(buckets), now, config.window)
      ensures forall ip :: ip in buckets <==>
                ip in old(buckets) && now - old(buckets)[ip].lastFill <= 2.0 * config.window
    {
      var threshold := now - 2.0 * config.window;
      var rest := buckets.Keys;
      while rest != {}
        invariant rest <= old(buckets).Keys
        invariant forall ip :: ip in buckets <==>
          ip in old(buckets) && (ip in rest || !(old(buckets)[ip].lastFill < threshold))
        invariant forall ip :: ip in buckets ==> buckets[ip] == old(buckets)[ip]
        decreases |rest|
      {
        var ip :| ip in rest;
        if buckets[ip].lastFill < threshold { buckets := buckets - {ip}; }
        rest := rest - {ip};
      }
    }

    method Request(ip: string, now: real) returns (ok: bool)
      requires Valid()
      modifies this
      ensures Valid()
      ensures buckets == Allow(config, old(buckets), ip, now).1
      ensures ok <==> Allow(config, old(buckets), ip, now).0 == Admitted
    {
      if ip in buckets { ok := Draw(ip, now); } else { ok := Open(ip, now); }
    }

    method Open(ip: string, now: real) returns (ok: bool)
      requires Valid() && ip !in buckets
      modifies this
      ensures Valid()
      ensures buckets == Allow(config, old(buckets), ip, now).1
      ensures ok <==> Allow(config, old(buckets), ip, now).0 == Admitted
    {
      var rate := config.rate;
      if ip in config.whitelist {
        rate := config.whitelist[ip];
      } else if config.maxBuckets > 0 && |buckets| >= config.maxBuckets {
        Sweep(now);
        if |buckets| >= config.maxBuckets { return false; }
      }
      buckets := buckets[ip := Bucket(rate as real - 1.0, now, rate)];
      return true;
    }

    method Draw(ip: string, now: real) returns (ok: bool)
      requires Valid() && ip in buckets
      modifies this
      ensures Valid()
      ensures buckets == Allow(config, old(buckets), ip, now).1
      ensures ok <==> Allow(config, old(buckets), ip, now).0 == Admitted
    {
      var b := buckets[ip];
      var rate := b.rate;
      if rate <= 0 { rate := config.rate; }
      assert rate == RateOf(config, ip);
      var refill := rate as real * ((now - b.lastFill) / config.window);
      b := b.(tokens := b.tokens + refill);
      if b.tokens > rate as real { b := b.(tokens := rate as real); }
      b := b.(lastFill := now);
      assert b == buckets[ip].(tokens := Level(buckets[ip], now, config.window), lastFill := now);
      if b.tokens < 1.0 {
        buckets := buckets[ip := b];
        return false;
      }
      buckets := buckets[ip := b.(tokens := b.tokens - 1.0)];
      return true;
    }
  }

  class GlobalBucket {
    var state: Global

    constructor (rate: real, now: real)
      ensures state == Global(rate, rate, now)
    {
      state := Global(rate, rate, now);
    }

    method Request(now: real) returns (ok: bool)
      modifies this
      ensures ok == GlobalAllow(old(state), now).0 && state == GlobalAllow(old(state), now).1
    {
      var tokens := state.tokens + Earned(state.rate, now - state.lastFill);
      if tokens > state.rate { tokens := state.rate; }
      if tokens < 1.0 {
        state := state.(tokens := tokens, lastFill := now);
        return false;
      }
      state := state.(tokens := tokens - 1.0, lastFill := now);
      return true;
    }
  }
}
