/** What the limiter refuses: a token bucket admits a request exactly when the rate permits it
    over every interval that ends with it. The laws count requests and speak of the configured
    rate and window only. */
module RateLaws {
  import opened RateLimiter

  /** What the rate permits in `elapsed`, beside the burst. */
  function Allowance(rate: int, elapsed: real, window: real): real
    requires window > 0.0
  {
    rate as real * elapsed / window
  }

  /** When event `i` happened; the end of the history counts as `now`. */
  function TimeAt(evs: seq<Event>, i: nat, now: real): real
    requires i <= |evs|
  {
    if i < |evs| then evs[i].now else now
  }

  /** How many requests of `ip` were admitted from event `i` on. */
  function CountSince(c: Config, t: Table, evs: seq<Event>, i: nat, ip: string): nat
    requires c.window > 0.0 && i <= |evs|
  {
    Count(c, Run(c, t, evs[..i]), evs[i..], ip)
  }

  /** What is left of rate and allowance at `now` for the interval since event `i`. */
  function Left(c: Config, t: Table, evs: seq<Event>, i: nat, ip: string, now: real): real
    requires c.window > 0.0 && i <= |evs|
  {
    RateOf(c, ip) as real + Allowance(RateOf(c, ip), now - TimeAt(evs, i, now), c.window)
    - CountSince(c, t, evs, i, ip) as real
  }

  // --- what an address has is the tightest interval ----------------------------------------------

  lemma {:induction false} OrderedAt(evs: seq<Event>, i: nat, from: real, to: real)
    requires Ordered(evs, from, to) && i <= |evs|
    ensures from <= TimeAt(evs, i, to) <= to
    ensures Ordered(evs[..i], from, TimeAt(evs, i, to)) && Ordered(evs[i..], TimeAt(evs, i, to), to)
    decreases |evs|
  {
    if i == 0 {
      if evs != [] { LastsUntil(evs, from, to); }
    } else {
      var rest := evs[1..];
      OrderedAt(rest, i - 1, evs[0].now, to);
      assert rest[..i - 1] == evs[..i][1..] && rest[i - 1..] == evs[i..];
      assert TimeAt(rest, i - 1, to) == TimeAt(evs, i, to);
    }
  }

  lemma LastsUntil(evs: seq<Event>, from: real, to: real)
    requires Ordered(evs, from, to) && evs != []
    ensures evs[0].now <= to
  {
    assert Ordered(evs[1..], evs[0].now, to);
  }

  lemma {:induction false} RunSplit(c: Config, t: Table, evs: seq<Event>, i: nat)
    requires c.window > 0.0 && i <= |evs|
    ensures Run(c, Run(c, t, evs[..i]), evs[i..]) == Run(c, t, evs)
    decreases |evs|
  {
    if i == 0 {
      assert evs[i..] == evs && evs[..i] == [];
    } else {
      RunSplit(c, After(c, t, evs[0]), evs[1..], i - 1);
      assert evs[1..][..i - 1] == evs[..i][1..] && evs[1..][i - 1..] == evs[i..];
    }
  }

  lemma AllowanceIsRefill(rate: int, elapsed: real, window: real)
    requires window > 0.0
    ensures Allowance(rate, elapsed, window) == Refill(rate, elapsed, window)
  {
    RefillIs(rate, elapsed, window);
  }

  lemma AtMostSince(c: Config, m: Table, evs: seq<Event>, ip: string, at: real, to: real)
    requires Proper(c) && TableOk(c, m, at) && Ordered(evs, at, to)
    ensures Count(c, m, evs, ip) as real + Avail(c, Run(c, m, evs), ip, to)
            <= RateOf(c, ip) as real + Refill(RateOf(c, ip), to - at, c.window)
  {
    RunAvail(c, m, evs, ip, at, to);
    AvailRange(c, m, ip, at);
  }

  /** No interval leaves less than what the address has. */
  lemma AtMostLeft(c: Config, t: Table, evs: seq<Event>, i: nat, ip: string, from: real, to: real)
    requires Proper(c) && TableOk(c, t, from) && Ordered(evs, from, to) && i <= |evs|
    ensures Avail(c, Run(c, t, evs), ip, to) <= Left(c, t, evs, i, ip, to)
  {
    var at := TimeAt(evs, i, to);
    OrderedAt(evs, i, from, to);
    RunOk(c, t, evs[..i], from, at);
    AtMostSince(c, Run(c, t, evs[..i]), evs[i..], ip, at, to);
    RunSplit(c, t, evs, i);
    AllowanceIsRefill(RateOf(c, ip), to - at, c.window);
  }

  lemma LevelAt(b: Bucket, from: real, now: real, window: real)
    requires window > 0.0 && b.rate >= 0 && from <= now
    ensures var a := Level(b, now, window);
            a == b.rate as real || a == Level(b, from, window) + Refill(b.rate, now - from, window)
  {
    RefillAdds(b.rate, from - b.lastFill, now - from, window);
    assert (from - b.lastFill) + (now - from) == now - b.lastFill;
    RefillGrows(b.rate, now - from, window);
  }

  lemma AvailAt(c: Config, t: Table, ip: string, from: real, now: real)
    requires Proper(c) && TableOk(c, t, from) && from <= now
    ensures Earns(c, t, ip, from, now)
  {
    if ip in t {
      assert BucketOk(c, t[ip], ip, from);
      LevelAt(t[ip], from, now, c.window);
      AllowanceIsRefill(RateOf(c, ip), now - from, c.window);
    }
  }

  lemma LeftShift(c: Config, t: Table, evs: seq<Event>, i: nat, ip: string, now: real)
    requires c.window > 0.0 && evs != [] && i < |evs|
    ensures Left(c, After(c, t, evs[0]), evs[1..], i, ip, now) == Left(c, t, evs, i + 1, ip, now)
  {
    assert evs[..i + 1][1..] == evs[1..][..i] && evs[1..][i..] == evs[i + 1..];
  }

  lemma LeftFirst(c: Config, t: Table, evs: seq<Event>, ip: string, now: real)
    requires c.window > 0.0 && evs != []
    ensures Left(c, t, evs, 0, ip, now)
            == RateOf(c, ip) as real + Allowance(RateOf(c, ip), now - evs[0].now, c.window)
               - Admits(c, t, evs[0], ip) as real - Count(c, After(c, t, evs[0]), evs[1..], ip) as real
  {
    assert evs[..0] == [] && evs[0..] == evs;
  }

  lemma AllowanceAdds(rate: int, a: real, b: real, window: real)
    requires window > 0.0
    ensures Allowance(rate, a + b, window) == Allowance(rate, a, window) + Allowance(rate, b, window)
  {
    assert rate as real * (a + b) == rate as real * a + rate as real * b;
  }

  /** The interval since event `i` leaves exactly what the address has; or, for the index past
      them all, it has what it started with and the allowance since, less what was admitted. */
  ghost predicate Accounts(c: Config, t: Table, evs: seq<Event>, ip: string, from: real, to: real, i: nat)
    requires c.window > 0.0
  {
    && i <= |evs| + 1
    && Avail(c, Run(c, t, evs), ip, to)
       == if i <= |evs| then Left(c, t, evs, i, ip, to)
          else Avail(c, t, ip, from) + Allowance(RateOf(c, ip), to - from, c.window) - Count(c, t, evs, ip) as real
  }

  lemma {:induction false} SomeLeft(c: Config, t: Table, evs: seq<Event>, ip: string, from: real, to: real)
    returns (i: nat)
    requires Proper(c) && TableOk(c, t, from) && Ordered(evs, from, to)
    ensures Accounts(c, t, evs, ip, from, to, i)
    decreases |evs|
  {
    if evs == [] {
      i := NoneSoFar(c, t, ip, from, to);
    } else {
      var e := evs[0];
      SpendAt(c, t, e, ip, from);
      LastsUntil(evs, from, to);
      var j := SomeLeft(c, After(c, t, e), evs[1..], ip, e.now, to);
      i := OneEarlier(c, t, evs, ip, from, to, j);
    }
  }

  lemma OneEarlier(c: Config, t: Table, evs: seq<Event>, ip: string, from: real, to: real, j: nat) returns (i: nat)
    requires Proper(c) && TableOk(c, t, from) && evs != [] && from <= evs[0].now <= to
    requires Accounts(c, After(c, t, evs[0]), evs[1..], ip, evs[0].now, to, j)
    ensures Accounts(c, t, evs, ip, from, to, i)
  {
    if j < |evs| {
      i := j + 1;
      ShiftAccounts(c, t, evs, ip, from, to, j);
    } else {
      SpendAt(c, t, evs[0], ip, from);
      i := FirstOrNone(c, t, evs, ip, from, to);
    }
  }

  lemma ShiftAccounts(c: Config, t: Table, evs: seq<Event>, ip: string, from: real, to: real, j: nat)
    requires c.window > 0.0 && j < |evs|
    requires Accounts(c, After(c, t, evs[0]), evs[1..], ip, evs[0].now, to, j)
    ensures Accounts(c, t, evs, ip, from, to, j + 1)
  {
    LeftShift(c, t, evs, j, ip, to);
  }

  lemma NoneSoFar(c: Config, t: Table, ip: string, from: real, to: real) returns (i: nat)
    requires Proper(c) && TableOk(c, t, from) && from <= to
    ensures Accounts(c, t, [], ip, from, to, i)
  {
    AvailAt(c, t, ip, from, to);
    i := if Avail(c, t, ip, to) == RateOf(c, ip) as real then 0 else 1;
    NothingLeft(c, t, ip, to);
  }

  /** An admission costs one token. */
  ghost predicate Spends(c: Config, t: Table, e: Event, ip: string)
    requires c.window > 0.0
  {
    Avail(c, After(c, t, e), ip, e.now) + Admits(c, t, e, ip) as real == Avail(c, t, ip, e.now)
  }

  /** Waiting fills the bucket, or adds exactly the allowance. */
  ghost predicate Earns(c: Config, t: Table, ip: string, from: real, now: real)
    requires c.window > 0.0
  {
    var a := Avail(c, t, ip, now);
    a == RateOf(c, ip) as real || a == Avail(c, t, ip, from) + Allowance(RateOf(c, ip), now - from, c.window)
  }

  lemma SpendAt(c: Config, t: Table, e: Event, ip: string, from: real)
    requires Proper(c) && TableOk(c, t, from) && from <= e.now
    ensures TableOk(c, After(c, t, e), e.now) && Spends(c, t, e, ip) && Earns(c, t, ip, from, e.now)
  {
    AvailAt(c, t, ip, from, e.now);
    assert TableOk(c, t, e.now);
    EventAvail(c, t, e, ip);
    AfterOk(c, t, e, from);
  }

  lemma NothingLeft(c: Config, t: Table, ip: string, to: real)
    requires c.window > 0.0
    ensures Left(c, t, [], 0, ip, to) == RateOf(c, ip) as real
  {
    assert CountSince(c, t, [], 0, ip) == 0;
    assert Allowance(RateOf(c, ip), 0.0, c.window) == 0.0;
  }

  lemma FirstOrNone(c: Config, t: Table, evs: seq<Event>, ip: string, from: real, to: real) returns (i: nat)
    requires c.window > 0.0 && evs != []
    requires Accounts(c, After(c, t, evs[0]), evs[1..], ip, evs[0].now, to, |evs|)
    requires Spends(c, t, evs[0], ip) && Earns(c, t, ip, from, evs[0].now)
    ensures Accounts(c, t, evs, ip, from, to, i)
  {
    if Avail(c, t, ip, evs[0].now) == RateOf(c, ip) as real {
      i := 0;
      FullAccounts(c, t, evs, ip, from, to);
    } else {
      i := |evs| + 1;
      AllowanceAdds(RateOf(c, ip), evs[0].now - from, to - evs[0].now, c.window);
      assert (evs[0].now - from) + (to - evs[0].now) == to - from;
    }
  }

  lemma FullAccounts(c: Config, t: Table, evs: seq<Event>, ip: string, from: real, to: real)
    requires c.window > 0.0 && evs != []
    requires Accounts(c, After(c, t, evs[0]), evs[1..], ip, evs[0].now, to, |evs|)
    requires Spends(c, t, evs[0], ip) && Avail(c, t, ip, evs[0].now) == RateOf(c, ip) as real
    ensures Accounts(c, t, evs, ip, from, to, 0)
  {
    LeftFirst(c, t, evs, ip, to);
  }

  /** From a table without a bucket of `ip`, some interval leaves exactly what it has. */
  lemma TightestLeft(c: Config, t: Table, evs: seq<Event>, ip: string, from: real, to: real) returns (i: nat)
    requires Proper(c) && TableOk(c, t, from) && Ordered(evs, from, to) && ip !in t
    ensures i <= |evs| && Avail(c, Run(c, t, evs), ip, to) == Left(c, t, evs, i, ip, to)
  {
    if evs == [] {
      i := 0;
      NothingLeft(c, t, ip, to);
    } else {
      SpendAt(c, t, evs[0], ip, from);
      LastsUntil(evs, from, to);
      var j := SomeLeft(c, After(c, t, evs[0]), evs[1..], ip, evs[0].now, to);
      i := FromFull(c, t, evs, ip, from, to, j);
    }
  }

  lemma FromFull(c: Config, t: Table, evs: seq<Event>, ip: string, from: real, to: real, j: nat) returns (i: nat)
    requires c.window > 0.0 && evs != [] && ip !in t && Spends(c, t, evs[0], ip)
    requires Accounts(c, After(c, t, evs[0]), evs[1..], ip, evs[0].now, to, j)
    ensures i <= |evs| && Avail(c, Run(c, t, evs), ip, to) == Left(c, t, evs, i, ip, to)
  {
    if j < |evs| {
      i := j + 1;
      ShiftAccounts(c, t, evs, ip, from, to, j);
    } else {
      i := 0;
      FullAccounts(c, t, evs, ip, from, to);
    }
  }

  // --- the law --------------------------------------------------------------------------------------

  /** One more request keeps within the rate and what it permits in `elapsed`. */
  predicate Within(rate: int, elapsed: real, window: real, admitted: nat)
    requires window > 0.0
  {
    admitted as real + 1.0 <= rate as real + rate as real * elapsed / window
  }

  /** One more request of `ip` at `now` stays within rate and allowance since event `i`. */
  ghost predicate Permits(c: Config, evs: seq<Event>, i: nat, ip: string, now: real)
    requires c.window > 0.0 && i <= |evs|
  {
    Within(RateOf(c, ip), now - TimeAt(evs, i, now), c.window, CountSince(c, map[], evs, i, ip))
  }

  lemma AdmitsIfAvail(c: Config, t: Table, ip: string, now: real)
    requires Proper(c) && Allow(c, t, ip, now).0 != DeniedTable
    ensures Allow(c, t, ip, now).0 == Admitted <==> Avail(c, t, ip, now) >= 1.0
  {
  }

  lemma PermitsLeft(c: Config, evs: seq<Event>, i: nat, ip: string, now: real)
    requires c.window > 0.0 && i <= |evs|
    ensures Permits(c, evs, i, ip, now) <==> Left(c, map[], evs, i, ip, now) >= 1.0
  {
    var elapsed, count := now - TimeAt(evs, i, now), CountSince(c, map[], evs, i, ip);
    WithinIs(RateOf(c, ip), elapsed, c.window, count);
  }

  lemma WithinIs(rate: int, elapsed: real, window: real, count: nat)
    requires window > 0.0
    ensures Within(rate, elapsed, window, count) <==>
            rate as real + Allowance(rate, elapsed, window) - count as real >= 1.0
  {
  }

  /** After any history, a request that the table has room for is admitted if and only if it
      stays within rate and allowance over every interval ending with it. */
  lemma AdmittedExactly(c: Config, evs: seq<Event>, ip: string, start: real, now: real)
    requires Proper(c) && Ordered(evs, start, now) && Allow(c, Run(c, map[], evs), ip, now).0 != DeniedTable
    ensures Allow(c, Run(c, map[], evs), ip, now).0 == Admitted <==>
            forall i :: 0 <= i <= |evs| ==> Permits(c, evs, i, ip, now)
  {
    var t := Run(c, map[], evs);
    AdmitsIfAvail(c, t, ip, now);
    if Avail(c, t, ip, now) >= 1.0 {
      forall i: nat | i <= |evs| ensures Permits(c, evs, i, ip, now) {
        AtMostLeft(c, map[], evs, i, ip, start, now);
        PermitsLeft(c, evs, i, ip, now);
      }
    } else {
      var i := TightestLeft(c, map[], evs, ip, start, now);
      PermitsLeft(c, evs, i, ip, now);
      assert !Permits(c, evs, i, ip, now);
    }
  }

  // --- room in the table ------------------------------------------------------------------------------

  /** The addresses that sent a request within the last two windows. */
  ghost function Recent(c: Config, evs: seq<Event>, now: real): set<string> {
    set i | 0 <= i < |evs| && evs[i].Request? && now - evs[i].now <= 2.0 * c.window :: evs[i].ip
  }

  ghost predicate Filled(evs: seq<Event>, ip: string, at: real) {
    exists i :: 0 <= i < |evs| && evs[i] == Request(ip, at)
  }

  lemma {:induction false} FilledByRequest(c: Config, t: Table, evs: seq<Event>, ip: string)
    requires c.window > 0.0 && ip in Run(c, t, evs)
    ensures Filled(evs, ip, Run(c, t, evs)[ip].lastFill) || (ip in t && Run(c, t, evs)[ip] == t[ip])
    decreases |evs|
  {
    if evs != [] {
      var e, rest, t' := evs[0], evs[1..], After(c, t, evs[0]);
      FilledByRequest(c, t', rest, ip);
      var at := Run(c, t, evs)[ip].lastFill;
      if Filled(rest, ip, at) {
        var i :| 0 <= i < |rest| && rest[i] == Request(ip, at);
        assert evs[i + 1] == Request(ip, at);
      } else if e.Request? && e.ip == ip {
        assert evs[0] == Request(ip, at);
      }
    }
  }

  /** A request is turned away for want of room only if its address is not whitelisted and at
      least as many other addresses as the table holds sent requests within two windows. */
  lemma DeniedTableIsFull(c: Config, evs: seq<Event>, ip: string, now: real)
    requires c.window > 0.0 && Allow(c, Run(c, map[], evs), ip, now).0 == DeniedTable
    ensures ip !in c.whitelist && c.maxBuckets > 0 && |Recent(c, evs, now) - {ip}| >= c.maxBuckets
  {
    var t := Run(c, map[], evs);
    var kept := Evict(t, now, c.window);
    forall a | a in kept.Keys ensures a in Recent(c, evs, now) - {ip} {
      FilledByRequest(c, map[], evs, a);
      var i :| 0 <= i < |evs| && evs[i] == Request(a, t[a].lastFill);
      assert evs[i].ip == a;
    }
    SubsetSize(kept.Keys, Recent(c, evs, now) - {ip});
  }

  // --- what is always admitted --------------------------------------------------------------------------

  ghost predicate NoneSince(evs: seq<Event>, ip: string, last: real) {
    forall i :: 0 <= i < |evs| && evs[i].Request? && evs[i].ip == ip ==> evs[i].now <= last
  }

  /** An address that has been idle for the time of one token is not refused for its rate. */
  lemma IdleIsAdmitted(c: Config, evs: seq<Event>, ip: string, start: real, last: real, now: real)
    requires Proper(c) && Ordered(evs, start, now) && NoneSince(evs, ip, last)
    requires last + c.window / RateOf(c, ip) as real <= now
    ensures Allow(c, Run(c, map[], evs), ip, now).0 != DeniedIp
  {
    var t, rate := Run(c, map[], evs), RateOf(c, ip);
    RunOk(c, map[], evs, start, now);
    if ip in t {
      FilledByRequest(c, map[], evs, ip);
      var i :| 0 <= i < |evs| && evs[i] == Request(ip, t[ip].lastFill);
      assert t[ip].lastFill <= last;
      TokenEarned(rate, now - t[ip].lastFill, c.window);
    }
  }

  lemma TokenEarned(rate: int, elapsed: real, window: real)
    requires rate >= 1 && window > 0.0 && elapsed >= window / rate as real
    ensures Refill(rate, elapsed, window) >= 1.0
  {
    RefillIs(rate, elapsed, window);
    var r := rate as real;
    assert r * elapsed >= r * (window / r) == window;
    assert (r * elapsed) / window >= window / window == 1.0;
  }

  function Burst(ip: string, now: real, n: nat): (evs: seq<Event>)
    ensures |evs| == n && forall i :: 0 <= i < n ==> evs[i] == Request(ip, now)
  {
    seq(n, i => Request(ip, now))
  }

  /** A burst is admitted up to what the address has. */
  lemma {:induction false} BurstAdmitted(c: Config, t: Table, ip: string, now: real, n: nat)
    requires Proper(c) && TableOk(c, t, now) && n as real <= Avail(c, t, ip, now)
    requires Allow(c, t, ip, now).0 != DeniedTable
    ensures Count(c, t, Burst(ip, now, n), ip) == n
    decreases n
  {
    if n > 0 {
      var evs := Burst(ip, now, n);
      AdmitsIfAvail(c, t, ip, now);
      EventAvail(c, t, evs[0], ip);
      AfterOk(c, t, evs[0], now);
      assert evs[1..] == Burst(ip, now, n - 1);
      BurstAdmitted(c, After(c, t, evs[0]), ip, now, n - 1);
    }
  }

  /** A new address may send as many requests at once as its rate, and not one more. */
  lemma FreshBurst(c: Config, ip: string, now: real)
    requires Proper(c)
    ensures Count(c, map[], Burst(ip, now, RateOf(c, ip)), ip) == RateOf(c, ip)
    ensures Count(c, map[], Burst(ip, now, RateOf(c, ip) + 1), ip) == RateOf(c, ip)
  {
    var n: nat := RateOf(c, ip);
    BurstAdmitted(c, map[], ip, now, n);
    var more := Burst(ip, now, n + 1);
    assert more[..n] == Burst(ip, now, n);
    BurstOrdered(ip, now, n + 1);
    AdmissionBound(c, [], more, ip, now, now, now);
    CountPrefix(c, map[], more, n, ip);
  }

  lemma {:induction false} BurstOrdered(ip: string, now: real, n: nat)
    ensures Ordered(Burst(ip, now, n), now, now)
  {
    if n > 0 {
      BurstOrdered(ip, now, n - 1);
      assert Burst(ip, now, n)[1..] == Burst(ip, now, n - 1);
    }
  }

  lemma {:induction false} CountPrefix(c: Config, t: Table, evs: seq<Event>, i: nat, ip: string)
    requires c.window > 0.0 && i <= |evs|
    ensures Count(c, t, evs[..i], ip) <= Count(c, t, evs, ip)
    decreases i
  {
    if i > 0 {
      CountPrefix(c, After(c, t, evs[0]), evs[1..], i - 1, ip);
      assert evs[..i][1..] == evs[1..][..i - 1];
    }
  }

  // --- the process-wide bucket ----------------------------------------------------------------------------

  /** A second of idleness fills the process-wide bucket, and one token's time admits one request. */
  lemma GlobalIdleIsAdmitted(g: Global, from: real, now: real)
    requires GlobalOk(g, from) && g.rate >= 1.0 && g.lastFill <= from && from + 1.0 / g.rate <= now
    ensures GlobalAllow(g, now).0
  {
    SecondEarned(g.rate, now - g.lastFill);
  }

  lemma SecondEarned(rate: real, elapsed: real)
    requires rate >= 1.0 && elapsed >= 1.0 / rate
    ensures Earned(rate, elapsed) >= 1.0
  {
    assert elapsed * rate >= (1.0 / rate) * rate == 1.0;
  }

  /** A burst is admitted up to what the bucket has. */
  lemma {:induction false} GlobalBurst(g: Global, now: real, n: nat)
    requires GlobalOk(g, now) && n as real <= GlobalLevel(g, now)
    ensures GlobalCount(g, seq(n, i => now)) == n
    decreases n
  {
    if n > 0 {
      var times := seq(n, i => now);
      GlobalStep(g, now, now);
      assert times[1..] == seq(n - 1, i => now);
      GlobalBurst(GlobalAllow(g, now).1, now, n - 1);
    }
  }

  /** A new process-wide bucket admits as many requests at once as its rate has whole tokens,
      and not one more. */
  lemma GlobalFreshBurst(rate: real, now: real, n: nat)
    requires rate >= 0.0 && n as real <= rate < n as real + 1.0
    ensures GlobalCount(Global(rate, rate, now), seq(n, i => now)) == n
    ensures GlobalCount(Global(rate, rate, now), seq(n + 1, i => now)) == n
  {
    var g := Global(rate, rate, now);
    GlobalBurst(g, now, n);
    GlobalRising(now, n + 1);
    GlobalBound(rate, [], seq(n + 1, i => now), now, now, now);
    GlobalCountPrefix(g, seq(n + 1, i => now), n);
    assert seq(n + 1, i => now)[..n] == seq(n, i => now);
  }

  lemma {:induction false} GlobalRising(now: real, n: nat)
    ensures Rising(seq(n, i => now), now, now)
  {
    if n > 0 {
      GlobalRising(now, n - 1);
      assert seq(n, i => now)[1..] == seq(n - 1, i => now);
    }
  }

  lemma {:induction false} GlobalCountPrefix(g: Global, times: seq<real>, i: nat)
    requires i <= |times|
    ensures GlobalCount(g, times[..i]) <= GlobalCount(g, times)
    decreases i
  {
    if i > 0 {
      GlobalCountPrefix(GlobalAllow(g, times[0]).1, times[1..], i - 1);
      assert times[..i][1..] == times[1..][..i - 1];
    }
  }
}
