/** Runs from an empty server on which a cached encoding is not what is held. */
module StaleRuns {
  import opened Options
  import opened TrustPairs
  import opened EncodeCache

  // --- building runs ------------------------------------------------------------------------------

  /** The run leads from `w` to `e`, one call at a time. */
  ghost predicate Leads(w: World, steps: seq<Step>, e: World) {
    Legal(w, steps) && Serial(w, steps) && Run(w, steps) == e
  }

  lemma LeadsOne(w: World, s: Step)
    requires |w.shards| == SHARDS && Enabled(w, s) && (s.ReadRevision? ==> AllIdle(w))
    ensures Leads(w, [s], Next(w, s))
  {
    assert [s][1..] == [];
  }

  lemma {:induction false} LeadsOn(w: World, a: seq<Step>, m: World, b: seq<Step>, e: World)
    requires Leads(w, a, m) && Leads(m, b, e)
    ensures Leads(w, a + b, e)
    decreases |a|
  {
    if a == [] {
      assert a + b == b;
    } else {
      assert (a + b)[0] == a[0] && (a + b)[1..] == a[1..] + b;
      LeadsOn(Next(w, a[0]), a[1..], m, b, e);
    }
  }

  /** The keys a scan of the shards from `i` to `n` collects. */
  ghost function Range(shards: seq<set<string>>, i: nat, n: nat): set<string>
    requires i <= n <= |shards|
    decreases n - i
  {
    if i == n then {} else shards[i] + Range(shards, i + 1, n)
  }

  lemma {:induction false} RangeMember(shards: seq<set<string>>, i: nat, n: nat, key: string)
    requires Homed(shards) && i <= n <= SHARDS
    ensures key in Range(shards, i, n) <==> i <= ShardOf(key) < n && key in shards[ShardOf(key)]
    decreases n - i
  {
    if i < n { RangeMember(shards, i + 1, n, key); }
  }

  ghost function AfterScan(w: World, id: nat, n: nat): World
    requires |w.shards| == SHARDS && CallOf(w, id).Scanning? && CallOf(w, id).next <= n <= SHARDS
  {
    var c := CallOf(w, id);
    w.(calls := w.calls[id := c.(next := n, got := c.got + Range(w.shards, c.next, n))])
  }

  /** An undisturbed scan up to shard `n`. */
  lemma {:induction false} Scan(w: World, id: nat, n: nat) returns (steps: seq<Step>)
    requires |w.shards| == SHARDS && CallOf(w, id).Scanning? && CallOf(w, id).next <= n <= SHARDS
    ensures Leads(w, steps, AfterScan(w, id, n))
    ensures forall s :: s in steps ==> s == ScanShard(id)
    decreases n - CallOf(w, id).next
  {
    var c := CallOf(w, id);
    if c.next == n {
      steps := [];
      assert c.got + {} == c.got && w.calls[id := c] == w.calls;
    } else {
      var w' := Next(w, ScanShard(id));
      LeadsOne(w, ScanShard(id));
      var rest := Scan(w', id, n);
      assert (c.got + w.shards[c.next]) + Range(w.shards, c.next + 1, n) == c.got + Range(w.shards, c.next, n);
      assert AfterScan(w', id, n) == AfterScan(w, id, n);
      LeadsOn(w, [ScanShard(id)], w', rest, AfterScan(w, id, n));
      steps := [ScanShard(id)] + rest;
    }
  }

  // --- one call at a time ---------------------------------------------------------------------------

  /** The server once it has cached the encoding of its only pair. */
  ghost predicate Warm(w: World, key: string) {
    WorldOk(w) && w.rev == 1 && Held(w) == {key} && w.cache == Some(Cached(1, {key})) && w.calls == map[0 := Idle]
  }

  lemma InsertHolds(w: World, key: string)
    requires WorldOk(w) && key !in Held(w)
    ensures WorldOk(Next(w, Insert(key))) && Held(Next(w, Insert(key))) == Held(w) + {key}
    ensures Next(w, Insert(key)) == w.(shards := Next(w, Insert(key)).shards, rev := w.rev + 1)
  {
    StepKeeps(w, Insert(key));
    HomedMember(w.shards, key);
    HomedUpdate(w.shards, key, true);
  }

  lemma WarmUp(key: string) returns (steps: seq<Step>, w: World)
    ensures Leads(Quiet(), steps, w) && Warm(w, key)
  {
    QuietStarts();
    InsertHolds(Quiet(), key);
    var a := Next(Quiet(), Insert(key));
    LeadsOne(Quiet(), Insert(key));
    var rest;
    rest, w := FirstCall(a, key);
    LeadsOn(Quiet(), [Insert(key)], a, rest, w);
    steps := [Insert(key)] + rest;
  }

  lemma FirstCall(a: World, key: string) returns (steps: seq<Step>, w: World)
    requires WorldOk(a) && a.rev == 1 && a.cache.None? && a.calls == map[] && Held(a) == {key}
    ensures Leads(a, steps, w) && Warm(w, key)
  {
    var b := Next(a, ReadRevision(0));
    var c := Next(b, Check(0, true));
    LeadsOne(a, ReadRevision(0));
    LeadsOne(b, Check(0, true));
    LeadsOn(a, [ReadRevision(0)], b, [Check(0, true)], c);
    var scan := Scan(c, 0, SHARDS);
    var d := AfterScan(c, 0, SHARDS);
    RangeIsHeld(a, key);
    LeadsOn(a, [ReadRevision(0)] + [Check(0, true)], c, scan, d);
    w := Next(d, Store(0));
    LeadsOne(d, Store(0));
    LeadsOn(a, [ReadRevision(0)] + [Check(0, true)] + scan, d, [Store(0)], w);
    steps := [ReadRevision(0)] + [Check(0, true)] + scan + [Store(0)];
    assert w.calls == map[0 := Idle];
  }

  lemma RangeIsHeld(w: World, key: string)
    requires WorldOk(w) && Held(w) == {key}
    ensures {} + Range(w.shards, 0, SHARDS) == {key}
  {
    forall k ensures k in Range(w.shards, 0, SHARDS) <==> k in Held(w) {
      RangeMember(w.shards, 0, SHARDS, k);
      HomedMember(w.shards, k);
    }
  }

  /** The revision read, then two more changes. */
  lemma TwoChanges(w: World, key: string, s: Step, t: Step)
    requires Warm(w, key) && !s.ReadRevision? && !t.ReadRevision?
    requires var r := Next(w, ReadRevision(0));
             Enabled(r, s) && |Next(r, s).shards| == SHARDS && Enabled(Next(r, s), t)
    ensures var r := Next(w, ReadRevision(0));
            Leads(w, [ReadRevision(0), s], Next(r, s)) && Leads(w, [ReadRevision(0), s, t], Next(Next(r, s), t))
  {
    var r := Next(w, ReadRevision(0));
    LeadsOne(w, ReadRevision(0));
    LeadsOne(r, s);
    LeadsOne(Next(r, s), t);
    LeadsOn(w, [ReadRevision(0)], r, [s], Next(r, s));
    LeadsOn(w, [ReadRevision(0)] + [s], Next(r, s), [t], Next(Next(r, s), t));
    assert [ReadRevision(0)] + [s] == [ReadRevision(0), s] && [ReadRevision(0), s] + [t] == [ReadRevision(0), s, t];
  }

  /** Without any overlap of calls: a pair added between the revision read and the check is
      missing from the encoding the check serves. */
  lemma StaleHit(key: string, other: string)
    requires key != other
    ensures exists steps, e ::
              && Leads(Quiet(), steps, e) && |e.shards| == SHARDS && Hits(e, 0, true)
              && e.cache.value.content == {key} && Held(e) == {key, other}
  {
    var steps, w := WarmUp(key);
    var r := Next(w, ReadRevision(0));
    StepKeeps(w, ReadRevision(0));
    InsertHolds(r, other);
    TwoChanges(w, key, Insert(other), Insert(other));
    LeadsOn(Quiet(), steps, w, [ReadRevision(0), Insert(other)], Next(r, Insert(other)));
  }

  /** The revision at the hit does not decide: two serial runs end with the same revisions
      and the same cache, and one hit is exact while the other is stale. */
  lemma RevisionDoesNotDecide(key: string, p: string, q: string)
    requires key != p && key != q && p != q
    ensures exists a, b, s, t ::
              && Leads(Quiet(), s, a) && Leads(Quiet(), t, b) && |a.shards| == |b.shards| == SHARDS
              && Hits(a, 0, true) && Hits(b, 0, true)
              && a.rev == b.rev && a.cache == b.cache && a.calls == b.calls
              && a.cache.value.content == Held(a) && b.cache.value.content != Held(b)
  {
    var steps, w := WarmUp(key);
    var r := Next(w, ReadRevision(0));
    StepKeeps(w, ReadRevision(0));
    InsertHolds(r, p);
    var m := Next(r, Insert(p));
    var a := BackAgain(m, p, key);
    InsertHolds(m, q);
    var b := Next(m, Insert(q));
    TwoChanges(w, key, Insert(p), Delete(p));
    TwoChanges(w, key, Insert(p), Insert(q));
    LeadsOn(Quiet(), steps, w, [ReadRevision(0), Insert(p), Delete(p)], a);
    LeadsOn(Quiet(), steps, w, [ReadRevision(0), Insert(p), Insert(q)], b);
    assert p in Held(b);
  }

  lemma BackAgain(m: World, p: string, key: string) returns (a: World)
    requires WorldOk(m) && Held(m) == {key, p} && p != key
    ensures a == Next(m, Delete(p)) && WorldOk(a) && Held(a) == {key}
    ensures a == m.(shards := a.shards, rev := m.rev + 1)
  {
    a := Next(m, Delete(p));
    StepKeeps(m, Delete(p));
    HomedMember(m.shards, p);
    HomedUpdate(m.shards, p, false);
  }

  // --- overlapping calls ------------------------------------------------------------------------------

  ghost predicate NeverHeld(w: World, steps: seq<Step>, c: set<string>)
    requires Legal(w, steps)
    decreases |steps|
  {
    Held(w) != c && (steps == [] || NeverHeld(Next(w, steps[0]), steps[1..], c))
  }

  /** The run leads from `w` to `e`, and `c` is held at no moment of it. */
  ghost predicate Passes(w: World, steps: seq<Step>, e: World, c: set<string>) {
    Legal(w, steps) && Run(w, steps) == e && NeverHeld(w, steps, c)
  }

  lemma PassesOne(w: World, s: Step, c: set<string>)
    requires |w.shards| == SHARDS && Enabled(w, s) && Held(w) != c && Held(Next(w, s)) != c
    ensures Passes(w, [s], Next(w, s), c)
  {
    assert [s][1..] == [];
  }

  lemma {:induction false} PassesOn(w: World, a: seq<Step>, m: World, b: seq<Step>, e: World, c: set<string>)
    requires Passes(w, a, m, c) && Passes(m, b, e, c)
    ensures Passes(w, a + b, e, c)
    decreases |a|
  {
    if a == [] {
      assert a + b == b;
    } else {
      assert (a + b)[0] == a[0] && (a + b)[1..] == a[1..] + b;
      PassesOn(Next(w, a[0]), a[1..], m, b, e, c);
    }
  }

  lemma {:induction false} ScanPasses(w: World, steps: seq<Step>, e: World, id: nat, c: set<string>)
    requires Leads(w, steps, e) && (forall s :: s in steps ==> s == ScanShard(id)) && Held(w) != c
    ensures Passes(w, steps, e, c)
    decreases |steps|
  {
    if steps != [] {
      assert steps[0] in steps && forall s :: s in steps[1..] ==> s in steps;
      ScanPasses(Next(w, steps[0]), steps[1..], e, id, c);
    }
  }

  /** Two calls have read revision 0, and the first is about to scan. */
  ghost function Overlapping(): World {
    Quiet().(calls := map[0 := Scanning(0, {}, 0, {}), 1 := Holding(0, {})])
  }

  lemma Overlap(c: set<string>) returns (steps: seq<Step>)
    requires c != {}
    ensures Passes(Quiet(), steps, Overlapping(), c) && WorldOk(Overlapping()) && Held(Overlapping()) == {}
  {
    QuietStarts();
    var a := Next(Quiet(), ReadRevision(0));
    var b := Next(a, ReadRevision(1));
    assert a.calls == map[0 := Holding(0, {})];
    assert b.calls == map[0 := Holding(0, {}), 1 := Holding(0, {})];
    PassesOne(Quiet(), ReadRevision(0), c);
    PassesOne(a, ReadRevision(1), c);
    assert Next(b, Check(0, true)).calls == Overlapping().calls;
    PassesOne(b, Check(0, true), c);
    PassesOn(Quiet(), [ReadRevision(0)], a, [ReadRevision(1)], b, c);
    PassesOn(Quiet(), [ReadRevision(0)] + [ReadRevision(1)], b, [Check(0, true)], Overlapping(), c);
    steps := [ReadRevision(0)] + [ReadRevision(1)] + [Check(0, true)];
  }

  lemma EmptyRange(w: World, n: nat)
    requires WorldOk(w) && Held(w) == {} && n <= SHARDS
    ensures {} + Range(w.shards, 0, n) == {}
  {
    forall k ensures k !in Range(w.shards, 0, n) {
      RangeMember(w.shards, 0, n, k);
      HomedMember(w.shards, k);
    }
  }

  lemma LaterRange(w: World, p: string, q: string, n: nat)
    requires WorldOk(w) && Held(w) == {p, q} && ShardOf(p) < n <= ShardOf(q)
    ensures {} + Range(w.shards, n, SHARDS) == {q}
  {
    forall k ensures k in Range(w.shards, n, SHARDS) <==> k == q {
      RangeMember(w.shards, n, SHARDS, k);
      HomedMember(w.shards, k);
    }
  }

  /** The first call has scanned up to behind the shard of `p`, and found nothing. */
  lemma FirstPart(n: nat, c: set<string>) returns (steps: seq<Step>, d: World)
    requires c != {} && n <= SHARDS
    ensures Passes(Quiet(), steps, d, c) && WorldOk(d) && Held(d) == {}
    ensures d == Quiet().(calls := map[0 := Scanning(0, {}, n, {}), 1 := Holding(0, {})])
  {
    var start := Overlap(c);
    var scan;
    scan, d := EmptyScan(Overlapping(), n, c);
    PassesOn(Quiet(), start, Overlapping(), scan, d, c);
    steps := start + scan;
  }

  lemma EmptyScan(w: World, n: nat, c: set<string>) returns (scan: seq<Step>, d: World)
    requires WorldOk(w) && Held(w) == {} && c != {} && n <= SHARDS
    requires w.calls == map[0 := Scanning(0, {}, 0, {}), 1 := Holding(0, {})]
    ensures Passes(w, scan, d, c) && WorldOk(d) && Held(d) == {}
    ensures d == w.(calls := map[0 := Scanning(0, {}, n, {}), 1 := Holding(0, {})])
  {
    scan := Scan(w, 0, n);
    d := AfterScan(w, 0, n);
    EmptyRange(w, n);
    RunKeeps(w, scan);
    ScanPasses(w, scan, d, 0, c);
    assert CallOf(w, 0) == Scanning(0, {}, 0, {});
    assert d.calls == map[0 := Scanning(0, {}, n, {}), 1 := Holding(0, {})];
  }

  /** Both pairs are added, the scan goes on behind the first and the result is stored. */
  lemma SecondPart(d: World, p: string, q: string, n: nat) returns (steps: seq<Step>, e: World)
    requires WorldOk(d) && Held(d) == {} && ShardOf(p) < n <= ShardOf(q) && d.rev == 0
    requires d.calls == map[0 := Scanning(0, {}, n, {}), 1 := Holding(0, {})]
    ensures Passes(d, steps, e, {q}) && |e.shards| == SHARDS
    ensures e.cache == Some(Cached(0, {q})) && CallOf(e, 1) == Holding(0, {}) && Held(e) == {p, q}
  {
    InsertHolds(d, p);
    var f := Next(d, Insert(p));
    InsertHolds(f, q);
    var g := Next(f, Insert(q));
    assert p in Held(f) && p in Held(g) && p != q;
    PassesOne(d, Insert(p), {q});
    PassesOne(f, Insert(q), {q});
    PassesOn(d, [Insert(p)], f, [Insert(q)], g, {q});
    var rest;
    rest, e := LastPart(g, p, q, n);
    PassesOn(d, [Insert(p)] + [Insert(q)], g, rest, e, {q});
    steps := [Insert(p)] + [Insert(q)] + rest;
  }

  lemma LastPart(g: World, p: string, q: string, n: nat) returns (steps: seq<Step>, e: World)
    requires WorldOk(g) && Held(g) == {p, q} && ShardOf(p) < n <= ShardOf(q)
    requires g.calls == map[0 := Scanning(0, {}, n, {}), 1 := Holding(0, {})]
    ensures Passes(g, steps, e, {q}) && |e.shards| == SHARDS
    ensures e.cache == Some(Cached(0, {q})) && CallOf(e, 1) == Holding(0, {}) && Held(e) == {p, q}
  {
    assert p in Held(g) && p != q;
    var scan := Scan(g, 0, SHARDS);
    var h := AfterScan(g, 0, SHARDS);
    LaterRange(g, p, q, n);
    ScanPasses(g, scan, h, 0, {q});
    e := Next(h, Store(0));
    PassesOne(h, Store(0), {q});
    PassesOn(g, scan, h, [Store(0)], e, {q});
    steps := scan + [Store(0)];
  }

  /** Two calls read the same revision and two pairs are added while the first scans; the
      second call then hits an encoding of a set that was held at no moment of the run. */
  lemma OverlapServesTornScan()
    ensures exists steps, e, c ::
              Passes(Quiet(), steps, e, c) && Hits(e, 1, true) && e.cache.value.content == c
  {
    var p, q := TwoShards();
    var n := ShardOf(p) + 1;
    var start, d := FirstPart(n, {q});
    var rest, e := SecondPart(d, p, q, n);
    PassesOn(Quiet(), start, d, rest, e, {q});
  }
}
