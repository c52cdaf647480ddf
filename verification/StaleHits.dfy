/** When a cached trust-pairs encoding is the set held at the moment it is served. The
    revision alone does not decide it; the parity of the changes to each pair does. */
module StaleHits {
  import opened TrustPairs
  import opened EncodeCache

  function Bit(b: bool): nat { if b then 1 else 0 }

  predicate Even(n: nat) { n % 2 == 0 }

  lemma EvenBit(n: nat, b: bool)
    ensures Even(Bit(b) + n) <==> (Even(n) != b)
  {
  }

  /** The step changes the set, and with it the revision. */
  ghost predicate Changes(w: World, s: Step)
    requires |w.shards| == SHARDS
  {
    match s
    case Insert(key) => key !in w.shards[ShardOf(key)]
    case Delete(key) => key in w.shards[ShardOf(key)]
    case _ => false
  }

  ghost predicate Flips(w: World, s: Step, key: string)
    requires |w.shards| == SHARDS
  {
    Changes(w, s) && s.key == key
  }

  /** How often the run added or removed `key`. */
  ghost function Count(w: World, steps: seq<Step>, key: string): nat
    requires Legal(w, steps)
    decreases |steps|
  {
    if steps == [] then 0 else Bit(Flips(w, steps[0], key)) + Count(Next(w, steps[0]), steps[1..], key)
  }

  ghost function Ticks(w: World, steps: seq<Step>): nat
    requires Legal(w, steps)
    decreases |steps|
  {
    if steps == [] then 0 else Bit(Changes(w, steps[0])) + Ticks(Next(w, steps[0]), steps[1..])
  }

  lemma StepHeld(w: World, s: Step, key: string)
    requires WorldOk(w) && Enabled(w, s)
    ensures WorldOk(Next(w, s))
    ensures key in Held(Next(w, s)) <==> (key in Held(w)) != Flips(w, s, key)
  {
    StepKeeps(w, s);
    HomedMember(w.shards, key);
    HomedMember(Next(w, s).shards, key);
  }

  /** A key is held after a run exactly when it was held before and changed an even number of
      times, or was not and changed an odd number. */
  lemma {:induction false} HeldAfter(w: World, steps: seq<Step>, key: string)
    requires WorldOk(w) && Legal(w, steps)
    ensures WorldOk(Run(w, steps))
    ensures key in Held(Run(w, steps)) <==> ((key in Held(w)) <==> Even(Count(w, steps, key)))
    decreases |steps|
  {
    if steps != [] {
      StepHeld(w, steps[0], key);
      HeldAfter(Next(w, steps[0]), steps[1..], key);
      EvenBit(Count(Next(w, steps[0]), steps[1..], key), Flips(w, steps[0], key));
    }
  }

  lemma {:induction false} RevAfter(w: World, steps: seq<Step>)
    requires WorldOk(w) && Legal(w, steps)
    ensures Run(w, steps).rev == w.rev + Ticks(w, steps)
    decreases |steps|
  {
    if steps != [] {
      StepKeeps(w, steps[0]);
      RevAfter(Next(w, steps[0]), steps[1..]);
    }
  }

  ghost predicate AllEven(w: World, steps: seq<Step>)
    requires Legal(w, steps)
  {
    forall key :: Even(Count(w, steps, key))
  }

  /** A run leaves the set as it was exactly when it changes every key an even number of times. */
  lemma SameSetExactly(w: World, steps: seq<Step>)
    requires WorldOk(w) && Legal(w, steps)
    ensures WorldOk(Run(w, steps)) && (Held(w) == Held(Run(w, steps)) <==> AllEven(w, steps))
  {
    RunKeeps(w, steps);
    if AllEven(w, steps) {
      forall key ensures key in Held(w) <==> key in Held(Run(w, steps)) { HeldAfter(w, steps, key); }
    } else {
      var key :| !Even(Count(w, steps, key));
      HeldAfter(w, steps, key);
    }
  }

  // --- parity of the revision ---------------------------------------------------------------------

  function Diff(a: set<string>, b: set<string>): set<string> { (a - b) + (b - a) }

  lemma ToggleDiff(a: set<string>, a': set<string>, b: set<string>, key: string)
    requires forall k :: k in a' <==> (k in a) != (k == key)
    ensures Even(|Diff(a', b)|) != Even(|Diff(a, b)|)
  {
    var d, d' := Diff(a, b), Diff(a', b);
    forall k ensures k in d' <==> (k in d) != (k == key) {}
    OneApart(d, d', key);
  }

  lemma OneApart(d: set<string>, d': set<string>, key: string)
    requires forall k :: k in d' <==> (k in d) != (k == key)
    ensures Even(|d'|) != Even(|d|)
  {
    if key in d {
      assert d' == d - {key};
    } else {
      assert d' == d + {key};
    }
  }

  lemma ChangeToggles(w: World, s: Step, b: set<string>)
    requires WorldOk(w) && Enabled(w, s)
    ensures WorldOk(Next(w, s))
    ensures Even(|Diff(Held(w), b)|) <==> (Even(|Diff(Held(Next(w, s)), b)|) != Changes(w, s))
  {
    StepKeeps(w, s);
    var h, h' := Held(w), Held(Next(w, s));
    forall k ensures k in h' <==> (k in h) != Flips(w, s, k) { StepHeld(w, s, k); }
    if Changes(w, s) {
      ToggleDiff(h, h', b, s.key);
    } else {
      assert h' == h;
    }
  }

  /** The sets before and after differ in as many keys, modulo two, as the revision moved. */
  lemma {:induction false} DiffParity(w: World, steps: seq<Step>)
    requires WorldOk(w) && Legal(w, steps)
    ensures WorldOk(Run(w, steps))
    ensures Even(|Diff(Held(w), Held(Run(w, steps)))|) <==> Even(Ticks(w, steps))
    decreases |steps|
  {
    if steps == [] {
      assert Diff(Held(w), Held(w)) == {};
    } else {
      var w', rest := Next(w, steps[0]), steps[1..];
      StepKeeps(w, steps[0]);
      DiffParity(w', rest);
      ChangeToggles(w, steps[0], Held(Run(w', rest)));
      EvenBit(Ticks(w', rest), Changes(w, steps[0]));
    }
  }

  lemma SameSetEven(w: World, steps: seq<Step>)
    requires WorldOk(w) && Legal(w, steps)
    ensures WorldOk(Run(w, steps)) && (Held(w) == Held(Run(w, steps)) ==> Even(Ticks(w, steps)))
  {
    DiffParity(w, steps);
    assert Diff(Held(w), Held(w)) == {};
  }

  lemma {:induction false} TickHasKey(w: World, steps: seq<Step>) returns (key: string)
    requires Legal(w, steps) && Ticks(w, steps) > 0
    ensures Count(w, steps, key) > 0
    decreases |steps|
  {
    if Changes(w, steps[0]) {
      key := steps[0].key;
    } else {
      key := TickHasKey(Next(w, steps[0]), steps[1..]);
    }
  }

  // --- one call at a time ---------------------------------------------------------------------------

  /** The call `id` reads the revision while no other is under way, other steps follow, and
      its check then hits. */
  ghost predicate SerialHit(w: World, id: nat, mid: seq<Step>, withinTtl: bool) {
    && SerialOk(w) && AllIdle(w) && (forall s :: s in mid ==> !(s.Check? && s.id == id))
    && Legal(Next(w, ReadRevision(id)), mid) && Serial(Next(w, ReadRevision(id)), mid)
    && Hits(Run(Next(w, ReadRevision(id)), mid), id, withinTtl)
  }

  lemma {:induction false} CallKept(w: World, id: nat, mid: seq<Step>)
    requires Legal(w, mid) && CallOf(w, id).Holding? && (forall s :: s in mid ==> !(s.Check? && s.id == id))
    ensures CallOf(Run(w, mid), id) == CallOf(w, id)
    decreases |mid|
  {
    if mid != [] { CallKept(Next(w, mid[0]), id, mid[1..]); }
  }

  /** What a serial hit returns was held when the call read the revision. */
  lemma ServesWhatItRead(w: World, id: nat, mid: seq<Step>, withinTtl: bool)
    requires SerialHit(w, id, mid, withinTtl)
    ensures var r := Next(w, ReadRevision(id));
            WorldOk(r) && Held(r) == Held(w) && Run(r, mid).cache.value.content == Held(w)
    ensures CallOf(Run(Next(w, ReadRevision(id)), mid), id).rev == w.rev
  {
    var r := Next(w, ReadRevision(id));
    SerialStep(w, ReadRevision(id));
    SerialRun(r, mid);
    CallKept(r, id, mid);
  }

  /** A serial hit returns the set held at the hit if and only if every pair was changed an
      even number of times since the call read the revision. */
  lemma SerialHitExactly(w: World, id: nat, mid: seq<Step>, withinTtl: bool)
    requires SerialHit(w, id, mid, withinTtl)
    ensures var r := Next(w, ReadRevision(id));
            && |Run(r, mid).shards| == SHARDS
            && (Run(r, mid).cache.value.content == Held(Run(r, mid)) <==> AllEven(r, mid))
  {
    var r := Next(w, ReadRevision(id));
    ServesWhatItRead(w, id, mid, withinTtl);
    SameSetExactly(r, mid);
  }

  /** How far the revision moved since the call read it. */
  function Moved(w: World, id: nat): nat {
    if CallOf(w, id).Holding? && CallOf(w, id).rev <= w.rev then w.rev - CallOf(w, id).rev else 0
  }

  /** A serial hit after the revision moved by an odd number is always stale. */
  lemma OddTicksAreStale(w: World, id: nat, mid: seq<Step>, withinTtl: bool)
    requires SerialHit(w, id, mid, withinTtl)
    ensures var e := Run(Next(w, ReadRevision(id)), mid);
            |e.shards| == SHARDS && (!Even(Moved(e, id)) ==> e.cache.value.content != Held(e))
  {
    var r := Next(w, ReadRevision(id));
    ServesWhatItRead(w, id, mid, withinTtl);
    RevAfter(r, mid);
    SameSetEven(r, mid);
  }

  /** If no pair changed twice since the read, a serial hit is exact if and only if the
      revision has not moved. */
  lemma OnceEachExactly(w: World, id: nat, mid: seq<Step>, withinTtl: bool)
    requires SerialHit(w, id, mid, withinTtl)
    requires forall key :: Count(Next(w, ReadRevision(id)), mid, key) <= 1
    ensures var e := Run(Next(w, ReadRevision(id)), mid);
            |e.shards| == SHARDS && (e.cache.value.content == Held(e) <==> CallOf(e, id).rev == e.rev)
  {
    var r := Next(w, ReadRevision(id));
    ServesWhatItRead(w, id, mid, withinTtl);
    SerialHitExactly(w, id, mid, withinTtl);
    RevAfter(r, mid);
    if Ticks(r, mid) > 0 {
      var key := TickHasKey(r, mid);
      assert !Even(Count(r, mid, key));
    } else {
      forall key ensures Even(Count(r, mid, key)) { CountIsTick(r, mid, key); }
    }
  }

  lemma {:induction false} CountIsTick(w: World, steps: seq<Step>, key: string)
    requires Legal(w, steps)
    ensures Count(w, steps, key) <= Ticks(w, steps)
    decreases |steps|
  {
    if steps != [] { CountIsTick(Next(w, steps[0]), steps[1..], key); }
  }

  // --- every interleaving ---------------------------------------------------------------------------

  ghost predicate NoStore(steps: seq<Step>) {
    forall s :: s in steps ==> !s.Store?
  }

  /** The run contains one store, by call `j`. */
  ghost predicate StoresOnce(steps: seq<Step>, j: nat)
    decreases |steps|
  {
    steps != [] && if steps[0] == Store(j) then NoStore(steps[1..]) else !steps[0].Store? && StoresOnce(steps[1..], j)
  }

  /** How often `key` changed since call `j` scanned the shard it lives in. */
  ghost function CountSince(w: World, steps: seq<Step>, j: nat, key: string): nat
    requires Legal(w, steps)
    decreases |steps|
  {
    if steps == [] then 0
    else if steps[0] == ScanShard(j) && CallOf(w, j).next == ShardOf(key) then Count(w, steps, key)
    else CountSince(Next(w, steps[0]), steps[1..], j, key)
  }

  function Content(w: World): set<string> {
    if w.cache.Some? then w.cache.value.content else {}
  }

  ghost predicate Scanned(w: World, j: nat, key: string, found: bool) {
    CallOf(w, j).Scanning? && ShardOf(key) < CallOf(w, j).next && (key in CallOf(w, j).got <==> found)
  }

  lemma {:induction false} CacheKept(w: World, steps: seq<Step>)
    requires Legal(w, steps) && NoStore(steps)
    ensures Run(w, steps).cache == w.cache
    decreases |steps|
  {
    if steps != [] { CacheKept(Next(w, steps[0]), steps[1..]); }
  }

  lemma ScannedStep(w: World, s: Step, j: nat, key: string, found: bool)
    requires WorldOk(w) && Enabled(w, s) && Scanned(w, j, key, found) && !s.Store?
    ensures Scanned(Next(w, s), j, key, found)
  {
  }

  /** Once the shard of `key` has been scanned, the stored encoding says what the scan found. */
  lemma {:induction false} ScanDecides(w: World, steps: seq<Step>, j: nat, key: string, found: bool)
    requires WorldOk(w) && Legal(w, steps) && StoresOnce(steps, j) && Scanned(w, j, key, found)
    ensures key in Content(Run(w, steps)) <==> found
    decreases |steps|
  {
    var w' := Next(w, steps[0]);
    StepKeeps(w, steps[0]);
    if steps[0] == Store(j) {
      CacheKept(w', steps[1..]);
    } else {
      ScannedStep(w, steps[0], j, key, found);
      ScanDecides(w', steps[1..], j, key, found);
    }
  }

  lemma {:induction false} KeyServedExactly(w: World, steps: seq<Step>, j: nat, key: string)
    requires WorldOk(w) && Legal(w, steps) && StoresOnce(steps, j)
    requires CallOf(w, j).Scanning? && CallOf(w, j).next <= ShardOf(key)
    ensures WorldOk(Run(w, steps))
    ensures (key in Content(Run(w, steps)) <==> key in Held(Run(w, steps))) <==> Even(CountSince(w, steps, j, key))
    decreases |steps|
  {
    var w' := Next(w, steps[0]);
    StepKeeps(w, steps[0]);
    if steps[0] == ScanShard(j) && CallOf(w, j).next == ShardOf(key) {
      HomedMember(w.shards, key);
      ScanDecides(w', steps[1..], j, key, key in Held(w));
      HeldAfter(w, steps, key);
    } else {
      KeyServedExactly(w', steps[1..], j, key);
    }
  }

  /** Over every interleaving: the encoding that call `j` scanned and stored, served by any
      later hit before another store, is the set held at the hit if and only if every pair was
      changed an even number of times since `j` scanned its shard. */
  lemma HitExactly(w: World, steps: seq<Step>, j: nat, id: nat, withinTtl: bool)
    requires WorldOk(w) && CallOf(w, j).Scanning? && CallOf(w, j).next == 0
    requires Legal(w, steps) && StoresOnce(steps, j) && Hits(Run(w, steps), id, withinTtl)
    ensures var e := Run(w, steps);
            && |e.shards| == SHARDS
            && (e.cache.value.content == Held(e) <==> forall key :: Even(CountSince(w, steps, j, key)))
  {
    var e := Run(w, steps);
    RunKeeps(w, steps);
    if forall key :: Even(CountSince(w, steps, j, key)) {
      forall key ensures key in Content(e) <==> key in Held(e) { KeyServedExactly(w, steps, j, key); }
    } else {
      var key :| !Even(CountSince(w, steps, j, key));
      KeyServedExactly(w, steps, j, key);
    }
  }
}
