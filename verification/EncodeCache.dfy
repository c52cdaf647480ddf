/** The revision-keyed cache of the encoded trust pairs, with the revision read, the
    shard-by-shard scan, the mutations and the cache check as separate interleaved steps.
    A mutation is one step: it holds its shard's lock until the revision has moved, and only
    holders of that lock look at the shard. */
module EncodeCache {
  import opened Options
  import opened TrustPairs

  /** What one encoding call is doing. `seen` is history: the set held when the call read
      the revision. Only a scanning call holds the cache's lock. */
  datatype Call =
    | Idle
    | Holding(rev: nat, seen: set<string>)
    | Scanning(rev: nat, seen: set<string>, next: nat, got: set<string>)

  datatype Cached = Cached(rev: nat, content: set<string>)

  datatype World = World(shards: seq<set<string>>, rev: nat, cache: Option<Cached>, calls: map<nat, Call>)

  datatype Step =
    | Insert(key: string)
    | Delete(key: string)
    | ReadRevision(id: nat)
    | Check(id: nat, withinTtl: bool)
    | ScanShard(id: nat)
    | Store(id: nat)

  ghost function Held(w: World): set<string>
    requires |w.shards| == SHARDS
  {
    Upto(w.shards, SHARDS)
  }

  function CallOf(w: World, id: nat): Call {
    if id in w.calls then w.calls[id] else Idle
  }

  ghost predicate LockFree(w: World) {
    forall id :: id in w.calls ==> !w.calls[id].Scanning?
  }

  ghost predicate Enabled(w: World, s: Step) {
    match s
    case Insert(_) => true
    case Delete(_) => true
    case ReadRevision(id) => CallOf(w, id).Idle?
    case Check(id, _) => CallOf(w, id).Holding? && LockFree(w)
    case ScanShard(id) => CallOf(w, id).Scanning? && CallOf(w, id).next < SHARDS
    case Store(id) => CallOf(w, id).Scanning? && CallOf(w, id).next == SHARDS
  }

  /** The check finds a cached encoding under the revision the call read. */
  predicate Hits(w: World, id: nat, withinTtl: bool) {
    CallOf(w, id).Holding? && w.cache.Some? && w.cache.value.rev == CallOf(w, id).rev && withinTtl
  }

  function Put(shards: seq<set<string>>, key: string, present: bool): seq<set<string>>
    requires |shards| == SHARDS
  {
    var i := ShardOf(key);
    shards[i := if present then shards[i] + {key} else shards[i] - {key}]
  }

  ghost function Next(w: World, s: Step): World
    requires |w.shards| == SHARDS && Enabled(w, s)
  {
    match s
    case Insert(key) =>
      if key in w.shards[ShardOf(key)] then w else w.(shards := Put(w.shards, key, true), rev := w.rev + 1)
    case Delete(key) =>
      if key in w.shards[ShardOf(key)] then w.(shards := Put(w.shards, key, false), rev := w.rev + 1) else w
    case ReadRevision(id) => w.(calls := w.calls[id := Holding(w.rev, Held(w))])
    case Check(id, withinTtl) =>
      var c := CallOf(w, id);
      w.(calls := w.calls[id := if Hits(w, id, withinTtl) then Idle else Scanning(c.rev, c.seen, 0, {})])
    case ScanShard(id) =>
      var c := CallOf(w, id);
      w.(calls := w.calls[id := c.(next := c.next + 1, got := c.got + w.shards[c.next])])
    case Store(id) =>
      var c := CallOf(w, id);
      w.(cache := if c.got == {} then None else Some(Cached(c.rev, c.got)), calls := w.calls[id := Idle])
  }

  // --- the invariant -----------------------------------------------------------------------------

  /** As long as the revision has not moved, what a call saw, what a scan has collected and
      what the cache holds are parts of the set held now. */
  ghost predicate CallOk(w: World, c: Call)
    requires |w.shards| == SHARDS
  {
    match c
    case Idle => true
    case Holding(r, seen) => r <= w.rev && (r == w.rev ==> seen == Held(w))
    case Scanning(r, seen, next, got) =>
      && r <= w.rev && next <= SHARDS && (r == w.rev ==> seen == Held(w) && got == Upto(w.shards, next))
      && forall key :: key in got ==> ShardOf(key) < next
  }

  ghost predicate WorldOk(w: World) {
    && Homed(w.shards)
    && (forall id :: id in w.calls ==> CallOk(w, w.calls[id]))
    && (w.cache.Some? ==> w.cache.value.rev <= w.rev &&
                          (w.cache.value.rev == w.rev ==> w.cache.value.content == Held(w)))
  }

  lemma MutationKeeps(w: World, key: string, present: bool)
    requires WorldOk(w)
    ensures WorldOk(w.(shards := Put(w.shards, key, present), rev := w.rev + 1))
  {
    HomedUpdate(w.shards, key, present);
  }

  lemma StepKeeps(w: World, s: Step)
    requires WorldOk(w) && Enabled(w, s)
    ensures WorldOk(Next(w, s))
  {
    match s
    case Insert(key) => MutationKeeps(w, key, true);
    case Delete(key) => MutationKeeps(w, key, false);
    case ReadRevision(id) =>
    case Check(id, ttl) =>
    case ScanShard(id) =>
    case Store(id) =>
  }

  ghost predicate Legal(w: World, steps: seq<Step>)
    decreases |steps|
  {
    |w.shards| == SHARDS && (steps == [] || (Enabled(w, steps[0]) && Legal(Next(w, steps[0]), steps[1..])))
  }

  ghost function Run(w: World, steps: seq<Step>): World
    requires Legal(w, steps)
    decreases |steps|
  {
    if steps == [] then w else Run(Next(w, steps[0]), steps[1..])
  }

  lemma {:induction false} RunKeeps(w: World, steps: seq<Step>)
    requires WorldOk(w) && Legal(w, steps)
    ensures WorldOk(Run(w, steps))
    decreases |steps|
  {
    if steps != [] {
      StepKeeps(w, steps[0]);
      RunKeeps(Next(w, steps[0]), steps[1..]);
    }
  }

  /** After any interleaving, a hit returns exactly the set held at the hit, unless the
      revision has moved since the call read it. */
  lemma HitIsExact(w: World, steps: seq<Step>, id: nat, withinTtl: bool)
    requires WorldOk(w) && Legal(w, steps) && Hits(Run(w, steps), id, withinTtl)
    ensures var e := Run(w, steps);
            && |e.shards| == SHARDS && CallOf(e, id).rev <= e.rev
            && (CallOf(e, id).rev == e.rev ==> e.cache.value.content == Held(e) == CallOf(e, id).seen)
  {
    RunKeeps(w, steps);
  }

  // --- one call at a time ------------------------------------------------------------------------

  ghost predicate AllIdle(w: World) {
    forall id :: id in w.calls ==> w.calls[id].Idle?
  }

  /** No call reads the revision while another is under way. */
  ghost predicate Serial(w: World, steps: seq<Step>)
    requires Legal(w, steps)
    decreases |steps|
  {
    steps == [] || ((steps[0].ReadRevision? ==> AllIdle(w)) && Serial(Next(w, steps[0]), steps[1..]))
  }

  /** At most one call is under way, and a cached encoding under its revision is what it saw. */
  ghost predicate SerialOk(w: World) {
    && WorldOk(w)
    && (forall i, j :: i in w.calls && j in w.calls && !w.calls[i].Idle? && !w.calls[j].Idle? ==> i == j)
    && (forall id :: id in w.calls && w.calls[id].Holding? && w.cache.Some? && w.cache.value.rev == w.calls[id].rev ==>
          w.cache.value.content == w.calls[id].seen)
  }

  lemma SerialStep(w: World, s: Step)
    requires SerialOk(w) && Enabled(w, s) && (s.ReadRevision? ==> AllIdle(w))
    ensures SerialOk(Next(w, s))
  {
    StepKeeps(w, s);
  }

  lemma {:induction false} SerialRun(w: World, steps: seq<Step>)
    requires SerialOk(w) && Legal(w, steps) && Serial(w, steps)
    ensures SerialOk(Run(w, steps))
    decreases |steps|
  {
    if steps != [] {
      SerialStep(w, steps[0]);
      SerialRun(Next(w, steps[0]), steps[1..]);
    }
  }

  /** When calls do not overlap, every hit returns exactly the set held when it read the
      revision, however many mutations interleave. */
  lemma SerialHitIsExact(w: World, steps: seq<Step>, id: nat, withinTtl: bool)
    requires SerialOk(w) && Legal(w, steps) && Serial(w, steps)
    requires Hits(Run(w, steps), id, withinTtl)
    ensures Run(w, steps).cache.value.content == CallOf(Run(w, steps), id).seen
  {
    SerialRun(w, steps);
  }

  /** A server without pairs, calls or cached bytes. */
  function Quiet(): World {
    World(seq(SHARDS, i => {}), 0, None, map[])
  }

  /** It meets what the theorems here start from. */
  lemma QuietStarts()
    ensures WorldOk(Quiet()) && SerialOk(Quiet()) && AllIdle(Quiet()) && Held(Quiet()) == {}
  {
    forall key ensures key !in Held(Quiet()) { UptoMember(Quiet().shards, SHARDS, key); }
  }

  // --- the cache object --------------------------------------------------------------------------

  /** What other threads may do while a call holds the cache's lock. */
  ghost predicate Beside(steps: seq<Step>, id: nat) {
    forall s :: s in steps ==> s.Insert? || s.Delete? || (s.ReadRevision? && s.id != id)
  }

  lemma {:induction false} BesideKeeps(w: World, steps: seq<Step>, id: nat)
    requires WorldOk(w) && Legal(w, steps) && Beside(steps, id)
    ensures WorldOk(Run(w, steps))
    ensures Run(w, steps).cache == w.cache && CallOf(Run(w, steps), id) == CallOf(w, id)
    decreases |steps|
  {
    if steps != [] {
      StepKeeps(w, steps[0]);
      BesideKeeps(Next(w, steps[0]), steps[1..], id);
    }
  }

  /** One scan: before shard `i` is read other threads take `env[i]`, and the read finds `found[i]`. */
  ghost predicate Scans(ws: seq<World>, env: seq<seq<Step>>, found: seq<set<string>>, id: nat) {
    && |ws| == |env| == SHARDS + 1 && |found| == SHARDS
    && (forall i :: 0 <= i <= SHARDS ==> Beside(env[i], id) && Legal(ws[i], env[i]))
    && (forall i :: 0 <= i < SHARDS ==> ReadsShard(ws[i], env[i], found[i], id, i, ws[i + 1]))
  }

  ghost predicate ReadsShard(w: World, env: seq<Step>, read: set<string>, id: nat, i: nat, after: World)
    requires Legal(w, env) && i < SHARDS
  {
    var v := Run(w, env);
    |v.shards| == SHARDS && Enabled(v, ScanShard(id)) && read == v.shards[i] && after == Next(v, ScanShard(id))
  }

  lemma ReadKeeps(w: World, env: seq<Step>, read: set<string>, id: nat, i: nat, after: World)
    requires WorldOk(w) && Legal(w, env) && Beside(env, id) && i < SHARDS && ReadsShard(w, env, read, id, i, after)
    requires CallOf(w, id).Scanning? && CallOf(w, id).next == i
    ensures WorldOk(after) && after.cache == w.cache
    ensures CallOf(after, id) == CallOf(w, id).(next := i + 1, got := CallOf(w, id).got + read)
  {
    BesideKeeps(w, env, id);
    StepKeeps(Run(w, env), ScanShard(id));
  }

  /** The scan of a call that has just begun one: the union of what it finds in the shards. */
  method ScanShards(found: seq<set<string>>, ghost id: nat, ghost ws: seq<World>, ghost env: seq<seq<Step>>)
    returns (got: set<string>)
    requires Scans(ws, env, found, id) && WorldOk(ws[0]) && CallOf(ws[0], id).Scanning?
    requires CallOf(ws[0], id).next == 0 && CallOf(ws[0], id).got == {}
    ensures got == Upto(found, SHARDS)
    ensures WorldOk(ws[SHARDS]) && ws[SHARDS].cache == ws[0].cache
    ensures CallOf(ws[SHARDS], id) == CallOf(ws[0], id).(next := SHARDS, got := got)
  {
    got := {};
    var i := 0;
    while i < SHARDS
      invariant i <= SHARDS && WorldOk(ws[i]) && ws[i].cache == ws[0].cache && got == Upto(found, i)
      invariant CallOf(ws[i], id) == CallOf(ws[0], id).(next := i, got := got)
    {
      ReadKeeps(ws[i], env[i], found[i], id, i, ws[i + 1]);
      got := got + found[i];
      i := i + 1;
    }
  }

  /** The cache, whose lock is held for the whole call. */
  class TrustPairsCache {
    var rev: nat
    var at: int
    var content: Option<set<string>>

    /** The object holds what the machine's cache holds. */
    ghost predicate Shows(w: World) reads this {
      match w.cache
      case None => content.None?
      case Some(c) => content == Some(c.content) && rev == c.rev
    }

    constructor ()
      ensures Shows(Quiet())
    {
      rev, at, content := 0, 0, None;
    }

    /** One encoding call, as the machine's steps: a hit is `Check` alone; a miss is `Check`,
        the scan with whatever other threads do beside it, and `Store`. The caller gets what
        the cache then holds. */
    method Encode(revision: nat, found: seq<set<string>>, now: int, ttl: int,
                  ghost id: nat, ghost w: World, ghost ws: seq<World>, ghost env: seq<seq<Step>>)
      returns (out: Option<set<string>>, ghost end: World)
      requires WorldOk(w) && Shows(w) && CallOf(w, id).Holding? && CallOf(w, id).rev == revision && LockFree(w)
      requires !Hits(w, id, now - at < ttl) ==>
                 Scans(ws, env, found, id) && ws[0] == Next(w, Check(id, now - at < ttl))
      modifies this
      ensures var within := now - old(at) < ttl;
              && WorldOk(end) && Shows(end) && out == content
              && (Hits(w, id, within) ==> end == Next(w, Check(id, within)) && out.Some?)
              && (!Hits(w, id, within) ==>
                    && |Run(ws[SHARDS], env[SHARDS]).shards| == SHARDS
                    && Enabled(Run(ws[SHARDS], env[SHARDS]), Store(id))
                    && end == Next(Run(ws[SHARDS], env[SHARDS]), Store(id)))
      ensures var current := old(content).Some? && old(rev) == revision && now - old(at) < ttl;
              && (current ==> out == old(content) && rev == old(rev) && at == old(at))
              && (!current ==> rev == revision && at == now && |found| == SHARDS)
              && (!current ==> var union := Upto(found, SHARDS); out == if union == {} then None else Some(union))
    {
      StepKeeps(w, Check(id, now - at < ttl));
      if content.Some? && rev == revision && now - at < ttl { return content, Next(w, Check(id, true)); }
      var got := ScanShards(found, id, ws, env);
      BesideKeeps(ws[SHARDS], env[SHARDS], id);
      StepKeeps(Run(ws[SHARDS], env[SHARDS]), Store(id));
      end := Next(Run(ws[SHARDS], env[SHARDS]), Store(id));
      content := if got == {} then None else Some(got);
      rev, at := revision, now;
      return content, end;
    }
  }
}
