/** The chunked reaper: a cursor that sweeps the registered ids in circular order, and the
    staleness re-check that protects nodes heard from between the scan and the deletion. */
module Reaper {
  import opened Registry
  import opened RegistryInvariants
  import opened RegistryRuns

  const CHUNK: nat := 10000

  // --- circular order ------------------------------------------------------------------------

  /** How far `y` lies from `c`, going up and wrapping at 2^32. */
  function Dist(c: nat, y: nat): nat
    requires c < NODE_LIMIT && y < NODE_LIMIT
  {
    if y >= c then y - c else y + NODE_LIMIT - c
  }

  ghost predicate InRange(ids: set<nat>) {
    forall y :: y in ids ==> y < NODE_LIMIT
  }

  /** The ids the sweep meets strictly before `x` when it starts at `c`. */
  ghost function Ahead(ids: set<nat>, c: nat, x: nat): set<nat>
    requires c < NODE_LIMIT && x < NODE_LIMIT && InRange(ids)
  {
    set y | y in ids && Dist(c, y) < Dist(c, x)
  }

  ghost predicate Ascending(s: seq<nat>) {
    forall i, j :: 0 <= i < j < |s| ==> s[i] < s[j]
  }

  ghost predicate Enumerates(s: seq<nat>, ids: set<nat>) {
    Ascending(s) && forall y :: y in s <==> y in ids
  }

  /** The ids in the order the sweep meets them. */
  ghost predicate SweepOrder(r: seq<nat>, ids: set<nat>, c: nat)
    requires c < NODE_LIMIT && InRange(ids)
  {
    && (forall y :: y in r <==> y in ids)
    && (forall i :: 0 <= i < |r| ==> r[i] < NODE_LIMIT)
    && (forall i, j :: 0 <= i < j < |r| ==> Dist(c, r[i]) < Dist(c, r[j]))
  }

  // --- one tick ------------------------------------------------------------------------------

  /** The scan of one tick: finds the start, walks up to a chunk of ids in circular order and
      returns them with the next cursor. */
  method ScanChunk(nodeIDs: seq<nat>, cursor: nat, ghost ids: set<nat>) returns (examined: seq<nat>, next: nat)
    requires InRange(ids) && cursor < NODE_LIMIT && Enumerates(nodeIDs, ids) && nodeIDs != []
    ensures |examined| == if |nodeIDs| < CHUNK then |nodeIDs| else CHUNK
    ensures exists r :: SweepOrder(r, ids, cursor) && |r| == |nodeIDs| && examined == r[..|examined|]
    ensures next == if |nodeIDs| <= CHUNK then 0 else (examined[|examined| - 1] + 1) % NODE_LIMIT
  {
    var startIdx := 0;
    while startIdx < |nodeIDs| && nodeIDs[startIdx] < cursor
      invariant startIdx <= |nodeIDs|
      invariant forall i :: 0 <= i < startIdx ==> nodeIDs[i] < cursor
    {
      startIdx := startIdx + 1;
    }
    ghost var r := nodeIDs[startIdx..] + nodeIDs[..startIdx];
    RotationSweeps(nodeIDs, ids, cursor, startIdx);
    examined := [];
    var lastProcessed := 0;
    var i := 0;
    while i < |nodeIDs| && i < CHUNK
      invariant i <= |nodeIDs| && i <= CHUNK && |examined| == i
      invariant examined == r[..i]
      invariant i > 0 ==> lastProcessed == examined[i - 1]
    {
      var id := nodeIDs[(startIdx + i) % |nodeIDs|];
      RotationIndex(nodeIDs, startIdx, i);
      examined := examined + [id];
      lastProcessed := id;
      i := i + 1;
    }
    next := if i >= |nodeIDs| then 0 else (lastProcessed + 1) % NODE_LIMIT;
  }

  lemma Wraps(a: nat, n: nat)
    requires a < 2 * n
    ensures a % n == if a < n then a else a - n
  {
    var q := a / n;
    assert a == n * q + a % n;
    assert q >= 2 ==> n * q >= n * 2;
  }

  lemma SliceTurn(s: seq<nat>, start: nat, i: nat)
    requires start <= |s| && i < |s|
    ensures (s[start..] + s[..start])[i] == s[if start + i < |s| then start + i else start + i - |s|]
  {
  }

  lemma RotationIndex(s: seq<nat>, start: nat, i: nat)
    requires start <= |s| && i < |s|
    ensures s[(start + i) % |s|] == (s[start..] + s[..start])[i]
  {
    Wraps(start + i, |s|);
    SliceTurn(s, start, i);
  }

  lemma RotationSweeps(s: seq<nat>, ids: set<nat>, c: nat, start: nat)
    requires InRange(ids) && c < NODE_LIMIT && Enumerates(s, ids) && start <= |s|
    requires (forall i :: 0 <= i < start ==> s[i] < c) && (start < |s| ==> s[start] >= c)
    ensures SweepOrder(s[start..] + s[..start], ids, c)
  {
    var r := s[start..] + s[..start];
    forall y ensures y in r <==> y in s { assert s == s[..start] + s[start..]; }
    forall i | 0 <= i < |r| ensures r[i] < NODE_LIMIT { assert r[i] in s; }
    forall i | start <= i < |s| ensures s[i] >= c { assert i > start ==> s[start] < s[i]; }
  }

  // --- progress ------------------------------------------------------------------------------

  lemma {:induction false} PrefixSize(r: seq<nat>, n: nat)
    requires n <= |r| && forall i, j :: 0 <= i < j < |r| ==> r[i] != r[j]
    ensures |set i | 0 <= i < n :: r[i]| == n
    decreases n
  {
    if n > 0 {
      PrefixSize(r, n - 1);
      var a, b := (set i | 0 <= i < n - 1 :: r[i]), (set i | 0 <= i < n :: r[i]);
      assert b == a + {r[n - 1]};
    }
  }

  /** The ids met before the one at position `p` are the `p` ids in front of it. */
  lemma AheadSize(r: seq<nat>, ids: set<nat>, c: nat, p: nat)
    requires c < NODE_LIMIT && InRange(ids) && SweepOrder(r, ids, c) && p < |r|
    ensures |Ahead(ids, c, r[p])| == p
  {
    PrefixSize(r, p);
    var front := set i | 0 <= i < p :: r[i];
    forall y ensures y in Ahead(ids, c, r[p]) <==> y in front {
      if y in Ahead(ids, c, r[p]) {
        var i :| 0 <= i < |r| && r[i] == y;
        assert i < p;
      }
    }
    assert Ahead(ids, c, r[p]) == front;
  }

  lemma SubsetSize(a: set<nat>, b: set<nat>)
    requires a <= b
    ensures |a| <= |b|
    decreases |a|
  {
    if a != {} {
      var x :| x in a;
      SubsetSize(a - {x}, b - {x});
    }
  }

  /** Moving the cursor past a chunk leaves exactly the rest of what was ahead. */
  lemma CursorAdvances(r: seq<nat>, ids: set<nat>, c: nat, q: nat, p: nat)
    requires c < NODE_LIMIT && InRange(ids) && SweepOrder(r, ids, c) && q < p < |r|
    ensures |Ahead(ids, (r[q] + 1) % NODE_LIMIT, r[p])| == p - q - 1
  {
    var c' := (r[q] + 1) % NODE_LIMIT;
    var x := r[p];
    var tail := r[q + 1..];
    var middle := set i | 0 <= i < p - q - 1 :: tail[i];
    forall i | 0 <= i < |r| ensures i > q ==> Dist(c', r[i]) == Dist(c, r[i]) - Dist(c, r[q]) - 1
                            ensures i <= q ==> Dist(c', r[i]) == NODE_LIMIT - 1 - (Dist(c, r[q]) - Dist(c, r[i])) {
      ShiftedDist(c, r[q], r[i]);
    }
    forall y | y in Ahead(ids, c', x) ensures y in middle {
      var i :| 0 <= i < |r| && r[i] == y;
      assert q < i < p;
      assert tail[i - q - 1] == y;
    }
    forall y | y in middle ensures y in Ahead(ids, c', x) {
      var i :| 0 <= i < p - q - 1 && tail[i] == y;
      assert y == r[q + 1 + i];
    }
    assert Ahead(ids, c', x) == middle;
    PrefixSize(tail, p - q - 1);
  }

  lemma ShiftedDist(c: nat, z: nat, y: nat)
    requires c < NODE_LIMIT && z < NODE_LIMIT && y < NODE_LIMIT
    ensures var c' := (z + 1) % NODE_LIMIT;
            Dist(c', y) == if Dist(c, y) > Dist(c, z) then Dist(c, y) - Dist(c, z) - 1
                           else NODE_LIMIT - 1 - (Dist(c, z) - Dist(c, y))
  {
  }

  lemma PositionBeyond(r: seq<nat>, n: nat, x: nat) returns (p: nat)
    requires n <= |r| && x in r && x !in r[..n]
    ensures n <= p < |r| && r[p] == x
  {
    assert r == r[..n] + r[n..];
    var j :| 0 <= j < |r[n..]| && r[n..][j] == x;
    p := n + j;
  }

  /** A tick either examines `x` or takes a whole chunk out of the ids ahead of it, whatever
      else disappears. */
  lemma TickProgress(r: seq<nat>, ids: set<nat>, c: nat, x: nat, later: set<nat>)
    requires c < NODE_LIMIT && InRange(ids) && SweepOrder(r, ids, c) && x in ids
    requires later <= ids && |r| > CHUNK && x !in r[..CHUNK]
    ensures |Ahead(later, (r[CHUNK - 1] + 1) % NODE_LIMIT, x)| + CHUNK <= |Ahead(ids, c, x)|
  {
    var p := PositionBeyond(r, CHUNK, x);
    AheadSize(r, ids, c, p);
    var c' := (r[CHUNK - 1] + 1) % NODE_LIMIT;
    CursorAdvances(r, ids, c, CHUNK - 1, p);
    SubsetSize(Ahead(later, c', x), Ahead(ids, c', x));
  }

  /** One tick as the scan performs it: the ids it starts from, the cursor and the order. */
  datatype Sweep = Sweep(ids: set<nat>, cursor: nat, order: seq<nat>)

  ghost predicate SweepOk(t: Sweep) {
    t.cursor < NODE_LIMIT && InRange(t.ids) && SweepOrder(t.order, t.ids, t.cursor) && t.order != []
  }

  function NextCursor(t: Sweep): nat
    requires t.order != []
  {
    if |t.order| <= CHUNK then 0 else (t.order[CHUNK - 1] + 1) % NODE_LIMIT
  }

  predicate Examines(t: Sweep, x: nat) {
    x in t.order[..if |t.order| < CHUNK then |t.order| else CHUNK]
  }

  /** Consecutive ticks: each starts at the cursor the last one left, on no new ids. */
  ghost predicate Consecutive(ts: seq<Sweep>) {
    && (forall i :: 0 <= i < |ts| ==> SweepOk(ts[i]))
    && (forall i :: 0 <= i < |ts| - 1 ==> ts[i + 1].ids <= ts[i].ids && ts[i + 1].cursor == NextCursor(ts[i]))
  }

  lemma {:induction false} UnexaminedIsFar(ts: seq<Sweep>, x: nat)
    requires Consecutive(ts) && ts != [] && x in ts[|ts| - 1].ids
    requires forall i :: 0 <= i < |ts| ==> !Examines(ts[i], x)
    ensures x in ts[0].ids && x < NODE_LIMIT
    ensures |Ahead(ts[0].ids, ts[0].cursor, x)| >= |ts| * CHUNK
    decreases |ts|
  {
    var t := ts[0];
    if |ts| > 1 {
      var rest := ts[1..];
      assert rest[|rest| - 1] == ts[|ts| - 1];
      forall i | 0 <= i < |rest| ensures SweepOk(rest[i]) && !Examines(rest[i], x) { assert rest[i] == ts[i + 1]; }
      forall i | 0 <= i < |rest| - 1 ensures rest[i + 1].ids <= rest[i].ids && rest[i + 1].cursor == NextCursor(rest[i]) {
        assert rest[i] == ts[i + 1] && rest[i + 1] == ts[i + 2];
      }
      UnexaminedIsFar(rest, x);
      assert x in t.ids;
      FarOrExamined(t, x);
      TickProgress(t.order, t.ids, t.cursor, x, ts[1].ids);
    } else {
      FarOrExamined(t, x);
    }
  }

  lemma FarOrExamined(t: Sweep, x: nat)
    requires SweepOk(t) && x in t.ids && !Examines(t, x)
    ensures |t.order| > CHUNK && x !in t.order[..CHUNK] && |Ahead(t.ids, t.cursor, x)| >= CHUNK
  {
    var p := PositionBeyond(t.order, if |t.order| < CHUNK then |t.order| else CHUNK, x);
    AheadSize(t.order, t.ids, t.cursor, p);
  }

  /** With N registered ids and no new registrations, every id that stays registered is
      examined within ceil(N / 10000) ticks, whatever is deleted meanwhile. */
  lemma ReaperProgress(ts: seq<Sweep>, x: nat)
    requires Consecutive(ts) && ts != [] && x in ts[|ts| - 1].ids
    requires |ts| * CHUNK >= |ts[0].ids|
    ensures exists i :: 0 <= i < |ts| && Examines(ts[i], x)
  {
    if forall i :: 0 <= i < |ts| ==> !Examines(ts[i], x) {
      UnexaminedIsFar(ts, x);
      var ahead := Ahead(ts[0].ids, ts[0].cursor, x);
      assert x !in ahead;
      SubsetSize(ahead + {x}, ts[0].ids);
      assert false;
    }
  }

  // --- the re-check ---------------------------------------------------------------------------

  /** Steps that can happen around a reap with this threshold: no one hears from the past,
      and the node itself is not deregistered. */
  ghost predicate Around(op: Op, id: NodeId, threshold: int) {
    match op
    case RegisterStep(r) => r.now >= threshold
    case NodeStep(d) =>
      && (d.OpHeartbeat? || d.OpRotateKey? ==> d.now >= threshold)
      && (d.OpDeregister? ==> d.id != id)
      && (d.OpReap? ==> d.threshold <= threshold)
    case _ => true
  }

  ghost predicate Heard(s: State, id: NodeId, threshold: int) {
    id in s.nodes && s.nodes[id].lastSeen >= threshold
  }

  lemma RegisterHeard(s: State, r: Registration, id: NodeId, threshold: int)
    requires 0 in s.networks && Heard(s, id, threshold) && r.now >= threshold
    requires RegisterPath(s, r) == Allocated ==> s.nextNode != id
    ensures Heard(Register(s, r), id, threshold)
  {
    match RegisterPath(s, r)
    case Rejected =>
    case Refreshed => RefreshHeard(s, r, id, threshold);
    case KeyReclaimed => ReviveHeard(if r.owner != "" then s.(ownerIdx := s.ownerIdx[r.owner := s.pubKeyIdx[r.key]]) else s,
                                     r, s.pubKeyIdx[r.key], [0] + r.scan, id, threshold);
    case OwnerReclaimed => ReviveHeard(s.(pubKeyIdx := s.pubKeyIdx[r.key := s.ownerIdx[r.owner]]),
                                       r, s.ownerIdx[r.owner], [0], id, threshold);
    case Allocated => ReviveHeard(Reserve(s, r), r, s.nextNode, [0], id, threshold);
  }

  lemma RefreshHeard(s: State, r: Registration, id: NodeId, threshold: int)
    requires IsKnownLive(s, r.key) && Heard(s, id, threshold) && r.now >= threshold
    ensures Heard(FastPath(s, r), id, threshold) && Heard(SlowPath(s, r), id, threshold)
  {
    var n := s.pubKeyIdx[r.key];
    assert Heard(FastPath(s, r), id, threshold);
    var u := ClaimOwner(FastPath(s, r), n, r.owner);
    assert Heard(u, id, threshold);
    NamingHeard(u, n, r.hostname, id, threshold);
  }

  lemma NamingHeard(s: State, n: NodeId, hostname: string, id: NodeId, threshold: int)
    requires n in s.nodes && Heard(s, id, threshold)
    ensures Heard(SetNodeHostname(s, n, hostname), id, threshold)
  {
  }

  lemma ReviveHeard(s: State, r: Registration, n: NodeId, networks: seq<NetId>, id: NodeId, threshold: int)
    requires 0 in s.networks && n != id && Heard(s, id, threshold)
    ensures Heard(Revive(s, r, n, networks), id, threshold)
  {
  }

  lemma DeleteHeard(s: State, k: NetId, authorized: bool, id: NodeId, threshold: int)
    requires Inv(s) && Heard(s, id, threshold)
    ensures Heard(DeleteNetwork(s, k, authorized), id, threshold)
  {
    if k in s.networks { DropNodeNetworksAt(s, s.networks[k].members, k, id); }
  }

  lemma LeaveHeard(s: State, n: NodeId, k: NetId, authorized: bool, id: NodeId, threshold: int)
    requires Heard(s, id, threshold)
    ensures Heard(Leave(s, n, k, authorized), id, threshold)
  {
  }

  lemma NetworkStepHeard(s: State, op: NetworkOp, id: NodeId, threshold: int)
    requires Inv(s) && Heard(s, id, threshold)
    ensures Heard(ApplyNetwork(s, op), id, threshold)
  {
    if op.OpDelete? {
      DeleteHeard(s, op.net, op.authorized, id, threshold);
    } else if op.OpLeave? {
      LeaveHeard(s, op.id, op.net, op.authorized, id, threshold);
    }
  }

  lemma StepHeard(s: State, op: Op, id: NodeId, threshold: int)
    requires Inv(s) && Enabled(s, op) && Heard(s, id, threshold) && Around(op, id, threshold)
    ensures Heard(Apply(s, op), id, threshold)
  {
    match op
    case RegisterStep(r) =>
      assert Issued(s, id);
      RegisterHeard(s, r, id, threshold);
    case IndexStep(_, _, _) =>
    case NodeStep(d) => NodeStepHeard(s, d, id, threshold);
    case NetworkStep(d) => NetworkStepHeard(s, d, id, threshold);
    case RoleStep(d) => RoleStepHeard(s, d, id, threshold);
  }

  lemma NodeStepHeard(s: State, d: NodeOp, id: NodeId, threshold: int)
    requires Heard(s, id, threshold) && Around(NodeStep(d), id, threshold)
    ensures Heard(ApplyNode(s, d), id, threshold)
  {
    if d.OpReap? && d.id in s.nodes { ReapExactly(s, d.id, d.threshold); }
  }

  lemma RoleStepHeard(s: State, d: RoleOp, id: NodeId, threshold: int)
    requires Heard(s, id, threshold)
    ensures Heard(ApplyRole(s, d), id, threshold)
  {
  }

  /** A node heard from after the scan survives the deletion phase: no reap with the scan's
      threshold removes it, however the deletions interleave with other requests. */
  lemma {:induction false} HeardSurvives(s: State, ops: seq<Op>, id: NodeId, threshold: int)
    requires Inv(s) && Legal(s, ops) && Heard(s, id, threshold)
    requires forall op :: op in ops ==> Around(op, id, threshold)
    ensures Heard(Run(s, ops), id, threshold)
    decreases |ops|
  {
    if ops != [] {
      StepHeard(s, ops[0], id, threshold);
      StepKeepsInv(s, ops[0]);
      HeardSurvives(Apply(s, ops[0]), ops[1..], id, threshold);
    }
  }

  /** A reap removes a node exactly when it is still stale at the re-check. */
  lemma ReapExactly(s: State, id: NodeId, threshold: int)
    requires id in s.nodes
    ensures id !in Reap(s, id, threshold).nodes <==> s.nodes[id].lastSeen < threshold
    ensures forall n :: n in s.nodes && n != id ==> n in Reap(s, id, threshold).nodes
  {
  }
}
