/** Replaying a log onto a state that already contains part of it.

    The log is replayed against a projection of the server state: which nodes are
    live and under which key, which networks exist, who is listed where with which
    role, which networks each live node points at, and the two id counters.
  */
module Overlap {
  import opened Options
  import opened Registry

  datatype Delta =
    | DRegister(id: NodeId, key: string)
    | DDeregister(id: NodeId)
    | DCreate(net: NetId, creator: NodeId)
    | DDelete(net: NetId)
    | DJoin(id: NodeId, net: NetId)
    | DLeave(id: NodeId, net: NetId)
    | DRotate(id: NodeId, key: string)

  type Edge = (NodeId, NetId)

  datatype View = View(
    nodes: map<NodeId, string>,
    nets: set<NetId>,
    lists: map<Edge, Option<Role>>,
    points: set<Edge>,
    nextNode: nat,
    nextNet: nat)

  function Max(a: nat, b: nat): nat { if a < b then b else a }

  // --- the effect of one log entry -----------------------------------------------------

  function Step(v: View, d: Delta): View {
    match d
    case DRegister(n, key) =>
      if n in v.nodes then v
      else v.(nodes := v.nodes[n := key],
              points := v.points + {(n, 0)},
              lists := if 0 in v.nets && (n, 0) !in v.lists then v.lists[(n, 0) := None] else v.lists,
              nextNode := Max(v.nextNode, n + 1))
    case DDeregister(n) =>
      if n !in v.nodes then v
      else v.(nodes := v.nodes - {n},
              lists := map e | e in v.lists && !(e.0 == n && e in v.points) :: v.lists[e],
              points := (set e | e in v.points && e.0 != n))
    case DCreate(k, c) =>
      if k in v.nets then v
      else v.(nets := v.nets + {k},
              lists := v.lists[(c, k) := Some(Owner)],
              points := if c in v.nodes then v.points + {(c, k)} else v.points,
              nextNet := Max(v.nextNet, k + 1))
    case DDelete(k) =>
      if k !in v.nets then v
      else v.(nets := v.nets - {k},
              points := (set e | e in v.points && !(e.1 == k && e in v.lists)),
              lists := map e | e in v.lists && e.1 != k :: v.lists[e])
    case DJoin(n, k) =>
      if k !in v.nets || n !in v.nodes then v
      else v.(lists := if (n, k) in v.lists then v.lists else v.lists[(n, k) := Some(Member)],
              points := v.points + {(n, k)})
    case DLeave(n, k) =>
      if k !in v.nets || n !in v.nodes then v
      else v.(lists := v.lists - {(n, k)}, points := v.points - {(n, k)})
    case DRotate(n, key) =>
      if n !in v.nodes then v else v.(nodes := v.nodes[n := key])
  }

  function Replay(v: View, log: seq<Delta>): View
    decreases |log|
  {
    if log == [] then v else Replay(Step(v, log[0]), log[1..])
  }

  // --- logs the live server writes -------------------------------------------------------

  /** A live node points at exactly the networks that list it, and only existing networks list anyone. */
  ghost predicate Symmetric(v: View) {
    && 0 in v.nets
    && (forall e :: e in v.lists ==> e.1 in v.nets)
    && (forall e :: e in v.points ==> e in v.lists && e.0 in v.nodes)
    && (forall e :: e in v.lists && e.0 in v.nodes ==> e in v.points)
  }

  ghost predicate WellFormed(v: View) {
    && Symmetric(v)
    && (forall n :: n in v.nodes ==> 0 < n < v.nextNode)
    && (forall e :: e in v.lists ==> 0 < e.0 < v.nextNode)
    && (forall k :: k in v.nets ==> k < v.nextNet)
  }

  /** When the live server performs, and so records, `d`. */
  ghost predicate Recordable(v: View, d: Delta) {
    match d
    case DRegister(n, key) => n == v.nextNode && 0 < n
    case DDeregister(n) => n in v.nodes
    case DCreate(k, c) => k == v.nextNet && c in v.nodes
    case DDelete(k) => k in v.nets && k != 0
    case DJoin(n, k) => n in v.nodes && k in v.nets && k != 0 && (n, k) !in v.lists
    case DLeave(n, k) => k != 0 && (n, k) in v.points
    case DRotate(n, key) => n in v.nodes
  }

  ghost predicate Valid(v: View, log: seq<Delta>)
    decreases |log|
  {
    log == [] || (Recordable(v, log[0]) && Valid(Step(v, log[0]), log[1..]))
  }

  lemma StepWellFormed(v: View, d: Delta)
    requires WellFormed(v) && Recordable(v, d)
    ensures WellFormed(Step(v, d))
  {
  }

  lemma {:induction false} ReplayWellFormed(v: View, log: seq<Delta>)
    requires WellFormed(v) && Valid(v, log)
    ensures WellFormed(Replay(v, log))
    decreases |log|
  {
    if log != [] {
      StepWellFormed(v, log[0]);
      ReplayWellFormed(Step(v, log[0]), log[1..]);
    }
  }

  // --- which part of the view an entry can change ----------------------------------------

  predicate TouchesNode(d: Delta, n: NodeId) {
    (d.DRegister? || d.DDeregister?) && d.id == n
  }

  predicate TouchesKey(d: Delta, n: NodeId) {
    (d.DRegister? || d.DDeregister? || d.DRotate?) && d.id == n
  }

  predicate TouchesNet(d: Delta, k: NetId) {
    (d.DCreate? || d.DDelete?) && d.net == k
  }

  predicate TouchesEdge(d: Delta, n: NodeId, k: NetId) {
    match d
    case DRegister(i, key) => i == n && k == 0
    case DDeregister(i) => i == n
    case DCreate(j, c) => j == k && c == n
    case DDelete(j) => j == k
    case DJoin(i, j) => i == n && j == k
    case DLeave(i, j) => i == n && j == k
    case DRotate(i, key) => false
  }

  ghost predicate NodeIn(log: seq<Delta>, n: NodeId) { exists d :: d in log && TouchesNode(d, n) }
  ghost predicate KeyIn(log: seq<Delta>, n: NodeId) { exists d :: d in log && TouchesKey(d, n) }
  ghost predicate NetIn(log: seq<Delta>, k: NetId) { exists d :: d in log && TouchesNet(d, k) }
  ghost predicate EdgeIn(log: seq<Delta>, n: NodeId, k: NetId) { exists d :: d in log && TouchesEdge(d, n, k) }

  ghost predicate SameNode(a: View, b: View, n: NodeId) { n in a.nodes <==> n in b.nodes }

  ghost predicate SameKey(a: View, b: View, n: NodeId) {
    n in a.nodes && n in b.nodes ==> a.nodes[n] == b.nodes[n]
  }

  ghost predicate SameNet(a: View, b: View, k: NetId) { k in a.nets <==> k in b.nets }

  ghost predicate SameEdge(a: View, b: View, n: NodeId, k: NetId) {
    && ((n, k) in a.lists <==> (n, k) in b.lists)
    && ((n, k) in a.lists && (n, k) in b.lists ==> a.lists[(n, k)] == b.lists[(n, k)])
  }

  lemma StepFrame(v: View, d: Delta, n: NodeId, k: NetId)
    ensures !TouchesNode(d, n) ==> SameNode(v, Step(v, d), n)
    ensures !TouchesKey(d, n) ==> SameKey(v, Step(v, d), n)
    ensures !TouchesNet(d, k) ==> SameNet(v, Step(v, d), k)
    ensures !TouchesEdge(d, n, k) ==> SameEdge(v, Step(v, d), n, k)
  {
  }

  lemma {:induction false} ReplayFrame(v: View, log: seq<Delta>, n: NodeId, k: NetId)
    ensures !NodeIn(log, n) ==> SameNode(v, Replay(v, log), n)
    ensures !KeyIn(log, n) && !NodeIn(log, n) ==> SameKey(v, Replay(v, log), n)
    ensures !NetIn(log, k) ==> SameNet(v, Replay(v, log), k)
    ensures !EdgeIn(log, n, k) ==> SameEdge(v, Replay(v, log), n, k)
    decreases |log|
  {
    if log != [] {
      StepFrame(v, log[0], n, k);
      ReplayFrame(Step(v, log[0]), log[1..], n, k);
      assert log[0] in log && forall d :: d in log[1..] ==> d in log;
    }
  }

  // --- ids never come back ---------------------------------------------------------------

  /** Listed ids that are new since the bounds, or listed by a new network, are live. */
  ghost predicate NewListedLive(v: View, node: nat, net: nat) {
    forall x :: x in v.lists && (x.0 >= node || x.1 >= net) ==> x.0 in v.nodes
  }

  lemma {:induction false} ReplayNewListedLive(v: View, log: seq<Delta>, node: nat, net: nat)
    requires WellFormed(v) && Valid(v, log) && NewListedLive(v, node, net)
    ensures NewListedLive(Replay(v, log), node, net)
    decreases |log|
  {
    if log != [] {
      StepWellFormed(v, log[0]);
      ReplayNewListedLive(Step(v, log[0]), log[1..], node, net);
    }
  }

  /** What was gone at `s` is still gone at `e`. */
  ghost predicate StaysGone(s: View, e: View) {
    && s.nextNode <= e.nextNode && s.nextNet <= e.nextNet
    && (forall n :: n < s.nextNode && n !in s.nodes ==> n !in e.nodes)
    && (forall k :: k < s.nextNet && k !in s.nets ==> k !in e.nets)
  }

  lemma {:induction false} ReplayStaysGone(s: View, log: seq<Delta>)
    requires WellFormed(s) && Valid(s, log)
    ensures StaysGone(s, Replay(s, log))
    decreases |log|
  {
    if log != [] {
      StepWellFormed(s, log[0]);
      ReplayStaysGone(Step(s, log[0]), log[1..]);
      assert StaysGone(s, Step(s, log[0]));
    }
  }

  /** An entry that creates an id creates one the counter has not passed yet. */
  lemma {:induction false} CreationsAreNew(s: View, log: seq<Delta>, d: Delta)
    requires WellFormed(s) && Valid(s, log) && d in log
    ensures d.DRegister? ==> d.id >= s.nextNode
    ensures d.DCreate? ==> d.net >= s.nextNet
    decreases |log|
  {
    StepWellFormed(s, log[0]);
    if d != log[0] {
      CreationsAreNew(Step(s, log[0]), log[1..], d);
    }
  }

  lemma OldNodeTouched(s: View, log: seq<Delta>, n: NodeId)
    requires WellFormed(s) && Valid(s, log) && n < s.nextNode && NodeIn(log, n)
    ensures forall k: NetId :: EdgeIn(log, n, k)
  {
    var d :| d in log && TouchesNode(d, n);
    CreationsAreNew(s, log, d);
    forall k: NetId ensures EdgeIn(log, n, k) { assert TouchesEdge(d, n, k); }
  }

  lemma OldNetTouched(s: View, log: seq<Delta>, k: NetId)
    requires WellFormed(s) && Valid(s, log) && k < s.nextNet && NetIn(log, k)
    ensures forall n: NodeId :: EdgeIn(log, n, k)
  {
    var d :| d in log && TouchesNet(d, k);
    CreationsAreNew(s, log, d);
    forall n: NodeId ensures EdgeIn(log, n, k) { assert TouchesEdge(d, n, k); }
  }

  // --- the simulation --------------------------------------------------------------------

  /** `t` is where the overlapping replay stands when the original run stood at `s`, with
      `rest` still to come and `e` the original end. Whatever `rest` does not touch, and
      whatever has not been created yet, `t` already has as in `e`. */
  ghost predicate Sim(s: View, t: View, rest: seq<Delta>, e: View) {
    && Symmetric(t) && t.nextNode == e.nextNode && t.nextNet == e.nextNet
    && (forall n: NodeId :: !NodeIn(rest, n) || n >= s.nextNode ==> SameNode(t, e, n))
    && (forall n: NodeId :: !KeyIn(rest, n) || n >= s.nextNode ==> SameKey(t, e, n))
    && (forall k: NetId :: !NetIn(rest, k) || k >= s.nextNet ==> SameNet(t, e, k))
    && (forall n: NodeId, k: NetId :: !EdgeIn(rest, n, k) || n >= s.nextNode || k >= s.nextNet ==> SameEdge(t, e, n, k))
    && (forall n, k :: (n, k) in t.lists ==> Accounted(t, e, n, k))
  }

  /** A listed id that is not live is so in `e` too, and a role other than plain member is
      the one it has in `e`, unless `e` no longer has the network. */
  ghost predicate Accounted(t: View, e: View, n: NodeId, k: NetId) {
    || k !in e.nets
    || ((n in t.nodes || (n, k) in e.lists)
        && (k == 0 || ((n, k) in t.lists && t.lists[(n, k)] == Some(Member)) || SameEdge(t, e, n, k)))
  }

  /** The standing assumptions of a simulation step, with what they imply about the end. */
  ghost predicate Context(s: View, t: View, d: Delta, rest: seq<Delta>, e: View) {
    && WellFormed(s) && Recordable(s, d) && WellFormed(Step(s, d))
    && Valid(Step(s, d), rest) && e == Replay(Step(s, d), rest) && WellFormed(e)
    && StaysGone(Step(s, d), e) && NewListedLive(e, s.nextNode, s.nextNet)
    && Sim(s, t, [d] + rest, e)
  }

  lemma ContextHolds(s: View, t: View, d: Delta, rest: seq<Delta>, e: View)
    requires WellFormed(s) && Valid(s, [d] + rest) && e == Replay(s, [d] + rest)
    requires Sim(s, t, [d] + rest, e)
    ensures Context(s, t, d, rest, e)
  {
    assert ([d] + rest)[0] == d && ([d] + rest)[1..] == rest;
    StepWellFormed(s, d);
    ReplayWellFormed(Step(s, d), rest);
    ReplayStaysGone(Step(s, d), rest);
    ReplayNewListedLive(s, [d] + rest, s.nextNode, s.nextNet);
  }

  lemma InCons(d: Delta, rest: seq<Delta>, n: NodeId, k: NetId)
    ensures NodeIn([d] + rest, n) <==> TouchesNode(d, n) || NodeIn(rest, n)
    ensures KeyIn([d] + rest, n) <==> TouchesKey(d, n) || KeyIn(rest, n)
    ensures NetIn([d] + rest, k) <==> TouchesNet(d, k) || NetIn(rest, k)
    ensures EdgeIn([d] + rest, n, k) <==> TouchesEdge(d, n, k) || EdgeIn(rest, n, k)
  {
    var l := [d] + rest;
    assert d in l && forall x :: x in l <==> x == d || x in rest;
  }

  lemma SimNode(s: View, t: View, d: Delta, rest: seq<Delta>, e: View, n: NodeId)
    requires Context(s, t, d, rest, e)
    requires !NodeIn(rest, n) || n >= Step(s, d).nextNode
    ensures SameNode(Step(t, d), e, n)
  {
    InCons(d, rest, n, 0);
    StepFrame(t, d, n, 0);
    ReplayFrame(Step(s, d), rest, n, 0);
    assert !TouchesNode(d, n) || n >= s.nextNode ==> SameNode(t, e, n);
  }

  lemma SimKey(s: View, t: View, d: Delta, rest: seq<Delta>, e: View, n: NodeId)
    requires Context(s, t, d, rest, e)
    requires !KeyIn(rest, n) || n >= Step(s, d).nextNode
    ensures SameKey(Step(t, d), e, n)
  {
    InCons(d, rest, n, 0);
    StepFrame(t, d, n, 0);
    ReplayFrame(Step(s, d), rest, n, 0);
    assert !TouchesKey(d, n) || n >= s.nextNode ==> SameKey(t, e, n);
    assert n >= s.nextNode ==> SameNode(t, e, n);
    assert !KeyIn(rest, n) ==> !NodeIn(rest, n);
  }

  lemma SimNet(s: View, t: View, d: Delta, rest: seq<Delta>, e: View, k: NetId)
    requires Context(s, t, d, rest, e)
    requires !NetIn(rest, k) || k >= Step(s, d).nextNet
    ensures SameNet(Step(t, d), e, k)
  {
    InCons(d, rest, 0, k);
    StepFrame(t, d, 0, k);
    ReplayFrame(Step(s, d), rest, 0, k);
    assert !TouchesNet(d, k) || k >= s.nextNet ==> SameNet(t, e, k);
  }

  /** A node the run still has is missing from the overlapping replay only if it leaves later. */
  lemma LiveUnlessLeaving(s: View, t: View, d: Delta, rest: seq<Delta>, e: View, n: NodeId)
    requires Context(s, t, d, rest, e) && n in s.nodes && n in Step(s, d).nodes && n !in t.nodes
    ensures forall k: NetId :: EdgeIn(rest, n, k)
  {
    InCons(d, rest, n, 0);
    ReplayFrame(Step(s, d), rest, n, 0);
    assert !TouchesNode(d, n);
    assert NodeIn(rest, n) by {
      assert !NodeIn([d] + rest, n) ==> SameNode(t, e, n);
    }
    OldNodeTouched(Step(s, d), rest, n);
  }

  lemma NetUnlessDeleted(s: View, t: View, d: Delta, rest: seq<Delta>, e: View, k: NetId)
    requires Context(s, t, d, rest, e) && k < s.nextNet && !TouchesNet(d, k) && !SameNet(t, e, k)
    ensures forall n: NodeId :: EdgeIn(rest, n, k)
  {
    InCons(d, rest, 0, k);
    assert NetIn(rest, k) by {
      assert !NetIn([d] + rest, k) ==> SameNet(t, e, k);
    }
    OldNetTouched(Step(s, d), rest, k);
  }

  // Edges, one lemma for each kind of entry that touches them. Each shows that if nothing
  // touches the edge later, the overlapping replay now has it as in the end.

  lemma EdgeRegister(s: View, t: View, d: Delta, rest: seq<Delta>, e: View)
    requires Context(s, t, d, rest, e) && d.DRegister? && !EdgeIn(rest, d.id, 0)
    ensures SameEdge(Step(t, d), e, d.id, 0)
  {
    var n := d.id;
    assert SameEdge(t, e, n, 0) && SameNode(t, e, n);
    assert n in e.nodes by {
      ReplayFrame(Step(s, d), rest, n, 0);
      if NodeIn(rest, n) {
        OldNodeTouched(Step(s, d), rest, n);
        assert false;
      }
    }
  }

  lemma NotListedAfterDeregister(s: View, t: View, d: Delta, rest: seq<Delta>, e: View, k: NetId)
    requires Context(s, t, d, rest, e) && d.DDeregister?
    requires !EdgeIn(rest, d.id, k) || k >= Step(s, d).nextNet
    ensures (d.id, k) !in e.lists
  {
    ReplayFrame(Step(s, d), rest, d.id, k);
    assert (d.id, k) !in Step(s, d).lists;
    assert d.id !in e.nodes;
  }

  lemma EdgeDeregister(s: View, t: View, d: Delta, rest: seq<Delta>, e: View, k: NetId)
    requires Context(s, t, d, rest, e) && d.DDeregister?
    requires !EdgeIn(rest, d.id, k) || k >= Step(s, d).nextNet
    ensures SameEdge(Step(t, d), e, d.id, k)
  {
    var n := d.id;
    NotListedAfterDeregister(s, t, d, rest, e, k);
    if n !in t.nodes && (n, k) in t.lists {
      assert Accounted(t, e, n, k);
      assert k in t.nets && k !in e.nets;
      assert k < s.nextNet by {
        assert k >= s.nextNet ==> SameNet(t, e, k);
      }
      NetUnlessDeleted(s, t, d, rest, e, k);
      assert false;
    }
  }

  lemma EdgeCreate(s: View, t: View, d: Delta, rest: seq<Delta>, e: View)
    requires Context(s, t, d, rest, e) && d.DCreate? && !EdgeIn(rest, d.creator, d.net)
    ensures SameEdge(Step(t, d), e, d.creator, d.net)
  {
    var n, k := d.creator, d.net;
    assert SameEdge(t, e, n, k) && SameNet(t, e, k);
    assert k in e.nets by {
      ReplayFrame(Step(s, d), rest, n, k);
      if NetIn(rest, k) {
        OldNetTouched(Step(s, d), rest, k);
        assert false;
      }
    }
  }

  lemma EdgeDelete(s: View, t: View, d: Delta, rest: seq<Delta>, e: View, n: NodeId)
    requires Context(s, t, d, rest, e) && d.DDelete?
    ensures SameEdge(Step(t, d), e, n, d.net)
  {
    assert d.net !in Step(s, d).nets && d.net < Step(s, d).nextNet;
    assert d.net !in e.nets;
    assert (n, d.net) !in e.lists;
    assert (n, d.net) in t.lists ==> d.net in t.nets;
  }

  /** Both ends of a joined or left edge are present in the overlapping replay. */
  lemma EndsPresent(s: View, t: View, d: Delta, rest: seq<Delta>, e: View)
    requires Context(s, t, d, rest, e) && (d.DJoin? || d.DLeave?) && !EdgeIn(rest, d.id, d.net)
    ensures d.id in t.nodes && d.net in t.nets && d.net in e.nets
  {
    var n, k := d.id, d.net;
    if n !in t.nodes {
      LiveUnlessLeaving(s, t, d, rest, e, n);
      assert false;
    }
    ReplayFrame(Step(s, d), rest, n, k);
    if NetIn(rest, k) {
      OldNetTouched(Step(s, d), rest, k);
      assert false;
    }
    if !SameNet(t, e, k) {
      NetUnlessDeleted(s, t, d, rest, e, k);
      assert false;
    }
  }

  lemma EdgeJoinLeave(s: View, t: View, d: Delta, rest: seq<Delta>, e: View)
    requires Context(s, t, d, rest, e) && (d.DJoin? || d.DLeave?) && !EdgeIn(rest, d.id, d.net)
    ensures SameEdge(Step(t, d), e, d.id, d.net)
  {
    EndsPresent(s, t, d, rest, e);
    ReplayFrame(Step(s, d), rest, d.id, d.net);
    if (d.id, d.net) in t.lists { assert Accounted(t, e, d.id, d.net); }
  }

  lemma SimEdge(s: View, t: View, d: Delta, rest: seq<Delta>, e: View, n: NodeId, k: NetId)
    requires Context(s, t, d, rest, e)
    requires !EdgeIn(rest, n, k) || n >= Step(s, d).nextNode || k >= Step(s, d).nextNet
    ensures SameEdge(Step(t, d), e, n, k)
  {
    if TouchesEdge(d, n, k) {
      match d
      case DRegister(i, key) => EdgeRegister(s, t, d, rest, e);
      case DDeregister(i) => EdgeDeregister(s, t, d, rest, e, k);
      case DCreate(j, c) => EdgeCreate(s, t, d, rest, e);
      case DDelete(j) => EdgeDelete(s, t, d, rest, e, n);
      case DJoin(i, j) => EdgeJoinLeave(s, t, d, rest, e);
      case DLeave(i, j) => EdgeJoinLeave(s, t, d, rest, e);
    } else {
      InCons(d, rest, n, k);
      StepFrame(t, d, n, k);
      assert SameEdge(t, e, n, k);
    }
  }

  lemma AccountedStep(s: View, t: View, d: Delta, rest: seq<Delta>, e: View, n: NodeId, k: NetId)
    requires Context(s, t, d, rest, e) && (n, k) in Step(t, d).lists
    ensures Accounted(Step(t, d), e, n, k)
  {
    if (n, k) in t.lists { assert Accounted(t, e, n, k); }
    if d.DCreate? { assert SameNet(t, e, d.net); }
  }

  lemma SymmetricKept(t: View, d: Delta)
    requires Symmetric(t) && (d.DDelete? ==> d.net != 0)
    requires d.DRegister? && d.id !in t.nodes ==> forall j: NetId :: (d.id, j) !in t.lists
    ensures Symmetric(Step(t, d))
  {
  }

  lemma CountersSettled(s: View, t: View, d: Delta, rest: seq<Delta>, e: View)
    requires Context(s, t, d, rest, e)
    ensures Step(t, d).nextNode == e.nextNode && Step(t, d).nextNet == e.nextNet
  {
  }

  lemma SymmetricStep(s: View, t: View, d: Delta, rest: seq<Delta>, e: View)
    requires Context(s, t, d, rest, e)
    ensures Symmetric(Step(t, d))
    ensures Step(t, d).nextNode == e.nextNode && Step(t, d).nextNet == e.nextNet
  {
    if d.DRegister? && d.id !in t.nodes {
      assert SameNode(t, e, d.id);
      forall j: NetId ensures (d.id, j) !in t.lists {
        assert SameEdge(t, e, d.id, j);
      }
    }
    SymmetricKept(t, d);
    CountersSettled(s, t, d, rest, e);
  }

  lemma SimStep(s: View, t: View, d: Delta, rest: seq<Delta>, e: View)
    requires Context(s, t, d, rest, e)
    ensures Sim(Step(s, d), Step(t, d), rest, e)
  {
    SymmetricStep(s, t, d, rest, e);
    forall n: NodeId | !NodeIn(rest, n) || n >= Step(s, d).nextNode ensures SameNode(Step(t, d), e, n) {
      SimNode(s, t, d, rest, e, n);
    }
    forall n: NodeId | !KeyIn(rest, n) || n >= Step(s, d).nextNode ensures SameKey(Step(t, d), e, n) {
      SimKey(s, t, d, rest, e, n);
    }
    forall k: NetId | !NetIn(rest, k) || k >= Step(s, d).nextNet ensures SameNet(Step(t, d), e, k) {
      SimNet(s, t, d, rest, e, k);
    }
    forall n: NodeId, k: NetId | !EdgeIn(rest, n, k) || n >= Step(s, d).nextNode || k >= Step(s, d).nextNet
      ensures SameEdge(Step(t, d), e, n, k)
    {
      SimEdge(s, t, d, rest, e, n, k);
    }
    forall n: NodeId, k: NetId | (n, k) in Step(t, d).lists ensures Accounted(Step(t, d), e, n, k) {
      AccountedStep(s, t, d, rest, e, n, k);
    }
  }

  /** With nothing left to come, the two views are equal. */
  lemma SimEnd(s: View, t: View, e: View)
    requires Sim(s, t, [], e) && Symmetric(e)
    ensures t == e
  {
    forall n: NodeId ensures n in t.nodes <==> n in e.nodes
                     ensures n in t.nodes && n in e.nodes ==> t.nodes[n] == e.nodes[n] {
      assert !NodeIn([], n) && !KeyIn([], n);
      assert SameNode(t, e, n) && SameKey(t, e, n);
    }
    forall k: NetId ensures k in t.nets <==> k in e.nets {
      assert !NetIn([], k);
      assert SameNet(t, e, k);
    }
    forall x: Edge ensures x in t.lists <==> x in e.lists
                   ensures x in t.lists && x in e.lists ==> t.lists[x] == e.lists[x] {
      assert !EdgeIn([], x.0, x.1);
      assert SameEdge(t, e, x.0, x.1);
    }
    assert t.nodes == e.nodes;
    assert t.nets == e.nets;
    assert t.lists == e.lists;
    assert t.points == e.points;
  }

  lemma {:induction false} SimReplay(s: View, t: View, rest: seq<Delta>, e: View)
    requires WellFormed(s) && Valid(s, rest) && e == Replay(s, rest) && Sim(s, t, rest, e)
    ensures Replay(t, rest) == e
    decreases |rest|
  {
    if rest == [] {
      SimEnd(s, t, e);
    } else {
      var d, tail := rest[0], rest[1..];
      assert rest == [d] + tail;
      ContextHolds(s, t, d, tail, e);
      SimStep(s, t, d, tail, e);
      SimReplay(Step(s, d), Step(t, d), tail, e);
    }
  }

  /** Replaying a whole log onto the state it leads to changes nothing. */
  lemma ReplayIdempotent(v: View, log: seq<Delta>)
    requires WellFormed(v) && Valid(v, log)
    ensures Replay(Replay(v, log), log) == Replay(v, log)
  {
    var e := Replay(v, log);
    ReplayWellFormed(v, log);
    SimReplay(v, e, log, e);
  }

  lemma {:induction false} ReplayAppend(v: View, a: seq<Delta>, b: seq<Delta>)
    ensures Replay(v, a + b) == Replay(Replay(v, a), b)
    ensures Valid(v, a + b) <==> Valid(v, a) && Valid(Replay(v, a), b)
    decreases |a|
  {
    if a == [] {
      assert a + b == b;
    } else {
      assert (a + b)[0] == a[0] && (a + b)[1..] == a[1..] + b;
      ReplayAppend(Step(v, a[0]), a[1..], b);
    }
  }

  /** Overlap: replaying the whole log onto the state reached after any prefix of it
      gives the state after the whole log. */
  lemma OverlapReplay(v: View, log: seq<Delta>, k: nat)
    requires WellFormed(v) && Valid(v, log) && k <= |log|
    ensures Replay(Replay(v, log[..k]), log) == Replay(v, log)
  {
    var a, b := log[..k], log[k..];
    assert log == a + b;
    ReplayAppend(v, a, b);
    ReplayIdempotent(v, a);
    ReplayAppend(Replay(v, a), a, b);
  }
}
