/** Applying log entries to the full server state, and the projection under which the
    live handlers and the replayed entries agree. */
module DeltaReplay {
  import opened Options
  import opened Registry
  import opened RegistryInvariants
  import opened Overlap

  /** A decoded log entry with the fields replay uses. */
  datatype Entry =
    | RegisterEntry(id: NodeId, key: string, owner: string, hostname: string, endpoint: Endpoint, at: int)
    | DeregisterEntry(id: NodeId)
    | CreateEntry(net: NetId, name: string, joinRule: string, token: string, enterprise: bool, creator: NodeId)
    | DeleteEntry(net: NetId)
    | JoinEntry(id: NodeId, net: NetId)
    | LeaveEntry(id: NodeId, net: NetId)
    | RotateEntry(id: NodeId, key: string)
    | UnknownEntry
    | BrokenEntry

  /** Entries whose apply function returns an error, which ends the replay: a known type whose
      payload does not decode or whose key is no base64, or one without an id or a key. */
  predicate Malformed(e: Entry) {
    e.BrokenEntry? || ((e.RegisterEntry? || e.RotateEntry?) && (e.id == 0 || e.key == ""))
  }

  /** The node a registration entry brings back; the entry has no relay-only flag. */
  function ReplayedNode(e: Entry): Node
    requires e.RegisterEntry?
  {
    Node(e.key, e.owner, e.hostname, [0], e.at, e.endpoint.(relayOnly := false), false)
  }

  /** A replayed registration before the backbone and the counter are looked at. */
  function Entered(s: State, e: Entry): State
    requires e.RegisterEntry?
  {
    WithNode(s, e.id, ReplayedNode(e)).(
      pubKeyIdx := s.pubKeyIdx[e.key := e.id],
      ownerIdx := if e.owner != "" then s.ownerIdx[e.owner := e.id] else s.ownerIdx,
      hostnameIdx := if e.hostname != "" then s.hostnameIdx[e.hostname := e.id] else s.hostnameIdx)
  }

  function ApplyRegister(s: State, e: Entry): State
    requires e.RegisterEntry?
  {
    if e.id in s.nodes then s
    else
      var s1 := Entered(s, e);
      var s2 := if 0 in s1.networks then AddToBackbone(s1, e.id) else s1;
      if s2.nextNode <= e.id then s2.(nextNode := (e.id + 1) % NODE_LIMIT) else s2
  }

  function ApplyDeregister(s: State, id: NodeId): State {
    if id !in s.nodes then s
    else
      var n := s.nodes[id];
      var s1 := s.(pubKeyIdx := s.pubKeyIdx - {n.key},
                   ownerIdx := if n.owner != "" then s.ownerIdx - {n.owner} else s.ownerIdx,
                   hostnameIdx := if n.hostname != "" then s.hostnameIdx - {n.hostname} else s.hostnameIdx,
                   nodes := s.nodes - {id});
      DropFromNetworks(s1, id, n.networks)
  }

  /** Adds `k` to a live node's networks unless it is there already. */
  function PointOnce(s: State, id: NodeId, k: NetId): State {
    if id !in s.nodes || k in s.nodes[id].networks then s
    else WithNode(s, id, s.nodes[id].(networks := s.nodes[id].networks + [k]))
  }

  function CreatedNetwork(e: Entry): Network
    requires e.CreateEntry?
  {
    if e.creator != 0
    then Network(e.name, e.joinRule, e.token, e.enterprise, 0, [e.creator], map[e.creator := Owner])
    else Network(e.name, e.joinRule, e.token, e.enterprise, 0, [], map[])
  }

  function ApplyCreate(s: State, e: Entry): State
    requires e.CreateEntry?
  {
    if e.net in s.networks then s
    else
      var s1 := if e.creator != 0 then PointOnce(s, e.creator, e.net) else s;
      var s2 := WithNetwork(s1, e.net, CreatedNetwork(e));
      if s2.nextNet <= e.net then s2.(nextNet := (e.net + 1) % NET_LIMIT) else s2
  }

  function ApplyDelete(s: State, k: NetId): State {
    if k !in s.networks then s
    else
      var s1 := DropNodeNetworks(s, s.networks[k].members, k);
      s1.(networks := s1.networks - {k})
  }

  function ApplyJoin(s: State, id: NodeId, k: NetId): State {
    if k !in s.networks || id !in s.nodes then s
    else
      var net := s.networks[k];
      var s1 := if id in net.members then s
                else WithNetwork(s, k, net.(members := net.members + [id], roles := net.roles[id := Member]));
      PointOnce(s1, id, k)
  }

  function ApplyLeave(s: State, id: NodeId, k: NetId): State {
    if k !in s.networks || id !in s.nodes then s
    else DropNodeNetwork(DropMember(s, k, id), id, k)
  }

  function ApplyRotate(s: State, id: NodeId, key: string): State {
    if id !in s.nodes then s
    else
      var s1 := s.(pubKeyIdx := (s.pubKeyIdx - {s.nodes[id].key})[key := id]);
      WithNode(s1, id, s1.nodes[id].(key := key))
  }

  function ApplyEntry(s: State, e: Entry): State {
    match e
    case RegisterEntry(_, _, _, _, _, _) => ApplyRegister(s, e)
    case DeregisterEntry(id) => ApplyDeregister(s, id)
    case CreateEntry(_, _, _, _, _, _) => ApplyCreate(s, e)
    case DeleteEntry(k) => ApplyDelete(s, k)
    case JoinEntry(id, k) => ApplyJoin(s, id, k)
    case LeaveEntry(id, k) => ApplyLeave(s, id, k)
    case RotateEntry(id, key) => ApplyRotate(s, id, key)
    case UnknownEntry => s
    case BrokenEntry => s
  }

  /** Replay stops at the first malformed entry and keeps what was applied. */
  function ApplyLog(s: State, log: seq<Entry>): State
    decreases |log|
  {
    if log == [] || Malformed(log[0]) then s else ApplyLog(ApplyEntry(s, log[0]), log[1..])
  }

  // --- the projection ----------------------------------------------------------------------

  function RoleSeen(net: Network, k: NetId, n: NodeId): Option<Role> {
    if k != 0 && n in net.roles then Some(net.roles[n]) else None
  }

  ghost function Project(s: State): View {
    View(map n | n in s.nodes :: s.nodes[n].key,
         s.networks.Keys,
         map n, k | k in s.networks && n in s.networks[k].members :: (n, k) := RoleSeen(s.networks[k], k, n),
         set n, k | n in s.nodes && k in s.nodes[n].networks :: (n, k),
         s.nextNode, s.nextNet)
  }

  /** Slices behave as sets. */
  ghost predicate Clean(s: State) {
    && (forall k :: k in s.networks ==> NoDup(s.networks[k].members))
    && (forall n :: n in s.nodes ==> NoDup(s.nodes[n].networks))
  }

  /** The projection of an entry. */
  function Projected(e: Entry): Option<Delta> {
    match e
    case RegisterEntry(id, key, _, _, _, _) => Some(DRegister(id, key))
    case DeregisterEntry(id) => Some(DDeregister(id))
    case CreateEntry(k, _, _, _, _, c) => Some(DCreate(k, c))
    case DeleteEntry(k) => Some(DDelete(k))
    case JoinEntry(id, k) => Some(DJoin(id, k))
    case LeaveEntry(id, k) => Some(DLeave(id, k))
    case RotateEntry(id, key) => Some(DRotate(id, key))
    case UnknownEntry => None
    case BrokenEntry => None
  }

  /** Ids below the maximum, so no counter wraps, and a real creator. */
  predicate InRange(e: Entry) {
    && (e.RegisterEntry? ==> e.id + 1 < NODE_LIMIT)
    && (e.CreateEntry? ==> e.net + 1 < NET_LIMIT && e.creator != 0)
  }

  ghost predicate NodeMatches(s: State, v: View, n: NodeId) {
    && (n in s.nodes <==> n in v.nodes)
    && (n in s.nodes && n in v.nodes ==> s.nodes[n].key == v.nodes[n])
  }

  ghost predicate EdgeMatches(s: State, v: View, n: NodeId, k: NetId) {
    && (Lists(s, k, n) <==> (n, k) in v.lists)
    && (Lists(s, k, n) && (n, k) in v.lists ==> RoleSeen(s.networks[k], k, n) == v.lists[(n, k)])
    && (Points(s, n, k) <==> (n, k) in v.points)
  }

  ghost predicate FrameMatches(s: State, v: View) {
    s.networks.Keys == v.nets && s.nextNode == v.nextNode && s.nextNet == v.nextNet
  }

  /** `v` is what `s` looks like; pointwise, so that proofs need not compute the projection. */
  ghost predicate Matches(s: State, v: View) {
    && FrameMatches(s, v)
    && (forall n: NodeId :: NodeMatches(s, v, n))
    && (forall n: NodeId, k: NetId :: EdgeMatches(s, v, n, k))
  }

  lemma ProjectMatches(s: State)
    ensures Matches(s, Project(s))
  {
    forall n: NodeId ensures NodeMatches(s, Project(s), n) { ProjectNode(s, n); }
    forall n: NodeId, k: NetId ensures EdgeMatches(s, Project(s), n, k) { ProjectEdge(s, n, k); }
  }

  lemma ProjectNode(s: State, n: NodeId)
    ensures NodeMatches(s, Project(s), n)
  {
  }

  lemma ProjectEdge(s: State, n: NodeId, k: NetId)
    ensures EdgeMatches(s, Project(s), n, k)
  {
  }

  lemma MatchesUnique(s: State, p: View, v: View)
    requires Matches(s, p) && Matches(s, v)
    ensures p == v
  {
    forall n: NodeId ensures n in p.nodes <==> n in v.nodes
                     ensures n in p.nodes && n in v.nodes ==> p.nodes[n] == v.nodes[n] {
      assert NodeMatches(s, p, n) && NodeMatches(s, v, n);
    }
    assert p.nodes == v.nodes;
    forall e: Edge ensures e in p.lists <==> e in v.lists
                   ensures e in p.lists && e in v.lists ==> p.lists[e] == v.lists[e]
                   ensures e in p.points <==> e in v.points {
      assert EdgeMatches(s, p, e.0, e.1) && EdgeMatches(s, v, e.0, e.1);
    }
    assert p.lists == v.lists;
    assert p.points == v.points;
  }

  lemma MatchesIsProject(s: State, v: View)
    requires Matches(s, v)
    ensures Project(s) == v
  {
    ProjectMatches(s);
    MatchesUnique(s, Project(s), v);
  }

  /** Two states with the same networks, counters, keys and network lists look the same. */
  ghost predicate SameCore(a: State, b: State) {
    && a.networks == b.networks && a.nextNode == b.nextNode && a.nextNet == b.nextNet
    && a.nodes.Keys == b.nodes.Keys
    && (forall n :: n in a.nodes ==> a.nodes[n].key == b.nodes[n].key)
    && (forall n :: n in a.nodes ==> a.nodes[n].networks == b.nodes[n].networks)
  }

  lemma SameCoreProject(a: State, b: State)
    requires SameCore(a, b)
    ensures Project(a) == Project(b)
  {
    var v := Project(b);
    ProjectMatches(b);
    forall n: NodeId ensures NodeMatches(a, v, n) { assert NodeMatches(b, v, n); }
    forall n: NodeId, k: NetId ensures EdgeMatches(a, v, n, k) { assert EdgeMatches(b, v, n, k); }
    MatchesIsProject(a, v);
  }

  /** The states agree on an edge. */
  ghost predicate SameSpot(s: State, t: State, n: NodeId, k: NetId) {
    && Lists(t, k, n) == Lists(s, k, n) && Points(t, n, k) == Points(s, n, k)
    && (Lists(s, k, n) && Lists(t, k, n) ==> RoleSeen(t.networks[k], k, n) == RoleSeen(s.networks[k], k, n))
  }

  /** The views agree on an edge. */
  ghost predicate SameSight(v: View, w: View, n: NodeId, k: NetId) {
    && ((n, k) in w.lists <==> (n, k) in v.lists) && ((n, k) in w.points <==> (n, k) in v.points)
    && ((n, k) in w.lists && (n, k) in v.lists ==> w.lists[(n, k)] == v.lists[(n, k)])
  }

  lemma Carried(s: State, v: View, t: State, w: View, n: NodeId, k: NetId)
    requires EdgeMatches(s, v, n, k) && SameSpot(s, t, n, k) && SameSight(v, w, n, k)
    ensures EdgeMatches(t, w, n, k)
  {
  }

  // --- each apply function is the projected step ---------------------------------------------

  lemma RegisterNode(s: State, v: View, e: Entry, n: NodeId)
    requires e.RegisterEntry? && 0 in s.networks && NodeMatches(s, v, n) && NodeMatches(s, v, e.id)
    ensures NodeMatches(ApplyRegister(s, e), Step(v, DRegister(e.id, e.key)), n)
  {
  }

  lemma RegisterEdge(s: State, v: View, e: Entry, n: NodeId, k: NetId)
    requires e.RegisterEntry? && 0 in s.networks && 0 in v.nets
    requires NodeMatches(s, v, e.id) && EdgeMatches(s, v, n, k) && EdgeMatches(s, v, e.id, 0)
    ensures EdgeMatches(ApplyRegister(s, e), Step(v, DRegister(e.id, e.key)), n, k)
  {
  }

  lemma RegisterFrames(s: State, v: View, e: Entry)
    requires e.RegisterEntry? && 0 in s.networks && InRange(e) && FrameMatches(s, v) && NodeMatches(s, v, e.id)
    ensures FrameMatches(ApplyRegister(s, e), Step(v, DRegister(e.id, e.key)))
  {
  }

  lemma RegisterMatches(s: State, v: View, e: Entry)
    requires e.RegisterEntry? && InRange(e) && 0 in s.networks && Matches(s, v)
    ensures Matches(ApplyRegister(s, e), Step(v, DRegister(e.id, e.key)))
  {
    var t, w := ApplyRegister(s, e), Step(v, DRegister(e.id, e.key));
    assert NodeMatches(s, v, e.id) && EdgeMatches(s, v, e.id, 0);
    RegisterFrames(s, v, e);
    forall n: NodeId ensures NodeMatches(t, w, n) { RegisterNode(s, v, e, n); }
    forall n: NodeId, k: NetId ensures EdgeMatches(t, w, n, k) { RegisterEdge(s, v, e, n, k); }
  }

  lemma DeregisterAt(s: State, id: NodeId, k: NetId)
    requires id in s.nodes && NoDup(s.nodes[id].networks) && k in s.networks
    ensures var net := s.networks[k];
            ApplyDeregister(s, id).networks[k] ==
            if k in s.nodes[id].networks then net.(members := RemoveFirst(net.members, id), roles := net.roles - {id}) else net
  {
    var n := s.nodes[id];
    var s1 := s.(pubKeyIdx := s.pubKeyIdx - {n.key},
                 ownerIdx := if n.owner != "" then s.ownerIdx - {n.owner} else s.ownerIdx,
                 hostnameIdx := if n.hostname != "" then s.hostnameIdx - {n.hostname} else s.hostnameIdx,
                 nodes := s.nodes - {id});
    DropFromNetworksAt(s1, id, n.networks, k);
  }

  lemma DeregisterEdge(s: State, v: View, id: NodeId, n: NodeId, k: NetId)
    requires id in s.nodes && id in v.nodes && NoDup(s.nodes[id].networks)
    requires k in s.networks ==> NoDup(s.networks[k].members)
    requires EdgeMatches(s, v, n, k) && EdgeMatches(s, v, id, k)
    ensures EdgeMatches(ApplyDeregister(s, id), Step(v, DDeregister(id)), n, k)
  {
    if k in s.networks {
      DeregisterAt(s, id, k);
      RemoveFirstNoDup(s.networks[k].members, id);
    }
  }

  lemma DeregisterMatches(s: State, v: View, id: NodeId)
    requires Clean(s) && Matches(s, v)
    ensures Matches(ApplyDeregister(s, id), Step(v, DDeregister(id)))
  {
    var t, w := ApplyDeregister(s, id), Step(v, DDeregister(id));
    assert NodeMatches(s, v, id);
    if id in s.nodes {
      forall n: NodeId ensures NodeMatches(t, w, n) { assert NodeMatches(s, v, n); }
      forall n: NodeId, k: NetId ensures EdgeMatches(t, w, n, k) {
        assert EdgeMatches(s, v, n, k) && EdgeMatches(s, v, id, k);
        DeregisterEdge(s, v, id, n, k);
      }
    }
  }

  lemma PointOnceNode(s: State, id: NodeId, k: NetId, n: NodeId)
    ensures var t := PointOnce(s, id, k);
            (n in t.nodes <==> n in s.nodes) && (n in s.nodes ==> t.nodes[n].key == s.nodes[n].key)
  {
  }

  lemma CreateKeys(s: State, e: Entry, n: NodeId)
    requires e.CreateEntry?
    ensures var t := ApplyCreate(s, e);
            (n in t.nodes <==> n in s.nodes) && (n in s.nodes ==> t.nodes[n].key == s.nodes[n].key)
  {
    PointOnceNode(s, e.creator, e.net, n);
  }

  lemma CreateNode(s: State, v: View, e: Entry, n: NodeId)
    requires e.CreateEntry? && FrameMatches(s, v) && NodeMatches(s, v, n)
    ensures NodeMatches(ApplyCreate(s, e), Step(v, DCreate(e.net, e.creator)), n)
  {
    CreateKeys(s, e, n);
    var w := Step(v, DCreate(e.net, e.creator));
    assert w.nodes == v.nodes;
  }

  lemma PointOnceElsewhere(s: State, id: NodeId, j: NetId, n: NodeId, k: NetId)
    requires k != j
    ensures SameSpot(s, PointOnce(s, id, j), n, k)
  {
  }

  lemma CreateElsewhere(s: State, e: Entry, n: NodeId, k: NetId)
    requires e.CreateEntry? && k != e.net
    ensures SameSpot(s, ApplyCreate(s, e), n, k)
  {
    if e.net !in s.networks {
      var s1 := if e.creator != 0 then PointOnce(s, e.creator, e.net) else s;
      if e.creator != 0 { PointOnceElsewhere(s, e.creator, e.net, n, k); }
      NetworkElsewhere(s1, e.net, CreatedNetwork(e), ApplyCreate(s, e).nextNet, n, k);
    }
  }

  lemma NetworkElsewhere(s: State, j: NetId, net: Network, next: nat, n: NodeId, k: NetId)
    requires k != j
    ensures SameSpot(s, WithNetwork(s, j, net).(nextNet := next), n, k)
  {
  }

  lemma CreateSightElsewhere(v: View, j: NetId, c: NodeId, n: NodeId, k: NetId)
    requires k != j
    ensures SameSight(v, Step(v, DCreate(j, c)), n, k)
  {
  }

  lemma CreateSpot(s: State, e: Entry, n: NodeId)
    requires e.CreateEntry? && e.creator != 0 && e.net != 0 && e.net !in s.networks
    ensures var t := ApplyCreate(s, e);
            && (Lists(t, e.net, n) <==> n == e.creator)
            && (n == e.creator ==> RoleSeen(t.networks[e.net], e.net, n) == Some(Owner))
            && (Points(t, n, e.net) <==> (n == e.creator && n in s.nodes) || Points(s, n, e.net))
  {
    var t := ApplyCreate(s, e);
    assert t.networks[e.net].members == [e.creator] && t.networks[e.net].roles == map[e.creator := Owner];
  }

  lemma CreateSight(v: View, k: NetId, c: NodeId, n: NodeId)
    requires k !in v.nets && (n, k) !in v.lists
    ensures var w := Step(v, DCreate(k, c));
            && ((n, k) in w.lists <==> n == c) && (n == c ==> w.lists[(n, k)] == Some(Owner))
            && ((n, k) in w.points <==> (n == c && n in v.nodes) || (n, k) in v.points)
  {
  }

  lemma CreateEdge(s: State, v: View, e: Entry, n: NodeId)
    requires e.CreateEntry? && InRange(e) && e.net != 0 && FrameMatches(s, v) && NodeMatches(s, v, e.creator)
    requires e.net !in s.networks && EdgeMatches(s, v, n, e.net)
    ensures EdgeMatches(ApplyCreate(s, e), Step(v, DCreate(e.net, e.creator)), n, e.net)
  {
    CreateSpot(s, e, n);
    CreateSight(v, e.net, e.creator, n);
    assert !Lists(s, e.net, n);
  }

  lemma CreateFrames(s: State, v: View, e: Entry)
    requires e.CreateEntry? && InRange(e) && FrameMatches(s, v)
    ensures FrameMatches(ApplyCreate(s, e), Step(v, DCreate(e.net, e.creator)))
  {
  }

  lemma CreateMatches(s: State, v: View, e: Entry)
    requires e.CreateEntry? && InRange(e) && e.net != 0 && Matches(s, v)
    ensures Matches(ApplyCreate(s, e), Step(v, DCreate(e.net, e.creator)))
  {
    var t, w := ApplyCreate(s, e), Step(v, DCreate(e.net, e.creator));
    assert NodeMatches(s, v, e.creator) && EdgeMatches(s, v, e.creator, e.net);
    if e.net in s.networks { return; }
    CreateFrames(s, v, e);
    forall n: NodeId ensures NodeMatches(t, w, n) { CreateNode(s, v, e, n); }
    forall n: NodeId, k: NetId ensures EdgeMatches(t, w, n, k) {
      assert EdgeMatches(s, v, n, k);
      if k == e.net {
        CreateEdge(s, v, e, n);
      } else {
        CreateElsewhere(s, e, n, k);
        CreateSightElsewhere(v, e.net, e.creator, n, k);
        Carried(s, v, t, w, n, k);
      }
    }
  }

  lemma DeleteAt(s: State, k: NetId, n: NodeId)
    requires n in s.nodes && NoDup(s.nodes[n].networks) && k in s.networks
    ensures n !in s.networks[k].members ==> ApplyDelete(s, k).nodes[n] == s.nodes[n]
    ensures n in s.networks[k].members ==>
            ApplyDelete(s, k).nodes[n] == s.nodes[n].(networks := RemoveFirst(s.nodes[n].networks, k))
    ensures k !in RemoveFirst(s.nodes[n].networks, k)
  {
    DropNodeNetworksAt(s, s.networks[k].members, k, n);
    RemoveFirstNoDup(s.nodes[n].networks, k);
  }

  lemma DeletePoint(s: State, v: View, j: NetId, n: NodeId, k: NetId)
    requires j in s.networks && j in v.nets && (n in s.nodes ==> NoDup(s.nodes[n].networks))
    requires NodeMatches(s, v, n) && EdgeMatches(s, v, n, k) && EdgeMatches(s, v, n, j)
    ensures NodeMatches(ApplyDelete(s, j), Step(v, DDelete(j)), n)
    ensures EdgeMatches(ApplyDelete(s, j), Step(v, DDelete(j)), n, k)
  {
    if n in s.nodes { DeleteAt(s, j, n); }
  }

  lemma DeleteMatches(s: State, v: View, j: NetId)
    requires Clean(s) && Matches(s, v)
    ensures Matches(ApplyDelete(s, j), Step(v, DDelete(j)))
  {
    var t, w := ApplyDelete(s, j), Step(v, DDelete(j));
    if j in s.networks {
      forall n: NodeId ensures NodeMatches(t, w, n) {
        assert NodeMatches(s, v, n) && EdgeMatches(s, v, n, 0) && EdgeMatches(s, v, n, j);
        DeletePoint(s, v, j, n, 0);
      }
      forall n: NodeId, k: NetId ensures EdgeMatches(t, w, n, k) {
        assert NodeMatches(s, v, n) && EdgeMatches(s, v, n, k) && EdgeMatches(s, v, n, j);
        DeletePoint(s, v, j, n, k);
      }
    }
  }

  lemma JoinNode(s: State, v: View, id: NodeId, j: NetId, n: NodeId)
    requires j in s.networks && id in s.nodes && j in v.nets && id in v.nodes && NodeMatches(s, v, n)
    ensures NodeMatches(ApplyJoin(s, id, j), Step(v, DJoin(id, j)), n)
  {
  }

  lemma JoinSpot(s: State, id: NodeId, j: NetId)
    requires j in s.networks && id in s.nodes && j != 0
    ensures var t := ApplyJoin(s, id, j);
            && Lists(t, j, id) && Points(t, id, j)
            && RoleSeen(t.networks[j], j, id) ==
               if id in s.networks[j].members then RoleSeen(s.networks[j], j, id) else Some(Member)
  {
    var net := s.networks[j];
    if id !in net.members { assert id in net.members + [id]; }
    if j !in s.nodes[id].networks { assert j in s.nodes[id].networks + [j]; }
  }

  lemma JoinSight(v: View, id: NodeId, j: NetId)
    requires j in v.nets && id in v.nodes
    ensures var w := Step(v, DJoin(id, j));
            && (id, j) in w.lists && (id, j) in w.points
            && w.lists[(id, j)] == if (id, j) in v.lists then v.lists[(id, j)] else Some(Member)
  {
  }

  lemma JoinEdge(s: State, v: View, id: NodeId, j: NetId)
    requires j in s.networks && id in s.nodes && j in v.nets && id in v.nodes && j != 0 && EdgeMatches(s, v, id, j)
    ensures EdgeMatches(ApplyJoin(s, id, j), Step(v, DJoin(id, j)), id, j)
  {
    JoinSpot(s, id, j);
    JoinSight(v, id, j);
    assert Lists(s, j, id) <==> (id, j) in v.lists;
  }

  lemma JoinElsewhere(s: State, v: View, id: NodeId, j: NetId, n: NodeId, k: NetId)
    requires j in s.networks && id in s.nodes && !(n == id && k == j)
    ensures SameSpot(s, ApplyJoin(s, id, j), n, k) && SameSight(v, Step(v, DJoin(id, j)), n, k)
  {
  }

  lemma JoinMatches(s: State, v: View, id: NodeId, j: NetId)
    requires j != 0 && Matches(s, v)
    ensures Matches(ApplyJoin(s, id, j), Step(v, DJoin(id, j)))
  {
    var t, w := ApplyJoin(s, id, j), Step(v, DJoin(id, j));
    assert NodeMatches(s, v, id) && EdgeMatches(s, v, id, j);
    if j in s.networks && id in s.nodes {
      forall n: NodeId ensures NodeMatches(t, w, n) { JoinNode(s, v, id, j, n); }
      forall n: NodeId, k: NetId ensures EdgeMatches(t, w, n, k) {
        if n == id && k == j {
          JoinEdge(s, v, id, j);
        } else {
          JoinElsewhere(s, v, id, j, n, k);
          Carried(s, v, t, w, n, k);
        }
      }
    }
  }

  lemma LeavePoint(s: State, v: View, id: NodeId, j: NetId, n: NodeId, k: NetId)
    requires j in s.networks && id in s.nodes && j in v.nets && id in v.nodes
    requires NoDup(s.networks[j].members) && NoDup(s.nodes[id].networks)
    requires NodeMatches(s, v, n) && EdgeMatches(s, v, n, k)
    ensures NodeMatches(ApplyLeave(s, id, j), Step(v, DLeave(id, j)), n)
    ensures EdgeMatches(ApplyLeave(s, id, j), Step(v, DLeave(id, j)), n, k)
  {
    RemoveFirstNoDup(s.networks[j].members, id);
    RemoveFirstNoDup(s.nodes[id].networks, j);
  }

  lemma LeaveMatches(s: State, v: View, id: NodeId, j: NetId)
    requires Clean(s) && Matches(s, v)
    ensures Matches(ApplyLeave(s, id, j), Step(v, DLeave(id, j)))
  {
    var t, w := ApplyLeave(s, id, j), Step(v, DLeave(id, j));
    assert NodeMatches(s, v, id);
    if j in s.networks && id in s.nodes {
      forall n: NodeId ensures NodeMatches(t, w, n) {
        assert NodeMatches(s, v, n) && EdgeMatches(s, v, n, 0);
        LeavePoint(s, v, id, j, n, 0);
      }
      forall n: NodeId, k: NetId ensures EdgeMatches(t, w, n, k) {
        assert NodeMatches(s, v, n) && EdgeMatches(s, v, n, k);
        LeavePoint(s, v, id, j, n, k);
      }
    }
  }

  lemma RotatePoint(s: State, v: View, id: NodeId, key: string, n: NodeId, k: NetId)
    requires id in s.nodes && id in v.nodes && NodeMatches(s, v, n) && EdgeMatches(s, v, n, k)
    ensures NodeMatches(ApplyRotate(s, id, key), Step(v, DRotate(id, key)), n)
    ensures EdgeMatches(ApplyRotate(s, id, key), Step(v, DRotate(id, key)), n, k)
  {
  }

  lemma RotateMatches(s: State, v: View, id: NodeId, key: string)
    requires Matches(s, v)
    ensures Matches(ApplyRotate(s, id, key), Step(v, DRotate(id, key)))
  {
    var t, w := ApplyRotate(s, id, key), Step(v, DRotate(id, key));
    assert NodeMatches(s, v, id);
    if id in s.nodes {
      forall n: NodeId ensures NodeMatches(t, w, n) {
        assert NodeMatches(s, v, n) && EdgeMatches(s, v, n, 0);
        RotatePoint(s, v, id, key, n, 0);
      }
      forall n: NodeId, k: NetId ensures EdgeMatches(t, w, n, k) {
        assert NodeMatches(s, v, n) && EdgeMatches(s, v, n, k);
        RotatePoint(s, v, id, key, n, k);
      }
    }
  }

  // --- slices stay duplicate-free ------------------------------------------------------------

  lemma CleanNode(s: State, id: NodeId, n: Node)
    requires Clean(s) && NoDup(n.networks)
    ensures Clean(WithNode(s, id, n))
  {
  }

  lemma CleanNetwork(s: State, k: NetId, net: Network)
    requires Clean(s) && NoDup(net.members)
    ensures Clean(WithNetwork(s, k, net))
  {
  }

  lemma CleanBackbone(s: State, id: NodeId)
    requires Clean(s) && 0 in s.networks
    ensures Clean(AddToBackbone(s, id))
  {
    var net := s.networks[0];
    if id !in net.members {
      AppendNoDup(net.members, id);
      CleanNetwork(s, 0, net.(members := net.members + [id]));
    }
  }

  lemma RegisterClean(s: State, e: Entry)
    requires Clean(s) && e.RegisterEntry? && 0 in s.networks
    ensures Clean(ApplyRegister(s, e))
  {
    if e.id !in s.nodes {
      CleanNode(s, e.id, ReplayedNode(e));
      CleanBackbone(Entered(s, e), e.id);
    }
  }

  lemma DeregisterClean(s: State, id: NodeId)
    requires Clean(s)
    ensures Clean(ApplyDeregister(s, id))
  {
    var t := ApplyDeregister(s, id);
    if id in s.nodes {
      forall k | k in t.networks ensures NoDup(t.networks[k].members) {
        DeregisterAt(s, id, k);
        RemoveFirstNoDup(s.networks[k].members, id);
      }
    }
  }

  lemma CleanPointOnce(s: State, id: NodeId, k: NetId)
    requires Clean(s)
    ensures Clean(PointOnce(s, id, k))
  {
    if id in s.nodes && k !in s.nodes[id].networks {
      AppendNoDup(s.nodes[id].networks, k);
      CleanNode(s, id, s.nodes[id].(networks := s.nodes[id].networks + [k]));
    }
  }

  lemma CreateClean(s: State, e: Entry)
    requires Clean(s) && e.CreateEntry?
    ensures Clean(ApplyCreate(s, e))
  {
    CleanPointOnce(s, e.creator, e.net);
    var s1 := if e.creator != 0 then PointOnce(s, e.creator, e.net) else s;
    CleanNetwork(s1, e.net, CreatedNetwork(e));
  }

  lemma DeleteClean(s: State, j: NetId)
    requires Clean(s)
    ensures Clean(ApplyDelete(s, j))
  {
    var t := ApplyDelete(s, j);
    if j in s.networks {
      forall n | n in t.nodes ensures NoDup(t.nodes[n].networks) {
        DeleteAt(s, j, n);
        RemoveFirstNoDup(s.nodes[n].networks, j);
      }
    }
  }

  lemma JoinClean(s: State, id: NodeId, j: NetId)
    requires Clean(s)
    ensures Clean(ApplyJoin(s, id, j))
  {
    if j in s.networks && id in s.nodes {
      var net := s.networks[j];
      var s1 := if id in net.members then s
                else WithNetwork(s, j, net.(members := net.members + [id], roles := net.roles[id := Member]));
      if id !in net.members {
        AppendNoDup(net.members, id);
        CleanNetwork(s, j, s1.networks[j]);
      }
      CleanPointOnce(s1, id, j);
    }
  }

  lemma LeaveClean(s: State, id: NodeId, j: NetId)
    requires Clean(s)
    ensures Clean(ApplyLeave(s, id, j))
  {
    if j in s.networks && id in s.nodes {
      RemoveFirstNoDup(s.networks[j].members, id);
      CleanNetwork(s, j, DropMember(s, j, id).networks[j]);
      RemoveFirstNoDup(s.nodes[id].networks, j);
      CleanNode(DropMember(s, j, id), id, ApplyLeave(s, id, j).nodes[id]);
    }
  }

  // --- whole logs ----------------------------------------------------------------------------

  /** Entries as the recording handlers write them. */
  predicate WellMade(e: Entry) {
    && !Malformed(e) && InRange(e) && !e.UnknownEntry?
    && ((e.CreateEntry? || e.DeleteEntry? || e.JoinEntry? || e.LeaveEntry?) ==> e.net != 0)
  }

  lemma EntryCommutes(s: State, e: Entry)
    requires Clean(s) && 0 in s.networks && WellMade(e)
    ensures Project(ApplyEntry(s, e)) == Step(Project(s), Projected(e).value)
    ensures Clean(ApplyEntry(s, e)) && 0 in ApplyEntry(s, e).networks
  {
    EntryMatches(s, Project(s), e) by { ProjectMatches(s); }
    MatchesIsProject(ApplyEntry(s, e), Step(Project(s), Projected(e).value));
  }

  lemma EntryMatches(s: State, v: View, e: Entry)
    requires Clean(s) && 0 in s.networks && WellMade(e) && Matches(s, v)
    ensures Matches(ApplyEntry(s, e), Step(v, Projected(e).value))
    ensures Clean(ApplyEntry(s, e)) && 0 in ApplyEntry(s, e).networks
  {
    match e
    case RegisterEntry(_, _, _, _, _, _) => RegisterMatches(s, v, e); RegisterClean(s, e);
    case DeregisterEntry(id) => DeregisterMatches(s, v, id); DeregisterClean(s, id);
    case CreateEntry(_, _, _, _, _, _) => CreateMatches(s, v, e); CreateClean(s, e);
    case DeleteEntry(k) => DeleteMatches(s, v, k); DeleteClean(s, k);
    case JoinEntry(id, k) => JoinMatches(s, v, id, k); JoinClean(s, id, k);
    case LeaveEntry(id, k) => LeaveMatches(s, v, id, k); LeaveClean(s, id, k);
    case RotateEntry(id, key) => RotateMatches(s, v, id, key);
  }

  function ProjectLog(log: seq<Entry>): (r: seq<Delta>)
    requires forall i :: 0 <= i < |log| ==> WellMade(log[i])
    ensures |r| == |log|
    decreases |log|
  {
    if log == [] then [] else assert WellMade(log[0]); [Projected(log[0]).value] + ProjectLog(log[1..])
  }

  /** Replaying entries against the full state is replaying their projections against
      the projected state. */
  lemma {:induction false} LogCommutes(s: State, log: seq<Entry>)
    requires Clean(s) && 0 in s.networks
    requires forall i :: 0 <= i < |log| ==> WellMade(log[i])
    ensures Project(ApplyLog(s, log)) == Replay(Project(s), ProjectLog(log))
    ensures Clean(ApplyLog(s, log)) && 0 in ApplyLog(s, log).networks
    decreases |log|
  {
    if log != [] {
      EntryCommutes(s, log[0]);
      LogCommutes(ApplyEntry(s, log[0]), log[1..]);
    }
  }
}
