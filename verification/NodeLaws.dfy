/** What every step does to every node, told from the request and the state before: who is live,
    and the hostname, key, owner, last-seen time and endpoint of each node. */
module NodeLaws {
  import opened Options
  import opened Registry
  import opened RegistryInvariants
  import opened RegistryRuns
  import opened RegisterLaws

  /** The registration is answered with node `n`. */
  predicate Answers(s: State, op: Op, n: NodeId) {
    op.RegisterStep? && !Refuses(s, op.r) && Subject(s, op.r) == n
  }

  /** The node leaves: it deregisters, or the reaper finds it still stale. */
  predicate Departs(s: State, op: Op, n: NodeId) {
    op.NodeStep? && n in s.nodes &&
    match op.nodeOp
    case OpDeregister(id, authorized) => id == n && authorized
    case OpReap(id, threshold) => id == n && s.nodes[n].lastSeen < threshold
    case _ => false
  }

  /** The rotation replaces the key of `n`: the expected key, if one is named, is still there. */
  predicate Rotates(s: State, op: Op, n: NodeId) {
    && op.NodeStep? && op.nodeOp.OpRotateKey? && op.nodeOp.id == n && n in s.nodes
    && (op.nodeOp.expected.None? || op.nodeOp.expected.value == s.nodes[n].key)
  }

  /** An authorised change to a name that nobody else holds; the empty name is free. */
  predicate Renames(s: State, op: Op, n: NodeId) {
    && op.NodeStep? && op.nodeOp.OpSetHostname? && op.nodeOp.id == n && n in s.nodes && op.nodeOp.authorized
    && (op.nodeOp.hostname == "" || op.nodeOp.hostname !in s.hostnameIdx || s.hostnameIdx[op.nodeOp.hostname] == n)
  }

  predicate Beats(s: State, op: Op, n: NodeId) {
    op.NodeStep? && op.nodeOp.OpHeartbeat? && op.nodeOp.id == n && n in s.nodes && op.nodeOp.authorized
  }

  /** When the node was last heard from, after the step. */
  function HeardAt(s: State, op: Op, n: NodeId): int
    requires n in s.nodes
  {
    if Answers(s, op, n) then op.r.now
    else if Beats(s, op, n) then op.nodeOp.now
    else if Rotates(s, op, n) then op.nodeOp.now
    else s.nodes[n].lastSeen
  }

  function NameAfter(s: State, op: Op, n: NodeId): string
    requires n in s.nodes
  {
    if Answers(s, op, n) then NameLeft(s, op.r, n)
    else if Renames(s, op, n) then op.nodeOp.hostname
    else s.nodes[n].hostname
  }

  function KeyAfter(s: State, op: Op, n: NodeId): string
    requires n in s.nodes
  {
    if Rotates(s, op, n) then op.nodeOp.key else s.nodes[n].key
  }

  function OwnerAfter(s: State, op: Op, n: NodeId): string
    requires n in s.nodes
  {
    if Answers(s, op, n) && s.nodes[n].owner == "" then op.r.owner else s.nodes[n].owner
  }

  function EndpointAfter(s: State, op: Op, n: NodeId): Endpoint
    requires n in s.nodes
  {
    if !Answers(s, op, n) then s.nodes[n].endpoint
    else if op.r.endpoint.version != "" then op.r.endpoint
    else Endpoint(op.r.endpoint.addr, op.r.endpoint.lan, s.nodes[n].endpoint.version, op.r.endpoint.relayOnly)
  }

  /** Every field of a node that stays, its network list aside. */
  ghost predicate StaysAs(s: State, op: Op, t: State, n: NodeId)
    requires n in s.nodes && n in t.nodes
  {
    var m := t.nodes[n];
    && m.lastSeen == HeardAt(s, op, n) && m.hostname == NameAfter(s, op, n) && m.key == KeyAfter(s, op, n)
    && m.owner == OwnerAfter(s, op, n) && m.endpoint == EndpointAfter(s, op, n)
    && (m.sigVerified <==> s.nodes[n].sigVerified || (Answers(s, op, n) && op.r.sigVerified))
  }

  /** Only network lists differ. */
  ghost predicate SameNodes(s: State, t: State) {
    && t.nodes.Keys == s.nodes.Keys
    && forall n :: n in s.nodes ==> t.nodes[n] == s.nodes[n].(networks := t.nodes[n].networks)
  }

  // --- the groups of steps -----------------------------------------------------------------------------

  lemma {:induction false} DropsSameNodes(s: State, members: seq<NodeId>, k: NetId)
    ensures SameNodes(s, DropNodeNetworks(s, members, k))
    decreases |members|
  {
    if members != [] { DropsSameNodes(DropNodeNetwork(s, members[0], k), members[1..], k); }
  }

  lemma NetworkStepNodes(s: State, op: NetworkOp)
    ensures SameNodes(s, ApplyNetwork(s, op))
  {
    match op
    case OpDelete(k, _) => if k in s.networks { DropsSameNodes(s, s.networks[k].members, k); }
    case OpCreate(id, name, rule, token, ent, a) => CreateNodes(s, id, name, rule, token, ent, a);
    case OpJoin(id, k, token, a) => if id in s.nodes && k in s.networks { LinkNodes(s, id, k); }
    case OpRespond(id, k, acc, now, a) => RespondNodes(s, id, k, acc, now, a);
    case OpLeave(id, k, a) => LeaveNodes(s, id, k, a);
    case OpSetEnterprise(_, _, _) => assert ApplyNetwork(s, op).nodes == s.nodes;
    case OpInvite(_, _, _, _, _, _) => assert ApplyNetwork(s, op).nodes == s.nodes;
    case OpPoll(_, _, _) => assert ApplyNetwork(s, op).nodes == s.nodes;
  }

  lemma RespondNodes(s: State, id: NodeId, k: NetId, accept: bool, now: int, authorized: bool)
    ensures SameNodes(s, RespondInvite(s, id, k, accept, now, authorized))
  {
    if id in s.nodes && k in s.networks { LinkNodes(s, id, k); }
  }

  lemma LeaveNodes(s: State, id: NodeId, k: NetId, authorized: bool)
    ensures SameNodes(s, Leave(s, id, k, authorized))
  {
    DropNodes(s, id, k);
  }

  lemma LinkNodes(s: State, id: NodeId, k: NetId)
    requires id in s.nodes && k in s.networks
    ensures SameNodes(s, Link(s, id, k))
  {
  }

  lemma DropNodes(s: State, id: NodeId, k: NetId)
    ensures SameNodes(s, DropNodeNetwork(s, id, k))
  {
  }

  lemma CreateNodes(s: State, id: NodeId, name: string, rule: string, token: string, ent: bool, a: bool)
    ensures SameNodes(s, CreateNetwork(s, id, name, rule, token, ent, a))
  {
  }

  lemma RoleStepNodes(s: State, op: RoleOp)
    ensures SameNodes(s, ApplyRole(s, op))
  {
    match op
    case OpKick(k, t, c, a) => KickNodes(s, k, t, c, a);
    case OpAdminKick(k, t) => AdminKickNodes(s, k, t);
    case _ => assert ApplyRole(s, op).nodes == s.nodes;
  }

  lemma KickNodes(s: State, k: NetId, target: NodeId, caller: NodeId, authorized: bool)
    ensures SameNodes(s, Kick(s, k, target, caller, authorized))
  {
    DropNodes(s, target, k);
  }

  lemma AdminKickNodes(s: State, k: NetId, target: NodeId)
    ensures SameNodes(s, AdminKick(s, k, target))
  {
  }

  lemma SameNodesStay(s: State, op: Op, t: State, n: NodeId)
    requires SameNodes(s, t) && n in s.nodes && !op.RegisterStep? && !op.NodeStep?
    ensures n in t.nodes && StaysAs(s, op, t, n)
  {
    assert t.nodes[n] == s.nodes[n].(networks := t.nodes[n].networks);
  }

  lemma NodeStepLives(s: State, op: NodeOp, n: NodeId)
    ensures n in ApplyNode(s, op).nodes <==> n in s.nodes && !Departs(s, NodeStep(op), n)
  {
  }

  lemma NodeStepStays(s: State, op: NodeOp, n: NodeId)
    requires n in s.nodes && n in ApplyNode(s, op).nodes
    ensures StaysAs(s, NodeStep(op), ApplyNode(s, op), n)
  {
    match op
    case OpSetHostname(id, h, a) => HostnameStays(s, id, h, a, n);
    case OpHeartbeat(id, now, a) => HeartbeatStays(s, id, now, a, n);
    case OpDeregister(id, a) => DepartureStays(s, op, n);
    case OpReap(id, t) => DepartureStays(s, op, n);
    case OpRotateKey(id, e, key, now) => RotationStays(s, id, e, key, now, n);
  }

  lemma HeartbeatStays(s: State, id: NodeId, now: int, authorized: bool, n: NodeId)
    requires n in s.nodes
    ensures var t := Heartbeat(s, id, now, authorized);
            n in t.nodes && StaysAs(s, NodeStep(OpHeartbeat(id, now, authorized)), t, n)
  {
    var op, t := NodeStep(OpHeartbeat(id, now, authorized)), Heartbeat(s, id, now, authorized);
    assert Beats(s, op, n) <==> n == id && authorized;
    if Beats(s, op, n) {
      assert t.nodes[n] == s.nodes[n].(lastSeen := now);
    } else {
      assert t.nodes[n] == s.nodes[n];
    }
  }

  lemma HostnameStays(s: State, id: NodeId, hostname: string, authorized: bool, n: NodeId)
    requires n in s.nodes
    ensures var t := SetHostname(s, id, hostname, authorized);
            n in t.nodes && StaysAs(s, NodeStep(OpSetHostname(id, hostname, authorized)), t, n)
  {
    var op, t := NodeStep(OpSetHostname(id, hostname, authorized)), SetHostname(s, id, hostname, authorized);
    if Renames(s, op, n) {
      assert t.nodes[n] == s.nodes[n].(hostname := hostname);
    } else {
      assert t.nodes[n] == s.nodes[n];
    }
  }

  lemma RotationStays(s: State, id: NodeId, expected: Option<string>, key: string, now: int, n: NodeId)
    requires n in s.nodes
    ensures var t := RotateKey(s, id, expected, key, now);
            n in t.nodes && StaysAs(s, NodeStep(OpRotateKey(id, expected, key, now)), t, n)
  {
    var op, t := NodeStep(OpRotateKey(id, expected, key, now)), RotateKey(s, id, expected, key, now);
    assert Rotates(s, op, n) <==> n == id && (expected.None? || expected.value == s.nodes[n].key);
    if Rotates(s, op, n) {
      assert t.nodes[n] == s.nodes[n].(key := key, lastSeen := now);
    } else {
      assert t.nodes[n] == s.nodes[n];
    }
  }

  lemma DepartureStays(s: State, op: NodeOp, n: NodeId)
    requires (op.OpDeregister? || op.OpReap?) && n in s.nodes && n in ApplyNode(s, op).nodes
    ensures StaysAs(s, NodeStep(op), ApplyNode(s, op), n)
  {
    assert ApplyNode(s, op).nodes[n] == s.nodes[n];
  }

  lemma RegisterStays(s: State, r: Registration, n: NodeId)
    requires Inv(s)
    ensures n in Register(s, r).nodes <==> n in s.nodes || Answers(s, RegisterStep(r), n)
    ensures n in s.nodes ==> StaysAs(s, RegisterStep(r), Register(s, r), n)
  {
    AnswerExactly(s, r);
    if !Refuses(s, r) { AnsweredIsStored(s, r); }
  }

  // --- the law -----------------------------------------------------------------------------------------

  /** Who is live after a step, and what every node that stays has become. */
  lemma NodesExactly(s: State, op: Op, n: NodeId)
    requires Inv(s)
    ensures n in Apply(s, op).nodes <==> (n in s.nodes && !Departs(s, op, n)) || Answers(s, op, n)
    ensures n in s.nodes && n in Apply(s, op).nodes ==> StaysAs(s, op, Apply(s, op), n)
  {
    match op
    case RegisterStep(r) => RegisterStays(s, r, n);
    case IndexStep(_, _, _) =>
    case NodeStep(d) =>
      NodeStepLives(s, d, n);
      if n in s.nodes && n in ApplyNode(s, d).nodes { NodeStepStays(s, d, n); }
    case NetworkStep(d) =>
      NetworkStepNodes(s, d);
      if n in s.nodes { SameNodesStay(s, op, ApplyNetwork(s, d), n); }
    case RoleStep(d) =>
      RoleStepNodes(s, d);
      if n in s.nodes { SameNodesStay(s, op, ApplyRole(s, d), n); }
  }

  /** An answered registration indexes its key, a rotation moves the old key's entry to the new
      key, and nothing else touches the index. */
  function KeysAfter(s: State, op: Op): map<string, NodeId> {
    match op
    case RegisterStep(r) => if Refuses(s, r) then s.pubKeyIdx else s.pubKeyIdx[r.key := Subject(s, r)]
    case IndexStep(id, prev, key) => (s.pubKeyIdx - {prev})[key := id]
    case _ => s.pubKeyIdx
  }

  lemma RegisterStepKeys(s: State, r: Registration)
    requires Inv(s)
    ensures Register(s, r).pubKeyIdx == KeysAfter(s, RegisterStep(r))
  {
    AnswerExactly(s, r);
    if !Refuses(s, r) { AnsweredIsStored(s, r); }
  }

  /** The node a key leads to after a step. */
  lemma KeyIndexExactly(s: State, op: Op)
    requires Inv(s)
    ensures Apply(s, op).pubKeyIdx == KeysAfter(s, op)
  {
    match op
    case RegisterStep(r) => RegisterStepKeys(s, r);
    case IndexStep(_, _, _) =>
    case NodeStep(d) => NodeStepKeys(s, d);
    case NetworkStep(d) => NetworkStepKeys(s, d);
    case RoleStep(d) => RoleStepKeys(s, d);
  }

  lemma NodeStepKeys(s: State, op: NodeOp)
    ensures ApplyNode(s, op).pubKeyIdx == s.pubKeyIdx
  {
  }

  lemma NetworkStepKeys(s: State, op: NetworkOp)
    ensures ApplyNetwork(s, op).pubKeyIdx == s.pubKeyIdx
  {
  }

  lemma RoleStepKeys(s: State, op: RoleOp)
    ensures ApplyRole(s, op).pubKeyIdx == s.pubKeyIdx
  {
  }

  /** An answered registration indexes its owner for a node that has none yet; nothing else
      touches that index, so an owner stays known when its node leaves. */
  function OwnersAfter(s: State, op: Op): map<string, NodeId> {
    if op.RegisterStep? && !Refuses(s, op.r) && op.r.owner != ""
       && (Subject(s, op.r) !in s.nodes || s.nodes[Subject(s, op.r)].owner == "")
    then s.ownerIdx[op.r.owner := Subject(s, op.r)] else s.ownerIdx
  }

  lemma OwnerIndexExactly(s: State, op: Op)
    requires Inv(s)
    ensures Apply(s, op).ownerIdx == OwnersAfter(s, op)
  {
    match op
    case RegisterStep(r) => RegisterStepOwners(s, r);
    case IndexStep(_, _, _) =>
    case NodeStep(d) => NodeStepOwners(s, d);
    case NetworkStep(d) => NetworkStepOwners(s, d);
    case RoleStep(d) => RoleStepOwners(s, d);
  }

  lemma RegisterStepOwners(s: State, r: Registration)
    requires Inv(s)
    ensures Register(s, r).ownerIdx == OwnersAfter(s, RegisterStep(r))
  {
    AnswerExactly(s, r);
    if !Refuses(s, r) { AnsweredIsStored(s, r); }
  }

  lemma NodeStepOwners(s: State, op: NodeOp)
    ensures ApplyNode(s, op).ownerIdx == s.ownerIdx
  {
  }

  lemma NetworkStepOwners(s: State, op: NetworkOp)
    ensures ApplyNetwork(s, op).ownerIdx == s.ownerIdx
  {
  }

  lemma RoleStepOwners(s: State, op: RoleOp)
    ensures ApplyRole(s, op).ownerIdx == s.ownerIdx
  {
  }

  // --- the node counter ------------------------------------------------------------------------------------

  /** The counter moves, modulo 2^32, exactly when an unknown key is answered with a new id. */
  predicate TakesId(s: State, op: Op) {
    op.RegisterStep? && !Refuses(s, op.r) && op.r.key !in s.pubKeyIdx && !(op.r.owner != "" && op.r.owner in s.ownerIdx)
  }

  lemma NodeCounterExactly(s: State, op: Op)
    requires 0 in s.networks
    ensures Apply(s, op).nextNode == if TakesId(s, op) then (s.nextNode + 1) % 0x1_0000_0000 else s.nextNode
    ensures Apply(s, op).maxNodes == s.maxNodes
  {
    match op
    case RegisterStep(r) => RegisterCounter(s, r);
    case IndexStep(_, _, _) =>
    case NodeStep(d) => NodeStepCounter(s, d);
    case NetworkStep(d) => NetworkStepCounter(s, d);
    case RoleStep(d) => RoleStepCounter(s, d);
  }

  lemma RevivedCounter(s: State, r: Registration, id: NodeId, networks: seq<NetId>)
    requires 0 in s.networks
    ensures var t := Revive(s, r, id, networks); t.nextNode == s.nextNode && t.maxNodes == s.maxNodes
  {
  }

  lemma RefreshedCounter(s: State, r: Registration)
    requires IsKnownLive(s, r.key)
    ensures FastPath(s, r).nextNode == s.nextNode && FastPath(s, r).maxNodes == s.maxNodes
    ensures SlowPath(s, r).nextNode == s.nextNode && SlowPath(s, r).maxNodes == s.maxNodes
  {
  }

  lemma RegisterCounter(s: State, r: Registration)
    requires 0 in s.networks
    ensures var t, takes := Register(s, r), TakesId(s, RegisterStep(r));
            t.maxNodes == s.maxNodes && t.nextNode == if takes then (s.nextNode + 1) % 0x1_0000_0000 else s.nextNode
  {
    match RegisterPath(s, r)
    case Rejected =>
    case Refreshed => RefreshedCounter(s, r);
    case KeyReclaimed =>
      var id := s.pubKeyIdx[r.key];
      RevivedCounter(if r.owner != "" then s.(ownerIdx := s.ownerIdx[r.owner := id]) else s, r, id, [0] + r.scan);
    case OwnerReclaimed =>
      var id := s.ownerIdx[r.owner];
      RevivedCounter(s.(pubKeyIdx := s.pubKeyIdx[r.key := id]), r, id, [0]);
    case Allocated => RevivedCounter(Reserve(s, r), r, s.nextNode, [0]);
  }

  lemma NodeStepCounter(s: State, op: NodeOp)
    ensures ApplyNode(s, op).nextNode == s.nextNode && ApplyNode(s, op).maxNodes == s.maxNodes
  {
  }

  lemma NetworkStepCounter(s: State, op: NetworkOp)
    ensures ApplyNetwork(s, op).nextNode == s.nextNode && ApplyNetwork(s, op).maxNodes == s.maxNodes
  {
  }

  lemma RoleStepCounter(s: State, op: RoleOp)
    ensures ApplyRole(s, op).nextNode == s.nextNode && ApplyRole(s, op).maxNodes == s.maxNodes
  {
  }

  // --- over runs: every live node is found by its key -----------------------------------------------------

  /** Every live node's key leads to that node. */
  ghost predicate KeysIndexed(s: State) {
    forall n :: n in s.nodes ==> s.nodes[n].key in s.pubKeyIdx && s.pubKeyIdx[s.nodes[n].key] == n
  }

  /** A step that is no part of a rotation keeps it. */
  lemma StepKeepsKeys(s: State, op: Op)
    requires Inv(s) && KeysIndexed(s) && !op.IndexStep? && !(op.NodeStep? && op.nodeOp.OpRotateKey?)
    ensures KeysIndexed(Apply(s, op))
  {
    var t := Apply(s, op);
    KeyIndexExactly(s, op);
    forall n | n in t.nodes ensures t.nodes[n].key in t.pubKeyIdx && t.pubKeyIdx[t.nodes[n].key] == n {
      NodesExactly(s, op, n);
      if Answers(s, op, n) {
        AnswerExactly(s, op.r);
        AnsweredIsStored(s, op.r);
      }
      if op.RegisterStep? && !Refuses(s, op.r) && n in s.nodes { AnsweredKey(s, op, n); }
    }
  }

  /** A node whose key another node registers is that node. */
  lemma AnsweredKey(s: State, op: Op, n: NodeId)
    requires Inv(s) && KeysIndexed(s) && n in s.nodes && op.RegisterStep? && !Refuses(s, op.r)
    ensures s.nodes[n].key == op.r.key ==> Subject(s, op.r) == n
  {
  }

  /** The two halves of a rotation keep it if and only if no other live node holds the new key. */
  lemma RotationKeepsExactly(s: State, id: NodeId, expected: Option<string>, key: string, now: int)
    requires KeysIndexed(s) && Rotates(s, NodeStep(OpRotateKey(id, expected, key, now)), id)
    ensures var t := IndexRotation(RotateKey(s, id, expected, key, now), id, s.nodes[id].key, key);
            KeysIndexed(t) <==> forall n :: n in s.nodes && n != id ==> s.nodes[n].key != key
  {
    var t := IndexRotation(RotateKey(s, id, expected, key, now), id, s.nodes[id].key, key);
    if n :| n in s.nodes && n != id && s.nodes[n].key == key {
      assert t.nodes[n].key == key && t.pubKeyIdx[key] == id;
    }
  }

  ghost predicate NoRotations(ops: seq<Op>) {
    forall op :: op in ops ==> !op.IndexStep? && !(op.NodeStep? && op.nodeOp.OpRotateKey?)
  }

  lemma {:induction false} RunKeepsKeys(s: State, ops: seq<Op>)
    requires Inv(s) && KeysIndexed(s) && Legal(s, ops) && NoRotations(ops)
    ensures KeysIndexed(Run(s, ops))
    decreases |ops|
  {
    if ops != [] {
      StepKeepsKeys(s, ops[0]);
      StepKeepsInv(s, ops[0]);
      RunKeepsKeys(Apply(s, ops[0]), ops[1..]);
    }
  }

  /** With it, a signed registration under a live node's key is answered that node's id. */
  lemma KeyFindsNode(s: State, r: Registration, n: NodeId)
    requires 0 in s.networks && KeysIndexed(s) && n in s.nodes && r.key == s.nodes[n].key
    requires r.keyOk && (r.sigVerified || !s.nodes[n].sigVerified)
    ensures RegisterPath(s, r) == Refreshed && RegisterId(s, r) == Some(n)
  {
  }
}
