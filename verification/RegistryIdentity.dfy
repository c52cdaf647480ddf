/** What a live node's identity keeps over runs: its owner and its verified signature. */
module RegistryIdentity {
  import opened Options
  import opened Registry
  import opened RegistryInvariants
  import opened RegistryRuns

  /** An owner once bound stays, and a verified signature stays verified. */
  ghost predicate Grows(a: Node, b: Node) {
    (a.sigVerified ==> b.sigVerified) && (a.owner != "" ==> b.owner == a.owner)
  }

  ghost predicate GrowsAt(s: State, t: State, id: NodeId) {
    id in s.nodes && id in t.nodes ==> Grows(s.nodes[id], t.nodes[id])
  }

  lemma HostnameGrows(s: State, n: NodeId, hostname: string, id: NodeId)
    requires n in s.nodes
    ensures GrowsAt(s, SetNodeHostname(s, n, hostname), id)
    ensures SetNodeHostname(s, n, hostname).nodes.Keys == s.nodes.Keys
  {
  }

  lemma RefreshGrows(s: State, r: Registration, id: NodeId)
    requires IsKnownLive(s, r.key)
    ensures GrowsAt(s, FastPath(s, r), id) && GrowsAt(s, SlowPath(s, r), id)
  {
    var n := s.pubKeyIdx[r.key];
    HostnameGrows(ClaimOwner(FastPath(s, r), n, r.owner), n, r.hostname, id);
  }

  lemma ReviveGrows(s: State, r: Registration, n: NodeId, networks: seq<NetId>, id: NodeId)
    requires 0 in s.networks && n !in s.nodes
    ensures GrowsAt(s, Revive(s, r, n, networks), id)
  {
    HostnameGrows(AddToBackbone(WithNode(s, n, FreshNode(r, networks)), n), n, r.hostname, id);
  }

  lemma RegisterGrows(s: State, r: Registration, id: NodeId)
    requires Inv(s)
    ensures GrowsAt(s, Register(s, r), id)
  {
    match RegisterPath(s, r)
    case Rejected =>
    case Refreshed => RefreshGrows(s, r, id);
    case KeyReclaimed =>
      var n := s.pubKeyIdx[r.key];
      ReviveGrows(if r.owner != "" then s.(ownerIdx := s.ownerIdx[r.owner := n]) else s, r, n, [0] + r.scan, id);
    case OwnerReclaimed =>
      var n := s.ownerIdx[r.owner];
      ReviveGrows(s.(pubKeyIdx := s.pubKeyIdx[r.key := n]), r, n, [0], id);
    case Allocated =>
      assert s.nextNode in s.nodes ==> Issued(s, s.nextNode);
      ReviveGrows(Reserve(s, r), r, s.nextNode, [0], id);
  }

  lemma DeleteGrows(s: State, k: NetId, authorized: bool, id: NodeId)
    requires Inv(s)
    ensures GrowsAt(s, DeleteNetwork(s, k, authorized), id)
  {
    if k in s.networks && id in s.nodes { DropNodeNetworksAt(s, s.networks[k].members, k, id); }
  }

  lemma LeaveGrows(s: State, n: NodeId, k: NetId, authorized: bool, id: NodeId)
    ensures GrowsAt(s, Leave(s, n, k, authorized), id)
  {
  }

  lemma RespondGrows(s: State, n: NodeId, k: NetId, accept: bool, now: int, authorized: bool, id: NodeId)
    ensures GrowsAt(s, RespondInvite(s, n, k, accept, now, authorized), id)
  {
  }

  lemma CreateGrows(s: State, n: NodeId, name: string, rule: string, token: string, ent: bool, a: bool, id: NodeId)
    ensures GrowsAt(s, CreateNetwork(s, n, name, rule, token, ent, a), id)
  {
  }

  lemma JoinGrows(s: State, n: NodeId, k: NetId, token: string, authorized: bool, id: NodeId)
    ensures GrowsAt(s, Join(s, n, k, token, authorized), id)
  {
  }

  lemma NetworkStepGrows(s: State, op: NetworkOp, id: NodeId)
    requires Inv(s)
    ensures GrowsAt(s, ApplyNetwork(s, op), id)
  {
    match op
    case OpDelete(k, a) => DeleteGrows(s, k, a, id);
    case OpLeave(n, k, a) => LeaveGrows(s, n, k, a, id);
    case OpRespond(n, k, acc, now, a) => RespondGrows(s, n, k, acc, now, a, id);
    case OpCreate(n, name, rule, token, ent, a) => CreateGrows(s, n, name, rule, token, ent, a, id);
    case OpJoin(n, k, token, a) => JoinGrows(s, n, k, token, a, id);
    case _ =>
  }

  lemma NodeStepGrows(s: State, op: NodeOp, id: NodeId)
    ensures GrowsAt(s, ApplyNode(s, op), id)
  {
  }

  lemma RoleStepGrows(s: State, op: RoleOp, id: NodeId)
    ensures GrowsAt(s, ApplyRole(s, op), id)
  {
  }

  lemma StepGrows(s: State, op: Op, id: NodeId)
    requires Inv(s)
    ensures GrowsAt(s, Apply(s, op), id)
  {
    match op
    case RegisterStep(r) => RegisterGrows(s, r, id);
    case IndexStep(_, _, _) =>
    case NodeStep(d) => NodeStepGrows(s, d, id);
    case NetworkStep(d) => NetworkStepGrows(s, d, id);
    case RoleStep(d) => RoleStepGrows(s, d, id);
  }

  /** The node is live before the run and after each step. */
  ghost predicate StaysLive(s: State, ops: seq<Op>, id: NodeId)
    requires Legal(s, ops)
    decreases |ops|
  {
    id in s.nodes && (ops == [] || StaysLive(Apply(s, ops[0]), ops[1..], id))
  }

  /** As long as a node stays, the owner it was bound to and its verification stay. */
  lemma {:induction false} RunGrows(s: State, ops: seq<Op>, id: NodeId)
    requires Inv(s) && Legal(s, ops) && StaysLive(s, ops, id)
    ensures id in Run(s, ops).nodes && Grows(s.nodes[id], Run(s, ops).nodes[id])
    decreases |ops|
  {
    if ops != [] {
      StepKeepsInv(s, ops[0]);
      StepGrows(s, ops[0], id);
      RunGrows(Apply(s, ops[0]), ops[1..], id);
    }
  }

  /** The ratchet: once a key's node has registered with a valid signature, and as long as
      the node stays and the key is not rotated away, an unsigned registration with that
      key is refused and changes nothing. */
  lemma RatchetHolds(s: State, ops: seq<Op>, r: Registration)
    requires Inv(s) && Legal(s, ops) && IsKnownLive(s, r.key) && s.nodes[s.pubKeyIdx[r.key]].sigVerified
    requires StaysLive(s, ops, s.pubKeyIdx[r.key]) && !r.sigVerified
    requires forall op :: op in ops ==> !Rotates(op, r.key)
    ensures 0 in Run(s, ops).networks
    ensures Register(Run(s, ops), r) == Run(s, ops) && RegisterId(Run(s, ops), r) == None
  {
    KeyIsSticky(s, ops, r);
    RunGrows(s, ops, s.pubKeyIdx[r.key]);
    RunKeepsInv(s, ops);
  }

  // --- the node of an owner --------------------------------------------------------------------

  /** A known key registers in the owner's name for another node, which takes the owner over. */
  ghost predicate Rebinds(s: State, op: Op, owner: string)
    requires owner in s.ownerIdx
  {
    && op.RegisterStep? && owner != "" && op.r.owner == owner && op.r.key in s.pubKeyIdx
    && s.pubKeyIdx[op.r.key] != s.ownerIdx[owner]
    && (RegisterPath(s, op.r) == KeyReclaimed
        || (RegisterPath(s, op.r) == Refreshed && s.nodes[s.pubKeyIdx[op.r.key]].owner == ""))
  }

  /** The index still names the same node for the owner. */
  ghost predicate SameOwner(s: State, t: State, owner: string) {
    owner in s.ownerIdx && owner in t.ownerIdx && t.ownerIdx[owner] == s.ownerIdx[owner]
  }

  lemma ReviveOwners(s: State, r: Registration, id: NodeId, networks: seq<NetId>)
    requires 0 in s.networks
    ensures Revive(s, r, id, networks).ownerIdx == s.ownerIdx
  {
  }

  lemma SlowOwners(s: State, r: Registration)
    requires IsKnownLive(s, r.key)
    ensures SlowPath(s, r).ownerIdx == ClaimOwner(FastPath(s, r), s.pubKeyIdx[r.key], r.owner).ownerIdx
  {
  }

  lemma RegisterOwners(s: State, r: Registration, owner: string)
    requires 0 in s.networks && owner in s.ownerIdx && owner != ""
    ensures SameOwner(s, Register(s, r), owner) <==> !Rebinds(s, RegisterStep(r), owner)
  {
    match RegisterPath(s, r)
    case Rejected =>
    case Refreshed => SlowOwners(s, r);
    case KeyReclaimed =>
      var n := s.pubKeyIdx[r.key];
      ReviveOwners(if r.owner != "" then s.(ownerIdx := s.ownerIdx[r.owner := n]) else s, r, n, [0] + r.scan);
    case OwnerReclaimed =>
      var n := s.ownerIdx[r.owner];
      ReviveOwners(s.(pubKeyIdx := s.pubKeyIdx[r.key := n]), r, n, [0]);
    case Allocated => ReviveOwners(Reserve(s, r), r, s.nextNode, [0]);
  }

  lemma NodeStepOwners(s: State, op: NodeOp)
    ensures ApplyNode(s, op).ownerIdx == s.ownerIdx
  {
  }

  lemma NetworkStepOwners(s: State, op: NetworkOp)
    ensures ApplyNetwork(s, op).ownerIdx == s.ownerIdx
  {
  }

  lemma RoleStepOwners(s: State, op: RoleOp)
    ensures ApplyRole(s, op).ownerIdx == s.ownerIdx
  {
  }

  /** A step keeps the node of an owner if and only if it does not rebind the owner. */
  lemma StepKeepsOwnerExactly(s: State, op: Op, owner: string)
    requires Inv(s) && Enabled(s, op) && owner in s.ownerIdx && owner != ""
    ensures SameOwner(s, Apply(s, op), owner) <==> !Rebinds(s, op, owner)
  {
    match op
    case RegisterStep(r) => RegisterOwners(s, r, owner);
    case IndexStep(_, _, _) =>
    case NodeStep(d) => NodeStepOwners(s, d);
    case NetworkStep(d) => NetworkStepOwners(s, d);
    case RoleStep(d) => RoleStepOwners(s, d);
  }

  ghost predicate NeverRebound(s: State, ops: seq<Op>, owner: string)
    requires Legal(s, ops)
    decreases |ops|
  {
    owner in s.ownerIdx && (ops == [] || (!Rebinds(s, ops[0], owner) && NeverRebound(Apply(s, ops[0]), ops[1..], owner)))
  }

  lemma {:induction false} OwnerIsSticky(s: State, ops: seq<Op>, owner: string)
    requires Inv(s) && Legal(s, ops) && owner != "" && NeverRebound(s, ops, owner)
    ensures SameOwner(s, Run(s, ops), owner)
    decreases |ops|
  {
    if ops != [] {
      StepKeepsInv(s, ops[0]);
      StepKeepsOwnerExactly(s, ops[0], owner);
      OwnerIsSticky(Apply(s, ops[0]), ops[1..], owner);
    }
  }

  lemma RebindRefused(s: State, r: Registration)
    requires 0 in s.networks && r.key !in s.pubKeyIdx
    requires r.owner != "" && r.owner in s.ownerIdx && s.ownerIdx[r.owner] in s.nodes
    ensures Register(s, r) == s && RegisterId(s, r) == None
  {
  }

  /** Over any run in which the owner is not rebound and the owner's node stays live, a
      registration in the owner's name with an unknown key is refused and changes nothing. */
  lemma OwnerHolds(s: State, ops: seq<Op>, r: Registration)
    requires Inv(s) && Legal(s, ops) && r.owner != "" && NeverRebound(s, ops, r.owner)
    requires StaysLive(s, ops, s.ownerIdx[r.owner]) && r.key !in Run(s, ops).pubKeyIdx
    ensures 0 in Run(s, ops).networks
    ensures Register(Run(s, ops), r) == Run(s, ops) && RegisterId(Run(s, ops), r) == None
  {
    OwnerIsSticky(s, ops, r.owner);
    RunGrows(s, ops, s.ownerIdx[r.owner]);
    RunKeepsInv(s, ops);
    RebindRefused(Run(s, ops), r);
  }
}
