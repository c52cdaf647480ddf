/** Theorems about whole runs of the registry. */
module RegistryRuns {
  import opened Options
  import opened Registry
  import opened RegistryInvariants
  import opened RegistrySteps

  // --- runs --------------------------------------------------------------------------

  ghost predicate Legal(s: State, ops: seq<Op>)
    decreases |ops|
  {
    0 in s.networks && (ops == [] || (Enabled(s, ops[0]) && Legal(Apply(s, ops[0]), ops[1..])))
  }

  ghost function Run(s: State, ops: seq<Op>): State
    requires Legal(s, ops)
    decreases |ops|
  {
    if ops == [] then s else Run(Apply(s, ops[0]), ops[1..])
  }

  ghost predicate IsOwnerReclaim(s: State, op: Op) {
    op.RegisterStep? && RegisterPath(s, op.r) == OwnerReclaimed
  }

  /** An owner-based reclaim that would cut a live node off from networks still listing it. */
  ghost predicate CutsOff(s: State, op: Op) {
    IsOwnerReclaim(s, op) && exists k :: k != 0 && Lists(s, k, s.ownerIdx[op.r.owner])
  }

  ghost predicate NoneCutsOff(s: State, ops: seq<Op>)
    requires Legal(s, ops)
    decreases |ops|
  {
    ops == [] || (!CutsOff(s, ops[0]) && NoneCutsOff(Apply(s, ops[0]), ops[1..]))
  }

  lemma NodeStepKeeps(s: State, op: NodeOp)
    requires Inv(s)
    ensures Inv(ApplyNode(s, op)) && (Tight(s) ==> Tight(ApplyNode(s, op)))
  {
    match op
    case OpSetHostname(id, h, a) => SetHostnameKeeps(s, id, h, a);
    case OpHeartbeat(id, now, a) => HeartbeatKeeps(s, id, now, a);
    case OpDeregister(id, a) => DeregisterKeeps(s, id, a);
    case OpReap(id, t) => ReapKeeps(s, id, t);
    case OpRotateKey(id, e, key, now) => RotateKeyKeeps(s, id, e, key, now);
  }

  lemma NetworkStepKeeps(s: State, op: NetworkOp)
    requires Inv(s)
    ensures Inv(ApplyNetwork(s, op)) && (Tight(s) ==> Tight(ApplyNetwork(s, op)))
  {
    match op
    case OpCreate(id, name, rule, tok, ent, a) => CreateKeeps(s, id, name, rule, tok, ent, a);
    case OpJoin(id, k, tok, a) => JoinKeeps(s, id, k, tok, a);
    case OpLeave(id, k, a) => LeaveKeeps(s, id, k, a);
    case OpDelete(k, a) => DeleteKeeps(s, k, a);
    case OpSetEnterprise(k, e, a) => SetEnterpriseKeeps(s, k, e, a);
    case OpInvite(inv, k, t, now, o, a) => InviteKeeps(s, inv, k, t, now, o, a);
    case OpRespond(id, k, acc, now, a) => RespondKeeps(s, id, k, acc, now, a);
    case OpPoll(id, now, a) => PollKeeps(s, id, now, a);
  }

  lemma RoleStepKeeps(s: State, op: RoleOp)
    requires Inv(s)
    ensures Inv(ApplyRole(s, op)) && (Tight(s) ==> Tight(ApplyRole(s, op)))
  {
    match op
    case OpKick(k, t, c, a) => KickKeeps(s, k, t, c, a);
    case OpPromote(k, t, a) => ChangeRoleKeeps(s, k, t, Member, Admin, a);
    case OpDemote(k, t, a) => ChangeRoleKeeps(s, k, t, Admin, Member, a);
    case OpTransfer(k, n, c, a) => TransferKeeps(s, k, n, c, a);
    case OpAdminKick(k, t) => AdminKickKeeps(s, k, t);
    case OpAdminSetRole(k, t, role) => AdminSetRoleKeeps(s, k, t, role);
  }

  lemma StepKeepsInv(s: State, op: Op)
    requires Inv(s) && Enabled(s, op)
    ensures Inv(Apply(s, op))
    ensures Tight(s) && !CutsOff(s, op) ==> Tight(Apply(s, op))
  {
    match op
    case RegisterStep(r) =>
      RegisterKeeps(s, r);
      if IsOwnerReclaim(s, op) { OwnerReclaimKeeps(s, r); }
    case IndexStep(id, prev, key) => IndexRotationKeeps(s, id, prev, key);
    case NodeStep(d) => NodeStepKeeps(s, d);
    case NetworkStep(d) => NetworkStepKeeps(s, d);
    case RoleStep(d) => RoleStepKeeps(s, d);
  }

  /** One step keeps the converse half of agreement exactly when it does not cut a node off. */
  lemma StepTightExactly(s: State, op: Op)
    requires Inv(s) && Tight(s) && Enabled(s, op)
    ensures Tight(Apply(s, op)) <==> !CutsOff(s, op)
  {
    StepKeepsInv(s, op);
    if IsOwnerReclaim(s, op) { OwnerReclaimTightExactly(s, op.r); }
  }

  lemma InitialInv()
    ensures Inv(Initial) && Tight(Initial)
  {
  }

  /** Every run keeps the invariant: membership agreement, issued ids, the hostname
      index and role discipline. Runs that cut no node off also keep the converse. */
  lemma {:induction false} RunKeepsInv(s: State, ops: seq<Op>)
    requires Inv(s) && Legal(s, ops)
    ensures Inv(Run(s, ops))
    ensures Tight(s) && NoneCutsOff(s, ops) ==> Tight(Run(s, ops))
    decreases |ops|
  {
    if ops != [] {
      StepKeepsInv(s, ops[0]);
      RunKeepsInv(Apply(s, ops[0]), ops[1..]);
    }
  }

  // --- the fast path -----------------------------------------------------------------

  /** The shard-locked refresh has the effect of the globally locked one. */
  lemma FastPathRefinesSlow(s: State, r: Registration)
    requires HostsInverse(s) && FastPathTaken(s, r)
    ensures FastPath(s, r) == SlowPath(s, r)
  {
    var id := s.pubKeyIdx[r.key];
    var f := FastPath(s, r);
    assert ClaimOwner(f, id, r.owner) == f;
    if r.hostname != "" {
      assert f.nodes[id].hostname == r.hostname && s.hostnameIdx[r.hostname] == id;
      assert (f.hostnameIdx - {r.hostname})[r.hostname := id] == f.hostnameIdx;
      assert f.nodes[id := f.nodes[id].(hostname := r.hostname)] == f.nodes;
    }
  }

  // --- identity ----------------------------------------------------------------------

  /** The rotations that can change what `key` resolves to. */
  predicate Rotates(op: Op, key: string) {
    op.IndexStep? && (op.prev == key || op.key == key)
  }

  /** Only registration and rotation write the key index or the node counter. */
  lemma NodeStepFrame(s: State, op: NodeOp)
    ensures ApplyNode(s, op).pubKeyIdx == s.pubKeyIdx && ApplyNode(s, op).nextNode == s.nextNode
  {
  }

  lemma NetworkStepFrame(s: State, op: NetworkOp)
    ensures ApplyNetwork(s, op).pubKeyIdx == s.pubKeyIdx && ApplyNetwork(s, op).nextNode == s.nextNode
  {
  }

  lemma RoleStepFrame(s: State, op: RoleOp)
    ensures ApplyRole(s, op).pubKeyIdx == s.pubKeyIdx && ApplyRole(s, op).nextNode == s.nextNode
  {
  }

  ghost predicate RolesKept(s: State, t: State) {
    && t.networks.Keys == s.networks.Keys
    && (forall k :: k in s.networks ==> t.networks[k].roles == s.networks[k].roles)
    && (forall k :: k in s.networks ==> t.networks[k].enterprise == s.networks[k].enterprise)
    && (forall k, n :: Lists(s, k, n) ==> Lists(t, k, n))
  }

  ghost predicate KeysKept(s: State, t: State) {
    forall p :: p in s.pubKeyIdx ==> p in t.pubKeyIdx && t.pubKeyIdx[p] == s.pubKeyIdx[p]
  }

  lemma ReviveFrame(s: State, r: Registration, id: NodeId, networks: seq<NetId>)
    requires 0 in s.networks
    ensures var t := Revive(s, r, id, networks);
            t.pubKeyIdx == s.pubKeyIdx && t.nextNode == s.nextNode && RolesKept(s, t)
  {
    var s1 := WithNode(s, id, FreshNode(r, networks));
    BackboneFrame(s1, id);
    HostnameFrame(AddToBackbone(s1, id), id, r.hostname);
  }

  lemma BackboneFrame(s: State, id: NodeId)
    requires 0 in s.networks
    ensures var t := AddToBackbone(s, id);
            t.pubKeyIdx == s.pubKeyIdx && t.nextNode == s.nextNode && RolesKept(s, t)
  {
    var net := s.networks[0];
    if id !in net.members {
      var t := WithNetwork(s, 0, net.(members := net.members + [id]));
      assert t.networks.Keys == s.networks.Keys;
      forall k | k in s.networks
        ensures t.networks[k].roles == s.networks[k].roles && t.networks[k].enterprise == s.networks[k].enterprise
      {
        if k != 0 { assert t.networks[k] == s.networks[k]; }
      }
      forall k, n | Lists(s, k, n) ensures Lists(t, k, n) {
        if k != 0 { assert t.networks[k] == s.networks[k]; }
      }
    }
  }

  lemma HostnameFrame(s: State, id: NodeId, hostname: string)
    requires id in s.nodes
    ensures var t := SetNodeHostname(s, id, hostname);
            t.pubKeyIdx == s.pubKeyIdx && t.nextNode == s.nextNode && t.networks == s.networks
  {
  }

  ghost predicate Framed(s: State, t: State) {
    t.pubKeyIdx == s.pubKeyIdx && t.nextNode == s.nextNode && t.networks == s.networks
  }

  lemma FastFrame(s: State, r: Registration)
    requires IsKnownLive(s, r.key)
    ensures Framed(s, FastPath(s, r)) && s.pubKeyIdx[r.key] in FastPath(s, r).nodes
  {
  }

  lemma ClaimFrame(s: State, id: NodeId, owner: string)
    requires id in s.nodes
    ensures Framed(s, ClaimOwner(s, id, owner)) && id in ClaimOwner(s, id, owner).nodes
  {
  }

  lemma SlowFrame(s: State, r: Registration)
    requires IsKnownLive(s, r.key)
    ensures Framed(s, SlowPath(s, r))
  {
    var id := s.pubKeyIdx[r.key];
    FastFrame(s, r);
    ClaimFrame(FastPath(s, r), id, r.owner);
    HostnameFrame(ClaimOwner(FastPath(s, r), id, r.owner), id, r.hostname);
  }

  lemma KeyReclaimFrame(s: State, r: Registration)
    requires r.key in s.pubKeyIdx && 0 in s.networks
    ensures var t := KeyReclaim(s, r);
            t.pubKeyIdx == s.pubKeyIdx && t.nextNode == s.nextNode && RolesKept(s, t)
  {
    var id := s.pubKeyIdx[r.key];
    var s1 := if r.owner != "" then s.(ownerIdx := s.ownerIdx[r.owner := id]) else s;
    ReviveFrame(s1, r, id, [0] + r.scan);
    assert RolesKept(s, s1);
  }

  lemma OwnerReclaimFrame(s: State, r: Registration)
    requires r.owner in s.ownerIdx && r.key !in s.pubKeyIdx && 0 in s.networks
    ensures var t := OwnerReclaim(s, r);
            KeysKept(s, t) && t.nextNode == s.nextNode && RolesKept(s, t)
  {
    var s1 := s.(pubKeyIdx := s.pubKeyIdx[r.key := s.ownerIdx[r.owner]]);
    ReviveFrame(s1, r, s.ownerIdx[r.owner], [0]);
    assert RolesKept(s, s1);
  }

  lemma AllocateFrame(s: State, r: Registration)
    requires r.key !in s.pubKeyIdx && 0 in s.networks
    ensures var t := Allocate(s, r);
            KeysKept(s, t) && t.nextNode == (s.nextNode + 1) % NODE_LIMIT && RolesKept(s, t)
  {
    ReviveFrame(Reserve(s, r), r, s.nextNode, [0]);
    assert RolesKept(s, Reserve(s, r));
  }

  lemma RegisterFrame(s: State, r: Registration)
    requires 0 in s.networks
    ensures var t := Register(s, r);
            && (RegisterPath(s, r) == Allocated ==> t.nextNode == (s.nextNode + 1) % NODE_LIMIT)
            && (RegisterPath(s, r) != Allocated ==> t.nextNode == s.nextNode)
            && KeysKept(s, t) && RolesKept(s, t)
  {
    match RegisterPath(s, r)
    case Rejected =>
    case Refreshed =>
      SlowFrame(s, r);
      FastFrame(s, r);
    case KeyReclaimed => KeyReclaimFrame(s, r);
    case OwnerReclaimed => OwnerReclaimFrame(s, r);
    case Allocated => AllocateFrame(s, r);
  }

  lemma StepKeepsKey(s: State, op: Op, key: string)
    requires 0 in s.networks && key in s.pubKeyIdx && !Rotates(op, key)
    ensures key in Apply(s, op).pubKeyIdx && Apply(s, op).pubKeyIdx[key] == s.pubKeyIdx[key]
  {
    match op
    case RegisterStep(r) => RegisterFrame(s, r);
    case IndexStep(id, prev, k) =>
    case NodeStep(d) => NodeStepFrame(s, d);
    case NetworkStep(d) => NetworkStepFrame(s, d);
    case RoleStep(d) => RoleStepFrame(s, d);
  }

  /** Identity is sticky: once a key resolves to an id, no run short of rotating that
      key changes it, and a later registration with the key succeeds only with that id. */
  lemma {:induction false} KeyIsSticky(s: State, ops: seq<Op>, r: Registration)
    requires Legal(s, ops) && r.key in s.pubKeyIdx
    requires forall op :: op in ops ==> !Rotates(op, r.key)
    ensures r.key in Run(s, ops).pubKeyIdx && Run(s, ops).pubKeyIdx[r.key] == s.pubKeyIdx[r.key]
    ensures RegisterId(Run(s, ops), r) in {None, Some(s.pubKeyIdx[r.key])}
    decreases |ops|
  {
    if ops != [] {
      StepKeepsKey(s, ops[0], r.key);
      KeyIsSticky(Apply(s, ops[0]), ops[1..], r);
    }
  }

  /** After a deregistration or a reap the key is still known, so its next
      registration is a reclaim of the same id. */
  lemma KeySurvivesDeparture(s: State, op: NodeOp, r: Registration)
    requires IsKnownLive(s, r.key) && r.keyOk
    requires s.pubKeyIdx[r.key] !in ApplyNode(s, op).nodes
    ensures RegisterPath(ApplyNode(s, op), r) == KeyReclaimed
    ensures RegisterId(ApplyNode(s, op), r) == Some(s.pubKeyIdx[r.key])
  {
    NodeStepFrame(s, op);
  }

  /** `id` occurs somewhere in the state. */
  ghost predicate Holds(s: State, id: NodeId) {
    || id in s.nodes || (exists k :: Lists(s, k, id)) || (exists k :: Ranks(s, k, id))
    || id in s.pubKeyIdx.Values || id in s.ownerIdx.Values || id in s.hostnameIdx.Values
  }

  lemma HeldIsIssued(s: State, id: NodeId)
    requires Inv(s) && Holds(s, id)
    ensures Issued(s, id)
  {
  }

  lemma StepGrowsBound(s: State, op: Op)
    requires 0 in s.networks && s.nextNode < NODE_LIMIT
    ensures var t := Apply(s, op);
            t.nextNode < NODE_LIMIT && Bound(s) <= Bound(t) && (s.nextNode == 0 ==> t.nextNode == 0)
  {
    match op
    case RegisterStep(r) => RegisterFrame(s, r);
    case IndexStep(id, prev, k) =>
    case NodeStep(d) => NodeStepFrame(s, d);
    case NetworkStep(d) => NetworkStepFrame(s, d);
    case RoleStep(d) => RoleStepFrame(s, d);
  }

  lemma {:induction false} RunGrowsBound(s: State, ops: seq<Op>)
    requires Legal(s, ops) && s.nextNode < NODE_LIMIT
    ensures var t := Run(s, ops);
            t.nextNode < NODE_LIMIT && Bound(s) <= Bound(t) && (s.nextNode == 0 ==> t.nextNode == 0)
    decreases |ops|
  {
    if ops != [] {
      StepGrowsBound(s, ops[0]);
      RunGrowsBound(Apply(s, ops[0]), ops[1..]);
    }
  }

  /** No id is ever reused: a newly allocated id differs from every id any earlier
      state held, and once the counter has wrapped nothing is allocated any more. */
  lemma NeverReused(s: State, ops: seq<Op>, r: Registration, id: NodeId)
    requires Inv(s) && Legal(s, ops)
    ensures s.nextNode == 0 ==> RegisterPath(Run(s, ops), r) != Allocated
    ensures Holds(s, id) && RegisterPath(Run(s, ops), r) == Allocated ==> RegisterId(Run(s, ops), r) != Some(id)
  {
    RunGrowsBound(s, ops);
    if Holds(s, id) { HeldIsIssued(s, id); }
  }

  // --- ownership ---------------------------------------------------------------------

  ghost predicate OwnedBy(s: State, k: NetId, o: NodeId) {
    && k in s.networks && s.networks[k].enterprise
    && HoldsRole(s.networks[k], o, Owner) && OneOwnerAtMost(s.networks[k].roles)
  }

  ghost predicate HasOneOwner(s: State, k: NetId) {
    exists o :: OwnedBy(s, k, o)
  }

  /** The steps allowed to end ownership: deleting the network, removing its flag, or
      deregistering its owner. */
  ghost predicate EndsOwnership(s: State, op: Op, k: NetId) {
    || (op.NetworkStep? && op.networkOp.OpDelete? && op.networkOp.net == k)
    || (op.NetworkStep? && op.networkOp.OpSetEnterprise? && op.networkOp.net == k && !op.networkOp.enterprise)
    || (op.NodeStep? && op.nodeOp.OpDeregister? && OwnedBy(s, k, op.nodeOp.id))
  }

  lemma RolesKeptOwned(s: State, t: State, k: NetId)
    requires HasOneOwner(s, k) && k in t.networks
    requires t.networks[k].enterprise && t.networks[k].roles == s.networks[k].roles
    ensures HasOneOwner(t, k)
  {
    var o :| OwnedBy(s, k, o);
    assert OwnedBy(t, k, o);
  }

  lemma DropOtherOwned(s: State, t: State, k: NetId, id: NodeId)
    requires HasOneOwner(s, k) && k in t.networks && !HoldsRole(s.networks[k], id, Owner)
    requires t.networks[k].enterprise && t.networks[k].roles == s.networks[k].roles - {id}
    ensures HasOneOwner(t, k)
  {
    var o :| OwnedBy(s, k, o);
    assert OwnedBy(t, k, o);
  }

  lemma SetOtherOwned(s: State, t: State, k: NetId, id: NodeId, role: Role)
    requires HasOneOwner(s, k) && k in t.networks && !HoldsRole(s.networks[k], id, Owner) && role != Owner
    requires t.networks[k].enterprise && t.networks[k].roles == s.networks[k].roles[id := role]
    ensures HasOneOwner(t, k)
  {
    var o :| OwnedBy(s, k, o);
    assert OwnedBy(t, k, o);
  }

  lemma LinkOwned(s: State, id: NodeId, j: NetId, k: NetId)
    requires Inv(s) && Tight(s) && HasOneOwner(s, k)
    requires id in s.nodes && j in s.networks && j != 0 && j !in s.nodes[id].networks
    ensures HasOneOwner(Link(s, id, j), k)
  {
    if j == k {
      LinkTight(s, id, j);
      assert !Ranks(s, k, id) by {
        assert k != 0;
        assert Ranks(s, k, id) ==> Lists(s, k, id);
      }
      SetOtherOwned(s, Link(s, id, j), k, id, Member);
    } else {
      RolesKeptOwned(s, Link(s, id, j), k);
    }
  }

  lemma DeregisterOwned(s: State, id: NodeId, k: NetId)
    requires Inv(s) && HasOneOwner(s, k) && id in s.nodes && !OwnedBy(s, k, id)
    ensures HasOneOwner(Deregister(s, id, true), k)
  {
    var t := Deregister(s, id, true);
    DropFromNetworksAt(s, id, s.nodes[id].networks, k);
    if k in s.nodes[id].networks { DropOtherOwned(s, t, k, id); } else { RolesKeptOwned(s, t, k); }
  }

  lemma TransferOwned(s: State, j: NetId, next: NodeId, current: NodeId, k: NetId)
    requires HasOneOwner(s, k)
    ensures HasOneOwner(Transfer(s, j, next, current, true), k)
  {
    var t := Transfer(s, j, next, current, true);
    if t != s && j == k {
      assert OwnedBy(t, k, next);
    } else {
      RolesKeptOwned(s, t, k);
    }
  }

  lemma SetEnterpriseOwned(s: State, k: NetId)
    requires HasOneOwner(s, k) && k != 0
    ensures HasOneOwner(SetEnterprise(s, k, true, true), k)
  {
    var net := s.networks[k];
    var o :| OwnedBy(s, k, o);
    AssignRolesKeeps(net.members, net.roles, HasOwner(net.roles));
    assert OwnedBy(SetEnterprise(s, k, true, true), k, o);
  }

  lemma RoleStepOwned(s: State, op: RoleOp, k: NetId)
    requires HasOneOwner(s, k)
    ensures HasOneOwner(ApplyRole(s, op), k)
  {
    var t := ApplyRole(s, op);
    if t == s || op.net != k {
      RolesKeptOwned(s, t, k);
    } else {
      match op
      case OpKick(j, id, c, a) => DropOtherOwned(s, t, k, id);
      case OpPromote(j, id, a) => SetOtherOwned(s, t, k, id, Admin);
      case OpDemote(j, id, a) => SetOtherOwned(s, t, k, id, Member);
      case OpTransfer(j, n, c, a) => TransferOwned(s, j, n, c, k);
      case OpAdminKick(j, id) => DropOtherOwned(s, t, k, id);
      case OpAdminSetRole(j, id, role) => SetOtherOwned(s, t, k, id, role);
    }
  }

  lemma RespondOwned(s: State, op: NetworkOp, k: NetId)
    requires Inv(s) && Tight(s) && HasOneOwner(s, k) && op.OpRespond? && ApplyNetwork(s, op) != s
    ensures HasOneOwner(ApplyNetwork(s, op), k)
  {
    if op.accept { LinkOwned(s, op.id, op.net, k); }
    RolesKeptOwned(if op.accept then Link(s, op.id, op.net) else s, ApplyNetwork(s, op), k);
  }

  lemma LeaveOwned(s: State, op: NetworkOp, k: NetId)
    requires Inv(s) && HasOneOwner(s, k) && op.OpLeave? && ApplyNetwork(s, op) != s
    ensures HasOneOwner(ApplyNetwork(s, op), k)
  {
    var t := ApplyNetwork(s, op);
    if op.net == k { DropOtherOwned(s, t, k, op.id); } else { RolesKeptOwned(s, t, k); }
  }

  lemma SetEnterpriseStepOwned(s: State, op: NetworkOp, k: NetId)
    requires Inv(s) && HasOneOwner(s, k) && op.OpSetEnterprise? && ApplyNetwork(s, op) != s
    requires !EndsOwnership(s, NetworkStep(op), k)
    ensures HasOneOwner(ApplyNetwork(s, op), k)
  {
    if op.net == k { SetEnterpriseOwned(s, k); } else { RolesKeptOwned(s, ApplyNetwork(s, op), k); }
  }

  /** Creation, deletion of another network, invites and polls leave the roles of `k` alone. */
  lemma ElsewhereOwned(s: State, op: NetworkOp, k: NetId)
    requires Inv(s) && HasOneOwner(s, k) && !EndsOwnership(s, NetworkStep(op), k)
    requires op.OpCreate? || op.OpDelete? || op.OpInvite? || op.OpPoll?
    ensures HasOneOwner(ApplyNetwork(s, op), k)
  {
    RolesKeptOwned(s, ApplyNetwork(s, op), k);
  }

  lemma NetworkStepOwned(s: State, op: NetworkOp, k: NetId)
    requires Inv(s) && Tight(s) && HasOneOwner(s, k) && !EndsOwnership(s, NetworkStep(op), k)
    ensures HasOneOwner(ApplyNetwork(s, op), k)
  {
    if ApplyNetwork(s, op) != s {
      match op
      case OpJoin(id, j, tok, a) => LinkOwned(s, id, j, k);
      case OpLeave(id, j, a) => LeaveOwned(s, op, k);
      case OpSetEnterprise(j, e, a) => SetEnterpriseStepOwned(s, op, k);
      case OpRespond(id, j, acc, now, a) => RespondOwned(s, op, k);
      case _ => ElsewhereOwned(s, op, k);
    }
  }

  lemma NodeStepOwned(s: State, op: NodeOp, k: NetId)
    requires Inv(s) && HasOneOwner(s, k) && !EndsOwnership(s, NodeStep(op), k)
    ensures HasOneOwner(ApplyNode(s, op), k)
  {
    var t := ApplyNode(s, op);
    assert k != 0;
    if op.OpDeregister? {
      if t != s { DeregisterOwned(s, op.id, k); }
    } else {
      RolesKeptOwned(s, t, k);
    }
  }

  /** An enterprise network with exactly one owner keeps exactly one through every
      step that does not end ownership by design. */
  lemma StepKeepsOwner(s: State, op: Op, k: NetId)
    requires Inv(s) && Tight(s) && HasOneOwner(s, k) && !EndsOwnership(s, op, k)
    ensures HasOneOwner(Apply(s, op), k)
  {
    match op
    case RegisterStep(r) =>
      RegisterFrame(s, r);
      RolesKeptOwned(s, Register(s, r), k);
    case IndexStep(id, prev, key) => RolesKeptOwned(s, IndexRotation(s, id, prev, key), k);
    case NodeStep(d) => NodeStepOwned(s, d, k);
    case NetworkStep(d) => NetworkStepOwned(s, d, k);
    case RoleStep(d) => RoleStepOwned(s, d, k);
  }

  ghost predicate NoneEndsOwnership(s: State, ops: seq<Op>, k: NetId)
    requires Legal(s, ops)
    decreases |ops|
  {
    ops == [] || (!EndsOwnership(s, ops[0], k) && NoneEndsOwnership(Apply(s, ops[0]), ops[1..], k))
  }

  lemma {:induction false} RunKeepsOwner(s: State, ops: seq<Op>, k: NetId)
    requires Inv(s) && Tight(s) && Legal(s, ops) && NoneCutsOff(s, ops)
    requires HasOneOwner(s, k) && NoneEndsOwnership(s, ops, k)
    ensures HasOneOwner(Run(s, ops), k)
    decreases |ops|
  {
    if ops != [] {
      StepKeepsInv(s, ops[0]);
      StepKeepsOwner(s, ops[0], k);
      RunKeepsOwner(Apply(s, ops[0]), ops[1..], k);
    }
  }
}
