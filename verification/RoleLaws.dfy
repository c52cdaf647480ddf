/** The role every node holds on every network after a step, told from the request and the
    state before. */
module RoleLaws {
  import opened Options
  import opened Registry
  import opened RegistryInvariants
  import RegistryRuns
  import opened MembershipLaws

  function RoleAt(s: State, k: NetId, n: NodeId): Option<Role> {
    if k in s.networks && n in s.networks[k].roles then Some(s.networks[k].roles[n]) else None
  }

  /** The first member without a role. */
  ghost predicate FirstWithout(members: seq<NodeId>, roles: map<NodeId, Role>, n: NodeId) {
    n !in roles && exists i :: 0 <= i < |members| && members[i] == n && forall j :: 0 <= j < i ==> members[j] in roles
  }

  /** Turning the enterprise flag on: roles stay, every member without one becomes a member, the
      first of them the owner if there is none. */
  ghost function RoleGiven(net: Network, n: NodeId): Option<Role> {
    if n in net.roles then Some(net.roles[n])
    else if n !in net.members then None
    else if FirstWithout(net.members, net.roles, n) && (forall m :: m in net.roles ==> net.roles[m] != Owner)
    then Some(Owner)
    else Some(Member)
  }

  ghost function FlaggedRole(s: State, k: NetId, n: NodeId, enterprise: bool): Option<Role>
    requires k in s.networks
  {
    if enterprise then RoleGiven(s.networks[k], n) else None
  }

  ghost function RoleAfterNetwork(s: State, op: Op, k: NetId, n: NodeId): Option<Role>
    requires op.NetworkStep?
  {
    match op.networkOp
    case OpCreate(_, _, _, _, _, _) => if Founds(s, op, k, n) then Some(Owner) else RoleAt(s, k, n)
    case OpJoin(_, _, _, _) => if Joins(s, op, k, n) then Some(Member) else RoleAt(s, k, n)
    case OpRespond(_, _, _, _, _) => if Accepts(s, op, k, n) then Some(Member) else RoleAt(s, k, n)
    case OpLeave(_, _, _) => if Leaves(s, op, k, n) then None else RoleAt(s, k, n)
    case OpDelete(_, _) => if Deletes(s, op, k) then None else RoleAt(s, k, n)
    case OpSetEnterprise(j, enterprise, authorized) =>
      if j == k && authorized && k != 0 && k in s.networks then FlaggedRole(s, k, n, enterprise) else RoleAt(s, k, n)
    case OpInvite(_, _, _, _, _, _) => RoleAt(s, k, n)
    case OpPoll(_, _, _) => RoleAt(s, k, n)
  }

  /** Ownership passes from its holder, who becomes an admin, to another node with a role. */
  predicate Passes(s: State, k: NetId, next: NodeId, current: NodeId, authorized: bool) {
    && authorized && k != 0 && next != 0 && current != 0 && next != current
    && Holds(s, k, current, Owner) && RoleAt(s, k, next) != None
  }

  ghost function RoleAfterRank(s: State, op: Op, k: NetId, n: NodeId): Option<Role>
    requires op.RoleStep?
  {
    match op.roleOp
    case OpKick(_, _, _, _) => if IsKicked(s, op, k, n) && Lists(s, k, n) then None else RoleAt(s, k, n)
    case OpAdminKick(_, _) => if IsKicked(s, op, k, n) && Lists(s, k, n) then None else RoleAt(s, k, n)
    case OpPromote(j, target, authorized) =>
      if j == k != 0 && target == n && authorized && Holds(s, k, n, Member) then Some(Admin) else RoleAt(s, k, n)
    case OpDemote(j, target, authorized) =>
      if j == k != 0 && target == n && authorized && Holds(s, k, n, Admin) then Some(Member) else RoleAt(s, k, n)
    case OpTransfer(j, next, current, authorized) =>
      if j == k && Passes(s, k, next, current, authorized) && n == next then Some(Owner)
      else if j == k && Passes(s, k, next, current, authorized) && n == current then Some(Admin)
      else RoleAt(s, k, n)
    case OpAdminSetRole(j, target, role) =>
      if j == k && target == n && role != Owner && !Holds(s, k, n, Owner) && Lists(s, k, n) then Some(role)
      else RoleAt(s, k, n)
  }

  /** A deregistered node loses its roles with its memberships; a reaped one keeps them. */
  ghost function RoleAfter(s: State, op: Op, k: NetId, n: NodeId): Option<Role> {
    match op
    case RegisterStep(_) => RoleAt(s, k, n)
    case IndexStep(_, _, _) => RoleAt(s, k, n)
    case NodeStep(d) => if d.OpDeregister? && DepartsFrom(s, op, k, n) then None else RoleAt(s, k, n)
    case NetworkStep(_) => RoleAfterNetwork(s, op, k, n)
    case RoleStep(_) => RoleAfterRank(s, op, k, n)
  }

  // --- network steps --------------------------------------------------------------------------------

  lemma CreateRoles(s: State, op: Op, k: NetId, n: NodeId)
    requires Inv(s) && op.NetworkStep? && op.networkOp.OpCreate?
    ensures RoleAt(Apply(s, op), k, n) == RoleAfter(s, op, k, n)
  {
    var c := op.networkOp;
    CreateEffect(s, c.id, c.name, c.joinRule, c.token, c.enterprise, c.authorized);
    if Founds(s, op, s.nextNet, c.id) {
      assert s.nextNet !in s.networks;
      CreatedRole(s, Apply(s, op), c.id, k, n);
    } else {
      assert Apply(s, op).networks == s.networks;
    }
  }

  lemma CreatedRole(s: State, t: State, id: NodeId, k: NetId, n: NodeId)
    requires s.nextNet !in s.networks && s.nextNet in t.networks && t.networks[s.nextNet].roles == map[id := Owner]
    requires t.networks == s.networks[s.nextNet := t.networks[s.nextNet]]
    ensures RoleAt(t, k, n) == if k == s.nextNet && n == id then Some(Owner) else RoleAt(s, k, n)
  {
  }

  lemma LinkRole(s: State, id: NodeId, j: NetId, k: NetId, n: NodeId)
    requires id in s.nodes && j in s.networks
    ensures RoleAt(Link(s, id, j), k, n) == if k == j && n == id then Some(Member) else RoleAt(s, k, n)
  {
  }

  lemma JoinRoles(s: State, op: Op, k: NetId, n: NodeId)
    requires Inv(s) && op.NetworkStep? && op.networkOp.OpJoin?
    ensures RoleAt(Apply(s, op), k, n) == RoleAfter(s, op, k, n)
  {
    var c := op.networkOp;
    if c.id in s.nodes && c.net in s.networks { LinkRole(s, c.id, c.net, k, n); }
  }

  lemma RespondRoles(s: State, op: Op, k: NetId, n: NodeId)
    requires Inv(s) && op.NetworkStep? && op.networkOp.OpRespond?
    ensures RoleAt(Apply(s, op), k, n) == RoleAfter(s, op, k, n)
  {
    var c := op.networkOp;
    InvitedExactly(s, c.net, c.id, c.now);
    RespondRole(s, c.id, c.net, c.accept, c.now, c.authorized, k, n);
  }

  lemma RespondRole(s: State, id: NodeId, j: NetId, accept: bool, now: int, authorized: bool, k: NetId, n: NodeId)
    requires Inv(s)
    ensures var inv := FindInvite(InboxOf(s, id), j);
            var may := authorized && accept && inv.Some? && !Expired(inv.value, now) && id in s.nodes && j in s.networks
                       && s.networks[j].enterprise && Room(s.networks[j]) && j !in s.nodes[id].networks;
            RoleAt(RespondInvite(s, id, j, accept, now, authorized), k, n)
            == if may && k == j && n == id then Some(Member) else RoleAt(s, k, n)
  {
    if id in s.nodes && j in s.networks { LinkRole(s, id, j, k, n); }
  }

  lemma LeaveRoles(s: State, op: Op, k: NetId, n: NodeId)
    requires Inv(s) && op.NetworkStep? && op.networkOp.OpLeave?
    ensures RoleAt(Apply(s, op), k, n) == RoleAfter(s, op, k, n)
  {
    var c := op.networkOp;
    LeaveRole(s, c.id, c.net, c.authorized, k, n);
  }

  lemma LeaveRole(s: State, id: NodeId, j: NetId, authorized: bool, k: NetId, n: NodeId)
    ensures var may := authorized && j != 0 && j in s.networks && id in s.nodes && j in s.nodes[id].networks
                       && !(s.networks[j].enterprise && Holds(s, j, id, Owner));
            RoleAt(Leave(s, id, j, authorized), k, n) == if may && k == j && n == id then None else RoleAt(s, k, n)
  {
  }

  lemma {:induction false} AssignedAt(members: seq<NodeId>, roles: map<NodeId, Role>, hasOwner: bool, n: NodeId)
    ensures var r := AssignRoles(members, roles, hasOwner);
            && (n in r <==> n in roles || n in members)
            && (n in roles ==> r[n] == roles[n])
            && (n in members && n !in roles ==>
                  r[n] == if !hasOwner && FirstWithout(members, roles, n) then Owner else Member)
    decreases |members|
  {
    if members != [] {
      var rest := members[1..];
      if members[0] in roles {
        AssignedAt(rest, roles, hasOwner, n);
        SkippedFirst(members, roles, n);
      } else {
        AssignedAt(rest, roles[members[0] := if hasOwner then Member else Owner], true, n);
        TakenFirst(members, roles, n);
      }
    }
  }

  lemma SkippedFirst(members: seq<NodeId>, roles: map<NodeId, Role>, n: NodeId)
    requires members != [] && members[0] in roles
    ensures FirstWithout(members, roles, n) <==> FirstWithout(members[1..], roles, n)
  {
    var rest := members[1..];
    if FirstWithout(members, roles, n) {
      var i :| 0 <= i < |members| && members[i] == n && forall j :: 0 <= j < i ==> members[j] in roles;
      assert rest[i - 1] == n && forall j :: 0 <= j < i - 1 ==> rest[j] == members[j + 1];
    }
    if FirstWithout(rest, roles, n) {
      var i :| 0 <= i < |rest| && rest[i] == n && forall j :: 0 <= j < i ==> rest[j] in roles;
      assert members[i + 1] == n && forall j :: 0 < j < i + 1 ==> members[j] == rest[j - 1];
    }
  }

  lemma TakenFirst(members: seq<NodeId>, roles: map<NodeId, Role>, n: NodeId)
    requires members != [] && members[0] !in roles
    ensures FirstWithout(members, roles, n) <==> n == members[0]
  {
  }

  lemma FlagRoles(s: State, op: Op, k: NetId, n: NodeId)
    requires Inv(s) && op.NetworkStep? && op.networkOp.OpSetEnterprise?
    ensures RoleAt(Apply(s, op), k, n) == RoleAfter(s, op, k, n)
  {
    var c := op.networkOp;
    FlagRole(s, c.net, c.enterprise, c.authorized, k, n);
  }

  lemma FlagRole(s: State, j: NetId, enterprise: bool, authorized: bool, k: NetId, n: NodeId)
    ensures RoleAt(SetEnterprise(s, j, enterprise, authorized), k, n)
            == if j == k && authorized && k != 0 && k in s.networks then FlaggedRole(s, k, n, enterprise)
               else RoleAt(s, k, n)
  {
    if k in s.networks {
      var net := s.networks[k];
      AssignedAt(net.members, net.roles, HasOwner(net.roles), n);
    }
  }

  lemma OtherRoles(s: State, op: Op, k: NetId, n: NodeId)
    requires 0 in s.networks && op.NetworkStep?
    requires op.networkOp.OpDelete? || op.networkOp.OpInvite? || op.networkOp.OpPoll?
    ensures RoleAt(Apply(s, op), k, n) == RoleAfter(s, op, k, n)
  {
  }

  lemma NetworkRoles(s: State, op: Op, k: NetId, n: NodeId)
    requires Inv(s) && op.NetworkStep?
    ensures RoleAt(Apply(s, op), k, n) == RoleAfter(s, op, k, n)
  {
    match op.networkOp
    case OpCreate(_, _, _, _, _, _) => CreateRoles(s, op, k, n);
    case OpJoin(_, _, _, _) => JoinRoles(s, op, k, n);
    case OpRespond(_, _, _, _, _) => RespondRoles(s, op, k, n);
    case OpLeave(_, _, _) => LeaveRoles(s, op, k, n);
    case OpSetEnterprise(_, _, _) => FlagRoles(s, op, k, n);
    case _ => OtherRoles(s, op, k, n);
  }

  // --- role steps -----------------------------------------------------------------------------------

  lemma KickRoles(s: State, op: Op, k: NetId, n: NodeId)
    requires 0 in s.networks && op.RoleStep? && op.roleOp.OpKick?
    ensures RoleAt(Apply(s, op), k, n) == RoleAfter(s, op, k, n)
  {
    var c := op.roleOp;
    KickRole(s, c.net, c.target, c.caller, c.authorized, k, n);
  }

  lemma KickRole(s: State, j: NetId, target: NodeId, caller: NodeId, authorized: bool, k: NetId, n: NodeId)
    ensures var may := j != 0 && authorized && !Holds(s, j, target, Owner)
                       && !(Holds(s, j, caller, Admin) && Holds(s, j, target, Admin)) && Lists(s, j, target);
            RoleAt(Kick(s, j, target, caller, authorized), k, n)
            == if may && k == j && n == target then None else RoleAt(s, k, n)
  {
    if Lists(s, j, target) {
      KickDrops(s, j, target, caller, authorized);
    } else {
      assert Kick(s, j, target, caller, authorized) == s;
    }
  }

  lemma AdminKickRoles(s: State, op: Op, k: NetId, n: NodeId)
    requires 0 in s.networks && op.RoleStep? && op.roleOp.OpAdminKick?
    ensures RoleAt(Apply(s, op), k, n) == RoleAfter(s, op, k, n)
  {
    AdminKickRole(s, op.roleOp.net, op.roleOp.target, k, n);
  }

  lemma AdminKickRole(s: State, j: NetId, target: NodeId, k: NetId, n: NodeId)
    ensures RoleAt(AdminKick(s, j, target), k, n)
            == if !Holds(s, j, target, Owner) && Lists(s, j, target) && k == j && n == target then None
               else RoleAt(s, k, n)
  {
  }

  lemma ChangeRoles(s: State, op: Op, k: NetId, n: NodeId)
    requires 0 in s.networks && op.RoleStep? && (op.roleOp.OpPromote? || op.roleOp.OpDemote?)
    ensures RoleAt(Apply(s, op), k, n) == RoleAfter(s, op, k, n)
  {
    var c := op.roleOp;
    if c.OpPromote? {
      ChangedRole(s, c.net, c.target, Member, Admin, c.authorized, k, n);
    } else {
      ChangedRole(s, c.net, c.target, Admin, Member, c.authorized, k, n);
    }
  }

  lemma ChangedRole(s: State, j: NetId, target: NodeId, from: Role, to: Role, authorized: bool, k: NetId, n: NodeId)
    ensures RoleAt(ChangeRole(s, j, target, from, to, authorized), k, n)
            == if j == k != 0 && target == n && authorized && Holds(s, k, n, from) then Some(to) else RoleAt(s, k, n)
  {
  }

  lemma TransferRoles(s: State, op: Op, k: NetId, n: NodeId)
    requires 0 in s.networks && op.RoleStep? && op.roleOp.OpTransfer?
    ensures RoleAt(Apply(s, op), k, n) == RoleAfter(s, op, k, n)
  {
    var c := op.roleOp;
    TransferredRole(s, c.net, c.next, c.current, c.authorized, k, n);
  }

  lemma TransferredRole(s: State, j: NetId, next: NodeId, current: NodeId, authorized: bool, k: NetId, n: NodeId)
    ensures RoleAt(Transfer(s, j, next, current, authorized), k, n)
            == if j == k && Passes(s, k, next, current, authorized) && n == next then Some(Owner)
               else if j == k && Passes(s, k, next, current, authorized) && n == current then Some(Admin)
               else RoleAt(s, k, n)
  {
  }

  lemma AdminSetRoles(s: State, op: Op, k: NetId, n: NodeId)
    requires 0 in s.networks && op.RoleStep? && op.roleOp.OpAdminSetRole?
    ensures RoleAt(Apply(s, op), k, n) == RoleAfter(s, op, k, n)
  {
    AdminSetsRole(s, op.roleOp.net, op.roleOp.target, op.roleOp.role, k, n);
  }

  lemma AdminSetsRole(s: State, j: NetId, target: NodeId, role: Role, k: NetId, n: NodeId)
    ensures RoleAt(AdminSetRole(s, j, target, role), k, n)
            == if j == k && target == n && role != Owner && !Holds(s, k, n, Owner) && Lists(s, k, n) then Some(role)
               else RoleAt(s, k, n)
  {
  }

  lemma RankRoles(s: State, op: Op, k: NetId, n: NodeId)
    requires 0 in s.networks && op.RoleStep?
    ensures RoleAt(Apply(s, op), k, n) == RoleAfter(s, op, k, n)
  {
    match op.roleOp
    case OpKick(_, _, _, _) => KickRoles(s, op, k, n);
    case OpAdminKick(_, _) => AdminKickRoles(s, op, k, n);
    case OpTransfer(_, _, _, _) => TransferRoles(s, op, k, n);
    case OpAdminSetRole(_, _, _) => AdminSetRoles(s, op, k, n);
    case _ => ChangeRoles(s, op, k, n);
  }

  // --- node steps -----------------------------------------------------------------------------------

  lemma NodeRoles(s: State, op: Op, k: NetId, n: NodeId)
    requires Inv(s) && op.NodeStep?
    ensures RoleAt(Apply(s, op), k, n) == RoleAfter(s, op, k, n)
  {
    match op.nodeOp
    case OpDeregister(id, authorized) => DeregisterRole(s, id, authorized, k, n);
    case OpReap(id, threshold) => ReapRole(s, id, threshold, k, n);
    case _ => assert Apply(s, op).networks == s.networks;
  }

  lemma DeregisterRole(s: State, id: NodeId, authorized: bool, k: NetId, n: NodeId)
    requires Inv(s)
    ensures RoleAt(Deregister(s, id, authorized), k, n)
            == if authorized && id in s.nodes && n == id && k in s.nodes[id].networks then None else RoleAt(s, k, n)
  {
    if id in s.nodes && k in s.networks { DropFromNetworksAt(s, id, s.nodes[id].networks, k); }
  }

  lemma ReapRole(s: State, id: NodeId, threshold: int, k: NetId, n: NodeId)
    ensures RoleAt(Reap(s, id, threshold), k, n) == RoleAt(s, k, n)
  {
  }

  lemma RegisterRoles(s: State, op: Op, k: NetId, n: NodeId)
    requires Inv(s) && op.RegisterStep?
    ensures RoleAt(Apply(s, op), k, n) == RoleAt(s, k, n)
  {
    RegisterKeepsRoles(s, op.r, k);
  }

  lemma RevivedRoles(s: State, r: Registration, id: NodeId, networks: seq<NetId>, k: NetId)
    requires 0 in s.networks
    ensures var t := Revive(s, r, id, networks);
            t.networks.Keys == s.networks.Keys && (k in s.networks ==> t.networks[k].roles == s.networks[k].roles)
  {
    var s1 := WithNode(s, id, FreshNode(r, networks));
    assert s1.networks == s.networks;
    BackboneRoles(s1, id, k);
  }

  lemma BackboneRoles(s: State, id: NodeId, k: NetId)
    requires 0 in s.networks
    ensures var t := AddToBackbone(s, id);
            && t.networks.Keys == s.networks.Keys && t.nodes == s.nodes
            && (k in s.networks ==> t.networks[k].roles == s.networks[k].roles)
  {
  }

  lemma RegisterKeepsRoles(s: State, r: Registration, k: NetId)
    requires Inv(s)
    ensures var t := Register(s, r);
            t.networks.Keys == s.networks.Keys && (k in s.networks ==> t.networks[k].roles == s.networks[k].roles)
  {
    match RegisterPath(s, r)
    case Rejected =>
    case Refreshed =>
      RegistryRuns.SlowFrame(s, r);
      RegistryRuns.FastFrame(s, r);
    case KeyReclaimed =>
      var id := s.pubKeyIdx[r.key];
      RevivedRoles(if r.owner != "" then s.(ownerIdx := s.ownerIdx[r.owner := id]) else s, r, id, [0] + r.scan, k);
    case OwnerReclaimed =>
      var id := s.ownerIdx[r.owner];
      RevivedRoles(s.(pubKeyIdx := s.pubKeyIdx[r.key := id]), r, id, [0], k);
    case Allocated => RevivedRoles(Reserve(s, r), r, s.nextNode, [0], k);
  }

  // --- the law --------------------------------------------------------------------------------------

  /** The role of every node on every network after a step. */
  lemma RolesExactly(s: State, op: Op, k: NetId, n: NodeId)
    requires Inv(s)
    ensures RoleAt(Apply(s, op), k, n) == RoleAfter(s, op, k, n)
  {
    match op
    case RegisterStep(_) => RegisterRoles(s, op, k, n);
    case IndexStep(_, _, _) =>
    case NodeStep(_) => NodeRoles(s, op, k, n);
    case NetworkStep(_) => NetworkRoles(s, op, k, n);
    case RoleStep(_) => RankRoles(s, op, k, n);
  }
}
