/** Who a step lists on a network and who it takes off, told from the request and the state
    before, and what it does to the networks themselves. */
module MembershipLaws {
  import opened Registry
  import opened RegistryInvariants
  import opened RegistryRuns
  import opened RegisterLaws
  import opened NodeLaws
  import RegistryLimits

  // --- entering -----------------------------------------------------------------------------------

  /** An authorised creation of a network under a name no network bears, by a live node; without
      the enterprise flag it may not be by invitation. The network is given the next id. */
  ghost predicate Founds(s: State, op: Op, k: NetId, n: NodeId) {
    op.NetworkStep? && op.networkOp.OpCreate? &&
    var c := op.networkOp;
    && c.authorized && c.id == n && n in s.nodes && k == s.nextNet && k != 0
    && (c.joinRule == "invite" ==> c.enterprise)
    && (forall j :: j in s.networks ==> s.networks[j].name != c.name)
  }

  predicate Room(net: Network) {
    net.maxMembers > 0 ==> |net.members| < net.maxMembers
  }

  /** An authorised join of an open network, or of a token network with its token. */
  predicate Joins(s: State, op: Op, k: NetId, n: NodeId) {
    op.NetworkStep? && op.networkOp.OpJoin? &&
    var c := op.networkOp;
    && c.authorized && c.id == n && c.net == k && n in s.nodes && k in s.networks && k != 0
    && k !in s.nodes[n].networks && Room(s.networks[k])
    && (s.networks[k].joinRule == "open" || (s.networks[k].joinRule == "token" && c.token == s.networks[k].token))
  }

  /** An invite to `k` waits for `n`, the first one there, and is at most thirty days old. */
  ghost predicate Invited(s: State, k: NetId, n: NodeId, now: int) {
    n in s.invites && exists i ::
      && 0 <= i < |s.invites[n]| && s.invites[n][i].net == k && now - s.invites[n][i].at <= 2_592_000
      && forall j :: 0 <= j < i ==> s.invites[n][j].net != k
  }

  /** An authorised acceptance of an invite that waits for the node. */
  ghost predicate Accepts(s: State, op: Op, k: NetId, n: NodeId) {
    op.NetworkStep? && op.networkOp.OpRespond? &&
    var c := op.networkOp;
    && c.authorized && c.accept && c.id == n && c.net == k && n in s.nodes && k in s.networks
    && s.networks[k].enterprise && k !in s.nodes[n].networks && Room(s.networks[k]) && Invited(s, k, n, c.now)
  }

  /** A node that was not live is put on the backbone. */
  predicate Arrives(s: State, op: Op, k: NetId, n: NodeId) {
    k == 0 && n !in s.nodes && Answers(s, op, n)
  }

  ghost predicate Enters(s: State, op: Op, k: NetId, n: NodeId) {
    Founds(s, op, k, n) || Joins(s, op, k, n) || Accepts(s, op, k, n) || Arrives(s, op, k, n)
  }

  // --- leaving -------------------------------------------------------------------------------------

  predicate Holds(s: State, k: NetId, n: NodeId, role: Role) {
    k in s.networks && n in s.networks[k].roles && s.networks[k].roles[n] == role
  }

  /** The node leaves by itself; the owner of an enterprise network cannot. */
  predicate Leaves(s: State, op: Op, k: NetId, n: NodeId) {
    op.NetworkStep? && op.networkOp.OpLeave? &&
    var c := op.networkOp;
    && c.authorized && c.id == n && c.net == k && k != 0 && k in s.networks && n in s.nodes
    && k in s.nodes[n].networks && !(s.networks[k].enterprise && Holds(s, k, n, Owner))
  }

  predicate Deletes(s: State, op: Op, k: NetId) {
    op.NetworkStep? && op.networkOp.OpDelete? && op.networkOp.net == k && op.networkOp.authorized && k != 0
  }

  /** A kick: never the owner, and an admin not by an admin; or the administrator's, never the owner. */
  predicate IsKicked(s: State, op: Op, k: NetId, n: NodeId) {
    op.RoleStep? &&
    match op.roleOp
    case OpKick(net, target, caller, authorized) =>
      && net == k && target == n && authorized && k != 0 && !Holds(s, k, n, Owner)
      && !(Holds(s, k, caller, Admin) && Holds(s, k, n, Admin))
    case OpAdminKick(net, target) => net == k && target == n && !Holds(s, k, n, Owner)
    case _ => false
  }

  /** A departing node goes from the networks it points at, a reaped one from the backbone. */
  predicate DepartsFrom(s: State, op: Op, k: NetId, n: NodeId) {
    Departs(s, op, n) && if op.nodeOp.OpReap? then k == 0 else k in s.nodes[n].networks
  }

  predicate Exits(s: State, op: Op, k: NetId, n: NodeId) {
    Leaves(s, op, k, n) || Deletes(s, op, k) || IsKicked(s, op, k, n) || DepartsFrom(s, op, k, n)
  }

  /** A member list can hold a node twice (see RejoinedIsTwice); every exit but
      the network's deletion then takes off one of the two. */
  ghost predicate TwiceIn(members: seq<NodeId>, n: NodeId) {
    exists i, j :: 0 <= i < j < |members| && members[i] == members[j] == n
  }

  ghost predicate Twice(s: State, k: NetId, n: NodeId) {
    k in s.networks && TwiceIn(s.networks[k].members, n)
  }

  ghost predicate StaysListed(s: State, op: Op, k: NetId, n: NodeId) {
    Lists(s, k, n) && (!Exits(s, op, k, n) || (Twice(s, k, n) && !Deletes(s, op, k)))
  }

  ghost predicate ListedAs(s: State, op: Op, t: State, k: NetId, n: NodeId) {
    Lists(t, k, n) <==> StaysListed(s, op, k, n) || Enters(s, op, k, n)
  }

  // Which of the reasons a kind of step can be.

  lemma RegisterKind(s: State, op: Op, k: NetId, n: NodeId)
    requires op.RegisterStep?
    ensures (Enters(s, op, k, n) <==> Arrives(s, op, k, n)) && !Exits(s, op, k, n)
  {
  }

  lemma NodeKind(s: State, op: Op, k: NetId, n: NodeId)
    requires op.NodeStep?
    ensures !Enters(s, op, k, n) && (Exits(s, op, k, n) <==> DepartsFrom(s, op, k, n))
  {
  }

  lemma RoleKind(s: State, op: Op, k: NetId, n: NodeId)
    requires op.RoleStep?
    ensures !Enters(s, op, k, n) && (Exits(s, op, k, n) <==> IsKicked(s, op, k, n))
  {
  }

  lemma NetworkKind(s: State, op: Op, k: NetId, n: NodeId)
    requires op.NetworkStep?
    ensures Enters(s, op, k, n) <==>
            Founds(s, op, k, n) || Joins(s, op, k, n) || Accepts(s, op, k, n)
    ensures Exits(s, op, k, n) <==> Leaves(s, op, k, n) || Deletes(s, op, k)
  {
  }

  lemma IndexKind(s: State, op: Op, k: NetId, n: NodeId)
    requires op.IndexStep?
    ensures !Enters(s, op, k, n) && !Exits(s, op, k, n)
  {
  }

  // --- the groups of steps ----------------------------------------------------------------------------

  lemma {:induction false} DroppedFirst(members: seq<NodeId>, id: NodeId, n: NodeId)
    ensures n in RemoveFirst(members, id) <==> n in members && (n != id || TwiceIn(members, n))
    decreases |members|
  {
    if members != [] {
      var tail := members[1..];
      assert forall i :: 0 < i < |members| ==> members[i] == tail[i - 1];
      if members[0] == id {
        if n == id && n in tail {
          var j :| 0 <= j < |tail| && tail[j] == n;
          assert members[0] == members[j + 1] == n;
        }
      } else {
        DroppedFirst(tail, id, n);
        if TwiceIn(tail, n) {
          var i, j :| 0 <= i < j < |tail| && tail[i] == tail[j] == n;
          assert members[i + 1] == members[j + 1] == n;
        }
      }
    }
  }

  lemma CreateLists(s: State, op: Op, k: NetId, n: NodeId)
    requires Inv(s) && op.NetworkStep? && op.networkOp.OpCreate?
    ensures ListedAs(s, op, Apply(s, op), k, n)
  {
    var c := op.networkOp;
    NetworkKind(s, op, k, n);
    CreateEffect(s, c.id, c.name, c.joinRule, c.token, c.enterprise, c.authorized);
    assert s.nextNet in s.networks ==> s.nextNet == 0;
  }

  lemma LinkLists(s: State, id: NodeId, j: NetId, k: NetId, n: NodeId)
    requires id in s.nodes && j in s.networks
    ensures Lists(Link(s, id, j), k, n) <==> Lists(s, k, n) || (k == j && n == id)
  {
  }

  lemma JoinsExactly(s: State, id: NodeId, k: NetId, token: string, authorized: bool)
    ensures Joins(s, NetworkStep(OpJoin(id, k, token, authorized)), k, id) <==> authorized && JoinAllowed(s, id, k, token)
  {
  }

  lemma JoinLists(s: State, op: Op, k: NetId, n: NodeId)
    requires Inv(s) && op.NetworkStep? && op.networkOp.OpJoin?
    ensures ListedAs(s, op, Apply(s, op), k, n)
  {
    var c := op.networkOp;
    NetworkKind(s, op, k, n);
    if c.id in s.nodes && c.net in s.networks { LinkLists(s, c.id, c.net, k, n); }
  }

  lemma {:induction false} FoundInvite(inbox: seq<Invite>, k: NetId)
    ensures FindInvite(inbox, k).None? <==> forall i :: 0 <= i < |inbox| ==> inbox[i].net != k
    ensures FindInvite(inbox, k).Some? ==>
              exists i :: 0 <= i < |inbox| && inbox[i] == FindInvite(inbox, k).value && inbox[i].net == k
                          && forall j :: 0 <= j < i ==> inbox[j].net != k
  {
    if inbox != [] && inbox[0].net != k {
      FoundInvite(inbox[1..], k);
      assert forall i :: 0 < i < |inbox| ==> inbox[i] == inbox[1..][i - 1];
      if FindInvite(inbox[1..], k).Some? {
        var i :| 0 <= i < |inbox[1..]| && inbox[1..][i] == FindInvite(inbox[1..], k).value && inbox[1..][i].net == k
                 && forall j :: 0 <= j < i ==> inbox[1..][j].net != k;
        assert inbox[i + 1] == inbox[1..][i];
      }
    }
  }

  lemma InvitedExactly(s: State, k: NetId, n: NodeId, now: int)
    ensures var inv := FindInvite(InboxOf(s, n), k);
            Invited(s, k, n, now) <==> inv.Some? && !Expired(inv.value, now)
  {
    FoundInvite(InboxOf(s, n), k);
  }

  lemma RespondLists(s: State, op: Op, k: NetId, n: NodeId)
    requires Inv(s) && op.NetworkStep? && op.networkOp.OpRespond?
    ensures ListedAs(s, op, Apply(s, op), k, n)
  {
    var c := op.networkOp;
    NetworkKind(s, op, k, n);
    InvitedExactly(s, c.net, c.id, c.now);
    if c.id in s.nodes && c.net in s.networks { LinkLists(s, c.id, c.net, k, n); }
  }

  lemma LeaveLists(s: State, op: Op, k: NetId, n: NodeId)
    requires 0 in s.networks && op.NetworkStep? && op.networkOp.OpLeave?
    ensures ListedAs(s, op, Apply(s, op), k, n)
  {
    var c := op.networkOp;
    NetworkKind(s, op, k, n);
    LeaveEffect(s, c.id, c.net, c.authorized, k, n);
  }

  lemma LeaveEffect(s: State, id: NodeId, j: NetId, authorized: bool, k: NetId, n: NodeId)
    ensures var may := authorized && j != 0 && j in s.networks && id in s.nodes && j in s.nodes[id].networks
                       && !(s.networks[j].enterprise && Holds(s, j, id, Owner));
            Lists(Leave(s, id, j, authorized), k, n) <==>
            Lists(s, k, n) && (!(may && k == j && n == id) || Twice(s, k, n))
  {
    if j in s.networks { DroppedFirst(s.networks[j].members, id, n); }
  }

  lemma OtherNetworkLists(s: State, op: Op, k: NetId, n: NodeId)
    requires 0 in s.networks && op.NetworkStep?
    requires op.networkOp.OpDelete? || op.networkOp.OpSetEnterprise? || op.networkOp.OpInvite? || op.networkOp.OpPoll?
    ensures ListedAs(s, op, Apply(s, op), k, n)
  {
  }

  lemma RoleStepLists(s: State, op: Op, k: NetId, n: NodeId)
    requires 0 in s.networks && op.RoleStep?
    ensures ListedAs(s, op, Apply(s, op), k, n)
  {
    if op.roleOp.OpKick? {
      KickLists(s, op, k, n);
    } else if op.roleOp.OpAdminKick? {
      AdminKickLists(s, op, k, n);
    } else {
      RanksLists(s, op, k, n);
    }
  }

  lemma RanksLists(s: State, op: Op, k: NetId, n: NodeId)
    requires 0 in s.networks && op.RoleStep? && !op.roleOp.OpKick? && !op.roleOp.OpAdminKick?
    ensures ListedAs(s, op, Apply(s, op), k, n)
  {
    RoleKind(s, op, k, n);
    RankEffect(s, op.roleOp, k, n);
  }

  lemma RankEffect(s: State, op: RoleOp, k: NetId, n: NodeId)
    requires !op.OpKick? && !op.OpAdminKick?
    ensures Lists(ApplyRole(s, op), k, n) == Lists(s, k, n)
  {
  }

  lemma KickLists(s: State, op: Op, k: NetId, n: NodeId)
    requires 0 in s.networks && op.RoleStep? && op.roleOp.OpKick?
    ensures ListedAs(s, op, Apply(s, op), k, n)
  {
    var c := op.roleOp;
    RoleKind(s, op, k, n);
    KickEffect(s, c.net, c.target, c.caller, c.authorized, k, n);
  }

  lemma KickDrops(s: State, j: NetId, target: NodeId, caller: NodeId, authorized: bool)
    requires j in s.networks && target in s.networks[j].members
    ensures var may := j != 0 && authorized && !Holds(s, j, target, Owner)
                       && !(Holds(s, j, caller, Admin) && Holds(s, j, target, Admin));
            Kick(s, j, target, caller, authorized).networks
            == (if may then DropMember(s, j, target).networks else s.networks)
  {
  }

  lemma KickEffect(s: State, j: NetId, target: NodeId, caller: NodeId, authorized: bool, k: NetId, n: NodeId)
    ensures var may := j != 0 && authorized && !Holds(s, j, target, Owner)
                       && !(Holds(s, j, caller, Admin) && Holds(s, j, target, Admin));
            Lists(Kick(s, j, target, caller, authorized), k, n) <==>
            Lists(s, k, n) && (!(may && k == j && n == target) || Twice(s, k, n))
  {
    if Lists(s, j, target) {
      KickDrops(s, j, target, caller, authorized);
      DroppedFirst(s.networks[j].members, target, n);
    } else {
      assert Kick(s, j, target, caller, authorized) == s;
    }
  }

  lemma AdminKickLists(s: State, op: Op, k: NetId, n: NodeId)
    requires 0 in s.networks && op.RoleStep? && op.roleOp.OpAdminKick?
    ensures ListedAs(s, op, Apply(s, op), k, n)
  {
    RoleKind(s, op, k, n);
    AdminKickEffect(s, op.roleOp.net, op.roleOp.target, k, n);
  }

  lemma AdminKickEffect(s: State, j: NetId, target: NodeId, k: NetId, n: NodeId)
    ensures Lists(AdminKick(s, j, target), k, n) <==>
            Lists(s, k, n) && (!(!Holds(s, j, target, Owner) && k == j && n == target) || Twice(s, k, n))
  {
    if j in s.networks { DroppedFirst(s.networks[j].members, target, n); }
  }

  lemma DeregisterEffect(s: State, id: NodeId, authorized: bool, k: NetId, n: NodeId)
    requires Inv(s)
    ensures Lists(Deregister(s, id, authorized), k, n) <==>
            Lists(s, k, n)
            && (!(authorized && id in s.nodes && n == id && k in s.nodes[id].networks) || Twice(s, k, n))
  {
    if id in s.nodes && k in s.networks {
      DropFromNetworksAt(s, id, s.nodes[id].networks, k);
      DroppedFirst(s.networks[k].members, id, n);
    }
  }

  lemma ReapEffect(s: State, id: NodeId, threshold: int, k: NetId, n: NodeId)
    requires 0 in s.networks
    ensures Lists(Reap(s, id, threshold), k, n) <==>
            Lists(s, k, n)
            && (!(id in s.nodes && s.nodes[id].lastSeen < threshold && n == id && k == 0) || Twice(s, k, n))
  {
    DroppedFirst(s.networks[0].members, id, n);
  }

  lemma OtherNodeEffect(s: State, op: NodeOp, k: NetId, n: NodeId)
    requires !op.OpDeregister? && !op.OpReap?
    ensures Lists(ApplyNode(s, op), k, n) == Lists(s, k, n)
  {
  }

  lemma NodeStepLists(s: State, op: Op, k: NetId, n: NodeId)
    requires Inv(s) && op.NodeStep?
    ensures ListedAs(s, op, Apply(s, op), k, n)
  {
    NodeKind(s, op, k, n);
    match op.nodeOp
    case OpDeregister(id, a) => DeregisterEffect(s, id, a, k, n);
    case OpReap(id, t) => ReapEffect(s, id, t, k, n);
    case _ => OtherNodeEffect(s, op.nodeOp, k, n);
  }

  lemma RevivedLists(s: State, r: Registration, id: NodeId, networks: seq<NetId>, k: NetId, n: NodeId)
    requires 0 in s.networks
    ensures Lists(Revive(s, r, id, networks), k, n) <==> Lists(s, k, n) || (k == 0 && n == id)
  {
  }

  lemma RefreshedLists(s: State, r: Registration, k: NetId, n: NodeId)
    requires IsKnownLive(s, r.key)
    ensures Lists(FastPath(s, r), k, n) == Lists(s, k, n) && Lists(SlowPath(s, r), k, n) == Lists(s, k, n)
  {
    SlowFrame(s, r);
  }

  lemma RegisterLists(s: State, op: Op, k: NetId, n: NodeId)
    requires Inv(s) && op.RegisterStep?
    ensures ListedAs(s, op, Apply(s, op), k, n)
  {
    RegisterKind(s, op, k, n);
    RegisterEffect(s, op.r, k, n);
  }

  lemma RegisterEffect(s: State, r: Registration, k: NetId, n: NodeId)
    requires Inv(s)
    ensures Lists(Register(s, r), k, n) <==>
            Lists(s, k, n) || (k == 0 && n !in s.nodes && !Refuses(s, r) && Subject(s, r) == n)
  {
    match RegisterPath(s, r)
    case Rejected =>
    case Refreshed => RefreshedLists(s, r, k, n);
    case KeyReclaimed =>
      var id := s.pubKeyIdx[r.key];
      RevivedLists(if r.owner != "" then s.(ownerIdx := s.ownerIdx[r.owner := id]) else s, r, id, [0] + r.scan, k, n);
    case OwnerReclaimed =>
      var id := s.ownerIdx[r.owner];
      RevivedLists(s.(pubKeyIdx := s.pubKeyIdx[r.key := id]), r, id, [0], k, n);
    case Allocated =>
      assert s.nextNode in s.nodes ==> Issued(s, s.nextNode);
      RevivedLists(Reserve(s, r), r, s.nextNode, [0], k, n);
  }

  lemma NetworkStepLists(s: State, op: Op, k: NetId, n: NodeId)
    requires Inv(s) && op.NetworkStep?
    ensures ListedAs(s, op, Apply(s, op), k, n)
  {
    match op.networkOp
    case OpCreate(_, _, _, _, _, _) => CreateLists(s, op, k, n);
    case OpJoin(_, _, _, _) => JoinLists(s, op, k, n);
    case OpLeave(_, _, _) => LeaveLists(s, op, k, n);
    case OpRespond(_, _, _, _, _) => RespondLists(s, op, k, n);
    case _ => OtherNetworkLists(s, op, k, n);
  }

  // --- the law --------------------------------------------------------------------------------------------

  /** After a step a network lists exactly those it listed before who did not exit, and those who
      entered: by founding it, by joining an open network or one whose token they gave, by
      accepting an invite that waited for them, or, on the backbone, by registering. */
  lemma ListedExactly(s: State, op: Op, k: NetId, n: NodeId)
    requires Inv(s)
    ensures Lists(Apply(s, op), k, n) <==> StaysListed(s, op, k, n) || Enters(s, op, k, n)
  {
    match op
    case RegisterStep(_) => RegisterLists(s, op, k, n);
    case IndexStep(_, _, _) => IndexKind(s, op, k, n);
    case NodeStep(_) => NodeStepLists(s, op, k, n);
    case NetworkStep(_) => NetworkStepLists(s, op, k, n);
    case RoleStep(_) => RoleStepLists(s, op, k, n);
  }

  /** The node enters the network in some step of the run. */
  ghost predicate EnteredDuring(s: State, ops: seq<Op>, k: NetId, n: NodeId)
    requires Legal(s, ops)
    decreases |ops|
  {
    ops != [] && (Enters(s, ops[0], k, n) || EnteredDuring(Apply(s, ops[0]), ops[1..], k, n))
  }

  /** Over every run: whoever a network lists at the end and did not list at the beginning has
      entered it on the way. */
  lemma {:induction false} MembersEntered(s: State, ops: seq<Op>, k: NetId, n: NodeId)
    requires Inv(s) && Legal(s, ops) && !Lists(s, k, n) && Lists(Run(s, ops), k, n)
    ensures EnteredDuring(s, ops, k, n)
    decreases |ops|
  {
    var t := Apply(s, ops[0]);
    ListedExactly(s, ops[0], k, n);
    StepKeepsInv(s, ops[0]);
    if !Lists(t, k, n) { MembersEntered(t, ops[1..], k, n); }
  }

  // --- listed twice ---------------------------------------------------------------------------------------

  const Back := RegisterStep(RegistryLimits.Claim)
  const Rejoin := NetworkStep(OpJoin(1, 1, "", true))

  /** A node that its owner's reclaim cut off from a network that lists it can join it again. */
  lemma RejoinedIsTwice()
    ensures Legal(Initial, [RegistryLimits.First, RegistryLimits.Second, RegistryLimits.Third])
    ensures Run(Initial, [RegistryLimits.First, RegistryLimits.Second, RegistryLimits.Third]) == RegistryLimits.Reaped
    ensures Legal(RegistryLimits.Reaped, [Back, Rejoin]) && Twice(Run(RegistryLimits.Reaped, [Back, Rejoin]), 1, 1)
  {
    RegistryLimits.ReapedIsReachable();
    var s := RegistryLimits.Reaped;
    var t := Apply(s, Back);
    CutOffNode();
    var u := Apply(t, Rejoin);
    assert u.networks[1].members == [1] + [1];
    assert u.networks[1].members[0] == u.networks[1].members[1] == 1;
    RegistryLimits.RunTwo(s, Back, t, Rejoin);
  }

  lemma CutOffNode()
    ensures 0 in RegistryLimits.Reaped.networks && Enabled(RegistryLimits.Reaped, Back)
    ensures var t := Apply(RegistryLimits.Reaped, Back);
            && 0 in t.networks && 1 in t.networks && t.networks[1] == RegistryLimits.Reaped.networks[1]
            && 1 in t.nodes && t.nodes[1].networks == [0]
  {
  }

  // --- the networks -----------------------------------------------------------------------------------------

  ghost predicate NetworkFounded(s: State, op: Op, k: NetId) {
    op.NetworkStep? && op.networkOp.OpCreate? && Founds(s, op, k, op.networkOp.id)
  }

  function FlagAfter(s: State, op: Op, k: NetId): bool
    requires k in s.networks
  {
    if op.NetworkStep? && op.networkOp.OpSetEnterprise? && op.networkOp.net == k && op.networkOp.authorized && k != 0
    then op.networkOp.enterprise else s.networks[k].enterprise
  }

  /** The network keeps its name, rule, token and limit; only the enterprise flag can change. */
  ghost predicate KeepsTerms(s: State, op: Op, t: State, k: NetId) {
    k in s.networks && k in t.networks ==>
      var a, b := s.networks[k], t.networks[k];
      && b.name == a.name && b.joinRule == a.joinRule && b.token == a.token && b.maxMembers == a.maxMembers
      && b.enterprise == FlagAfter(s, op, k)
  }

  /** A new network has the terms asked for, no limit, and its founder as owner. */
  ghost predicate HasTerms(op: Op, net: Network) {
    op.NetworkStep? && op.networkOp.OpCreate? &&
    var c := op.networkOp;
    && net.name == c.name && net.joinRule == (if c.joinRule == "" then "open" else c.joinRule) && net.token == c.token
    && net.enterprise == c.enterprise && net.maxMembers == 0
    && net.members == [c.id] && net.roles == map[c.id := Owner]
  }

  ghost predicate NetworkAs(s: State, op: Op, t: State, k: NetId) {
    && (k in t.networks <==> (k in s.networks && !Deletes(s, op, k)) || NetworkFounded(s, op, k))
    && KeepsTerms(s, op, t, k) && (NetworkFounded(s, op, k) && k in t.networks ==> HasTerms(op, t.networks[k]))
  }

  lemma CreateNetworks(s: State, op: Op, k: NetId)
    requires Inv(s) && op.NetworkStep? && op.networkOp.OpCreate?
    ensures NetworkAs(s, op, Apply(s, op), k)
  {
    var c := op.networkOp;
    assert s.nextNet in s.networks ==> s.nextNet == 0;
    CreateEffect(s, c.id, c.name, c.joinRule, c.token, c.enterprise, c.authorized);
  }

  lemma CreateEffect(s: State, id: NodeId, name: string, rule: string, token: string, ent: bool, authorized: bool)
    ensures var t := CreateNetwork(s, id, name, rule, token, ent, authorized);
            var net := Network(name, if rule == "" then "open" else rule, token, ent, 0, [id], map[id := Owner]);
            t.networks == if authorized && (rule == "invite" ==> ent) && id in s.nodes && s.nextNet != 0
                             && forall j :: j in s.networks ==> s.networks[j].name != name
                          then s.networks[s.nextNet := net] else s.networks
  {
  }

  lemma OtherNetworks(s: State, op: Op, k: NetId)
    requires 0 in s.networks && op.NetworkStep? && !op.networkOp.OpCreate?
    ensures NetworkAs(s, op, Apply(s, op), k)
  {
    if op.networkOp.OpDelete? {
      DeletedNetworks(s, op, k);
    } else if op.networkOp.OpSetEnterprise? {
      FlaggedNetworks(s, op, k);
    } else {
      MemberSteps(s, op.networkOp, k);
      FrameNetworks(s, op, Apply(s, op), k);
    }
  }

  lemma DeletedNetworks(s: State, op: Op, k: NetId)
    requires 0 in s.networks && op.NetworkStep? && op.networkOp.OpDelete?
    ensures NetworkAs(s, op, Apply(s, op), k)
  {
  }

  lemma FlaggedNetworks(s: State, op: Op, k: NetId)
    requires 0 in s.networks && op.NetworkStep? && op.networkOp.OpSetEnterprise?
    ensures NetworkAs(s, op, Apply(s, op), k)
  {
    var c := op.networkOp;
    FlagEffect(s, c.net, c.enterprise, c.authorized, k);
  }

  lemma FlagEffect(s: State, j: NetId, enterprise: bool, authorized: bool, k: NetId)
    ensures var t := SetEnterprise(s, j, enterprise, authorized);
            && (k in t.networks <==> k in s.networks)
            && (k in s.networks && k in t.networks ==>
                  t.networks[k] == s.networks[k].(roles := t.networks[k].roles,
                                                  enterprise := if k == j && authorized && k != 0 then enterprise
                                                                else s.networks[k].enterprise))
  {
  }

  /** Only the members and roles of networks differ. */
  ghost predicate SameTerms(s: State, t: State, k: NetId) {
    && (k in t.networks <==> k in s.networks)
    && (k in s.networks && k in t.networks ==>
          t.networks[k] == s.networks[k].(members := t.networks[k].members, roles := t.networks[k].roles))
  }

  lemma FrameNetworks(s: State, op: Op, t: State, k: NetId)
    requires SameTerms(s, t, k)
    requires op.NetworkStep? ==> !op.networkOp.OpCreate? && !op.networkOp.OpDelete? && !op.networkOp.OpSetEnterprise?
    ensures NetworkAs(s, op, t, k)
  {
  }

  lemma MemberSteps(s: State, op: NetworkOp, k: NetId)
    requires !op.OpCreate? && !op.OpDelete? && !op.OpSetEnterprise?
    ensures SameTerms(s, ApplyNetwork(s, op), k)
  {
  }

  lemma RoleSteps(s: State, op: RoleOp, k: NetId)
    ensures SameTerms(s, ApplyRole(s, op), k)
  {
    match op
    case OpKick(j, t, c, a) => KickTerms(s, j, t, c, a, k);
    case OpAdminKick(j, t) => AdminKickTerms(s, j, t, k);
    case _ => RankTerms(s, op, k);
  }

  lemma RankTerms(s: State, op: RoleOp, k: NetId)
    requires !op.OpKick? && !op.OpAdminKick?
    ensures SameTerms(s, ApplyRole(s, op), k)
  {
    match op
    case OpTransfer(j, m, c, a) => TransferTerms(s, j, m, c, a, k);
    case OpPromote(j, t, a) => ChangeTerms(s, j, t, Member, Admin, a, k);
    case OpDemote(j, t, a) => ChangeTerms(s, j, t, Admin, Member, a, k);
    case OpAdminSetRole(_, _, _) =>
  }

  lemma ChangeTerms(s: State, j: NetId, target: NodeId, from: Role, to: Role, authorized: bool, k: NetId)
    ensures SameTerms(s, ChangeRole(s, j, target, from, to, authorized), k)
  {
  }

  lemma TransferTerms(s: State, j: NetId, next: NodeId, current: NodeId, authorized: bool, k: NetId)
    ensures SameTerms(s, Transfer(s, j, next, current, authorized), k)
  {
  }

  lemma KickTerms(s: State, j: NetId, target: NodeId, caller: NodeId, authorized: bool, k: NetId)
    ensures SameTerms(s, Kick(s, j, target, caller, authorized), k)
  {
  }

  lemma AdminKickTerms(s: State, j: NetId, target: NodeId, k: NetId)
    ensures SameTerms(s, AdminKick(s, j, target), k)
  {
  }

  lemma RoleNetworks(s: State, op: Op, k: NetId)
    requires 0 in s.networks && op.RoleStep?
    ensures NetworkAs(s, op, Apply(s, op), k)
  {
    RoleSteps(s, op.roleOp, k);
    FrameNetworks(s, op, Apply(s, op), k);
  }

  lemma NodeNetworks(s: State, op: Op, k: NetId)
    requires Inv(s) && op.NodeStep?
    ensures NetworkAs(s, op, Apply(s, op), k)
  {
    NodeTerms(s, op.nodeOp, k);
    FrameNetworks(s, op, Apply(s, op), k);
  }

  lemma NodeTerms(s: State, op: NodeOp, k: NetId)
    requires Inv(s)
    ensures SameTerms(s, ApplyNode(s, op), k)
  {
    match op
    case OpDeregister(id, authorized) => DeregisterTerms(s, id, authorized, k);
    case OpReap(id, threshold) => ReapTerms(s, id, threshold, k);
    case _ => assert ApplyNode(s, op).networks == s.networks;
  }

  lemma DeregisterTerms(s: State, id: NodeId, authorized: bool, k: NetId)
    requires Inv(s)
    ensures SameTerms(s, Deregister(s, id, authorized), k)
  {
    if id in s.nodes && k in s.networks { DropFromNetworksAt(s, id, s.nodes[id].networks, k); }
  }

  lemma ReapTerms(s: State, id: NodeId, threshold: int, k: NetId)
    ensures SameTerms(s, Reap(s, id, threshold), k)
  {
  }

  lemma RevivedNetworks(s: State, r: Registration, id: NodeId, networks: seq<NetId>, k: NetId)
    requires 0 in s.networks
    ensures var t := Revive(s, r, id, networks);
            && t.networks.Keys == s.networks.Keys
            && (k in s.networks ==> t.networks[k] == s.networks[k].(members := t.networks[k].members))
  {
  }

  lemma RegisterNetworks(s: State, op: Op, k: NetId)
    requires Inv(s) && op.RegisterStep?
    ensures NetworkAs(s, op, Apply(s, op), k)
  {
    var r := op.r;
    match RegisterPath(s, r)
    case Rejected =>
    case Refreshed =>
      SlowFrame(s, r);
      FastFrame(s, r);
    case KeyReclaimed =>
      var id := s.pubKeyIdx[r.key];
      RevivedNetworks(if r.owner != "" then s.(ownerIdx := s.ownerIdx[r.owner := id]) else s, r, id, [0] + r.scan, k);
    case OwnerReclaimed =>
      var id := s.ownerIdx[r.owner];
      RevivedNetworks(s.(pubKeyIdx := s.pubKeyIdx[r.key := id]), r, id, [0], k);
    case Allocated => RevivedNetworks(Reserve(s, r), r, s.nextNode, [0], k);
  }

  /** Which networks exist after a step, on which terms. */
  lemma NetworksExactly(s: State, op: Op, k: NetId)
    requires Inv(s)
    ensures k in Apply(s, op).networks <==> (k in s.networks && !Deletes(s, op, k)) || NetworkFounded(s, op, k)
    ensures KeepsTerms(s, op, Apply(s, op), k)
    ensures NetworkFounded(s, op, k) ==> HasTerms(op, Apply(s, op).networks[k])
  {
    match op
    case RegisterStep(_) => RegisterNetworks(s, op, k);
    case IndexStep(_, _, _) =>
    case NodeStep(_) => NodeNetworks(s, op, k);
    case NetworkStep(d) => if d.OpCreate? { CreateNetworks(s, op, k); } else { OtherNetworks(s, op, k); }
    case RoleStep(_) => RoleNetworks(s, op, k);
  }

  /** The network counter moves, modulo 2^16, exactly when a network is founded. */
  lemma NetworkCounterExactly(s: State, op: Op)
    requires Inv(s)
    ensures Apply(s, op).nextNet == if NetworkFounded(s, op, s.nextNet) then (s.nextNet + 1) % 0x1_0000 else s.nextNet
  {
    match op
    case RegisterStep(r) => RegisterNumber(s, r);
    case IndexStep(_, _, _) =>
    case NodeStep(d) => NodeNumber(s, d);
    case NetworkStep(d) => NetworkNumber(s, d);
    case RoleStep(d) => RoleNumber(s, d);
  }

  lemma RevivedNumber(s: State, r: Registration, id: NodeId, networks: seq<NetId>)
    requires 0 in s.networks
    ensures Revive(s, r, id, networks).nextNet == s.nextNet
  {
  }

  lemma RegisterNumber(s: State, r: Registration)
    requires 0 in s.networks
    ensures Register(s, r).nextNet == s.nextNet
  {
    match RegisterPath(s, r)
    case Rejected =>
    case Refreshed =>
      SlowFrame(s, r);
      FastFrame(s, r);
    case KeyReclaimed =>
      var id := s.pubKeyIdx[r.key];
      RevivedNumber(if r.owner != "" then s.(ownerIdx := s.ownerIdx[r.owner := id]) else s, r, id, [0] + r.scan);
    case OwnerReclaimed =>
      var id := s.ownerIdx[r.owner];
      RevivedNumber(s.(pubKeyIdx := s.pubKeyIdx[r.key := id]), r, id, [0]);
    case Allocated => RevivedNumber(Reserve(s, r), r, s.nextNode, [0]);
  }

  lemma NodeNumber(s: State, op: NodeOp)
    ensures ApplyNode(s, op).nextNet == s.nextNet
  {
  }

  lemma NetworkNumber(s: State, op: NetworkOp)
    ensures ApplyNetwork(s, op).nextNet
            == if NetworkFounded(s, NetworkStep(op), s.nextNet) then (s.nextNet + 1) % 0x1_0000 else s.nextNet
  {
    if op.OpCreate? {
      CreateNumber(s, op.id, op.name, op.joinRule, op.token, op.enterprise, op.authorized);
    } else if op.OpJoin? || op.OpRespond? {
      assert ApplyNetwork(s, op).nextNet == s.nextNet;
    }
  }

  lemma CreateNumber(s: State, id: NodeId, name: string, rule: string, token: string, ent: bool, authorized: bool)
    ensures CreateNetwork(s, id, name, rule, token, ent, authorized).nextNet
            == if authorized && (rule == "invite" ==> ent) && id in s.nodes && s.nextNet != 0
                  && forall j :: j in s.networks ==> s.networks[j].name != name
               then (s.nextNet + 1) % 0x1_0000 else s.nextNet
  {
  }

  lemma RoleNumber(s: State, op: RoleOp)
    ensures ApplyRole(s, op).nextNet == s.nextNet
  {
  }

  // --- the member limit ----------------------------------------------------------------------------------------

  /** Off the backbone, member lists grow by one, and only where there is room. */
  lemma GrowsWithRoom(s: State, op: Op, k: NetId)
    requires Inv(s) && k != 0 && k in s.networks && k in Apply(s, op).networks
    ensures var a, b := s.networks[k], Apply(s, op).networks[k];
            |b.members| <= |a.members| || (|b.members| == |a.members| + 1 && Room(a))
  {
    match op
    case RegisterStep(r) => RegisterLengths(s, r, k);
    case IndexStep(_, _, _) =>
    case NodeStep(d) => NodeLengths(s, d, k);
    case NetworkStep(d) => NetworkLengths(s, d, k);
    case RoleStep(d) => RoleLengths(s, d, k);
  }

  lemma {:induction false} RemoveFirstShorter(members: seq<NodeId>, n: NodeId)
    ensures |RemoveFirst(members, n)| <= |members|
  {
    if members != [] && members[0] != n { RemoveFirstShorter(members[1..], n); }
  }

  lemma RevivedLength(s: State, r: Registration, id: NodeId, networks: seq<NetId>, k: NetId)
    requires 0 in s.networks && k != 0 && k in s.networks
    ensures k in Revive(s, r, id, networks).networks
    ensures Revive(s, r, id, networks).networks[k].members == s.networks[k].members
  {
  }

  lemma RegisterLengths(s: State, r: Registration, k: NetId)
    requires Inv(s) && k != 0 && k in s.networks
    ensures k in Register(s, r).networks && Register(s, r).networks[k].members == s.networks[k].members
  {
    match RegisterPath(s, r)
    case Rejected =>
    case Refreshed =>
      SlowFrame(s, r);
      FastFrame(s, r);
    case KeyReclaimed =>
      var id := s.pubKeyIdx[r.key];
      RevivedLength(if r.owner != "" then s.(ownerIdx := s.ownerIdx[r.owner := id]) else s, r, id, [0] + r.scan, k);
    case OwnerReclaimed =>
      var id := s.ownerIdx[r.owner];
      RevivedLength(s.(pubKeyIdx := s.pubKeyIdx[r.key := id]), r, id, [0], k);
    case Allocated => RevivedLength(Reserve(s, r), r, s.nextNode, [0], k);
  }

  lemma NodeLengths(s: State, op: NodeOp, k: NetId)
    requires Inv(s) && k != 0 && k in s.networks && k in ApplyNode(s, op).networks
    ensures |ApplyNode(s, op).networks[k].members| <= |s.networks[k].members|
  {
    if op.OpDeregister? && op.id in s.nodes {
      DropFromNetworksAt(s, op.id, s.nodes[op.id].networks, k);
      RemoveFirstShorter(s.networks[k].members, op.id);
    }
  }

  lemma NetworkLengths(s: State, op: NetworkOp, k: NetId)
    requires Inv(s) && k != 0 && k in s.networks && k in ApplyNetwork(s, op).networks
    ensures var a, b := s.networks[k], ApplyNetwork(s, op).networks[k];
            |b.members| <= |a.members| || (|b.members| == |a.members| + 1 && Room(a))
  {
    if op.OpLeave? { RemoveFirstShorter(s.networks[k].members, op.id); }
  }

  lemma RoleLengths(s: State, op: RoleOp, k: NetId)
    requires k in s.networks && k in ApplyRole(s, op).networks
    ensures |ApplyRole(s, op).networks[k].members| <= |s.networks[k].members|
  {
    if op.OpKick? || op.OpAdminKick? { RemoveFirstShorter(s.networks[k].members, op.target); }
  }

  ghost predicate WithinLimit(s: State, k: NetId) {
    k in s.networks && s.networks[k].maxMembers > 0 ==> |s.networks[k].members| <= s.networks[k].maxMembers
  }

  /** Over every run no network grows beyond its limit. */
  lemma {:induction false} RunWithinLimit(s: State, ops: seq<Op>, k: NetId)
    requires Inv(s) && Legal(s, ops) && k != 0 && WithinLimit(s, k)
    ensures WithinLimit(Run(s, ops), k)
    decreases |ops|
  {
    if ops != [] {
      var t := Apply(s, ops[0]);
      NetworksExactly(s, ops[0], k);
      if k in s.networks && k in t.networks { GrowsWithRoom(s, ops[0], k); }
      StepKeepsInv(s, ops[0]);
      RunWithinLimit(t, ops[1..], k);
    }
  }
}
